/** How the coordinator's state may move: what no step, and therefore no run, ever takes back. */
module Progress {
  import opened Transcript
  import opened Retention
  import opened Service
  import opened CoordinatorSpec
  import opened RunInvariants
  import opened StateInvariants
  import opened FeedInvariants
  import opened FeedSteps

  /** A run keeps what it started from, never forgets a cancel, never leaves a commit it has entered, never
      enters one after a cancel, and publishes nothing more once it has met its limit. */
  predicate Evolves(r: Run, t: Run) {
    && t.id == r.id && t.record == r.record && t.messages == r.messages
    && (r.canceled ==> t.canceled)
    && (r.phase.Persisting? ==> t.phase.Persisting? && t.canceled == r.canceled)
    && (r.canceled && !r.phase.Persisting? ==> !t.phase.Persisting?)
    && (r.limited ==> t.limited && t.raw == r.raw && t.events == r.events)
  }

  /** Every active run either evolves or has ended. */
  ghost predicate RunsEvolve(a: map<Key, Run>, b: map<Key, Run>, ended: set<string>) {
    forall k <- a :: (k in b && Evolves(a[k], b[k])) || a[k].id in ended
  }

  /** A stopped engine only gets quieter. */
  ghost predicate Quiets(s: State, t: State) {
    && t.stopped && RunIds(t.runs) <= RunIds(s.runs) && t.lists <= s.lists
    && t.feeds.registered <= s.feeds.registered
    && (s.runs == map[] ==> t.runs == map[] && t.disk == s.disk)
  }

  /** A shutdown caller that has returned, drained or timed out, stays returned that way. */
  predicate Settles(a: ShutdownPc, b: ShutdownPc) {
    (a.Drained? ==> b.Drained?) && (a.TimedOut? ==> b.TimedOut?)
  }

  ghost predicate Grows(s: State, t: State) {
    && t.ephemeral == s.ephemeral
    && s.log.used <= t.log.used && s.log.ended <= t.log.ended && s.log.answered <= t.log.answered
    && RunsEvolve(s.runs, t.runs, t.log.ended)
    && (s.stopped ==> Quiets(s, t))
    && (forall c <- s.shutdowns :: c in t.shutdowns && Settles(s.shutdowns[c], t.shutdowns[c]))
  }

  lemma EvolvesTrans(a: map<Key, Run>, b: map<Key, Run>, c: map<Key, Run>, e: set<string>, e': set<string>)
    requires RunsEvolve(a, b, e) && RunsEvolve(b, c, e') && e <= e'
    ensures RunsEvolve(a, c, e')
  {}

  lemma GrowsTrans(s: State, m: State, t: State)
    requires Grows(s, m) && Grows(m, t)
    ensures Grows(s, t)
  {
    hide RunIds, RunsEvolve;
    EvolvesTrans(s.runs, m.runs, t.runs, m.log.ended, t.log.ended);
  }

  // ---- One step ----

  lemma EvolvesSame(runs: map<Key, Run>, ended: set<string>)
    ensures RunsEvolve(runs, runs, ended)
  {}

  lemma EvolvesPut(runs: map<Key, Run>, key: Key, r: Run, ended: set<string>)
    requires key in runs ==> Evolves(runs[key], r)
    ensures RunsEvolve(runs, runs[key := r], ended)
  {}

  /** Steps that replace one run and leave the log, the lists and the shutdown callers alone. */
  lemma PutGrows(s: State, t: State, key: Key, r: Run)
    requires key in s.runs && t.runs == s.runs[key := r] && Evolves(s.runs[key], r)
    requires t.ephemeral == s.ephemeral && t.stopped == s.stopped && t.lists == s.lists && t.shutdowns == s.shutdowns
    requires s.log.used <= t.log.used && s.log.ended <= t.log.ended && s.log.answered <= t.log.answered
    requires t.feeds.registered <= s.feeds.registered
    ensures Grows(s, t)
  {
    hide Evolves, RunIds, RunsEvolve;
    EvolvesPut(s.runs, key, r, t.log.ended);
    assert r.id == s.runs[key].id by { EvolvesId(s.runs[key], r); }
    RunIdsPut(s.runs, key, r);
  }

  lemma EvolvesId(r: Run, t: Run)
    requires Evolves(r, t)
    ensures t.id == r.id
  {}

  /** Steps that leave every run alone. */
  lemma SameRunsGrows(s: State, t: State)
    requires t.runs == s.runs && t.ephemeral == s.ephemeral && t.log == s.log
    requires s.stopped ==> t.stopped && t.lists <= s.lists && t.feeds.registered <= s.feeds.registered
                           && t.disk == s.disk
    requires forall c <- s.shutdowns :: c in t.shutdowns && Settles(s.shutdowns[c], t.shutdowns[c])
    ensures Grows(s, t)
  {
    hide RunIds, RunsEvolve;
    EvolvesSame(s.runs, t.log.ended);
  }

  lemma RunStepEvolves(s: State, a: Action)
    requires StateInv(s) && Enabled(s, a) && IsRunStep(a)
    ensures Evolves(s.runs[a.key], RunAfter(s, a))
  {
    hide StateInv, Verdict;
    RunControl(s, a.key);
    hide Control;
    if a.DoCreateRunner? { ClaimedIsPreparing(s, a.key); }
    else if a.DoWake? {} else if a.DoReturn? {} else if a.DoCheckContext? {}
    else if a.DoEnterPersist? {} else if a.DoReadFlags? {} else {}
  }

  lemma RunControl(s: State, key: Key)
    requires StateInv(s) && key in s.runs
    ensures Control(key, s.runs[key], s.ephemeral)
  {
    hide Control;
    RunOf(s, key);
  }

  lemma ClaimedIsPreparing(s: State, key: Key)
    requires key in s.runs && Control(key, s.runs[key], s.ephemeral) && s.runs[key].pc.Claimed?
    ensures s.runs[key].phase.Preparing?
  {}

  lemma EmitGrows(s: State, key: Key, e: Event)
    requires StateInv(s) && key in s.runs && (s.runs[key].pc.Executing? || s.runs[key].pc.Blocked?)
    ensures Grows(s, Append(s, key, e))
  {
    hide Grows, StateInv, Absorb, Fits, Publish;
    var r, t := s.runs[key], Append(s, key, e);
    assert !r.phase.Persisting? by { RunControl(s, key); }
    if r.limited {
      SameRunsGrows(s, s);
    } else {
      PublishOnlyRemoves(s.feeds, key, EventUpdate(e));
      PutGrows(s, t, key, t.runs[key]);
    }
  }

  lemma InteractGrows(s: State, key: Key, id: string, prompt: Prompt)
    requires StateInv(s) && key in s.runs && s.runs[key].pc.Executing?
    ensures Grows(s, Interact(s, key, id, prompt))
  {
    hide Grows, StateInv, Publish;
    var r, t := s.runs[key], Interact(s, key, id, prompt);
    assert !r.phase.Persisting? by { RunControl(s, key); }
    PublishOnlyRemoves(s.feeds, key, InteractionUpdate(Pending(id, key.session, r.id, prompt)));
    assert t.runs == s.runs[key := t.runs[key]];
    PutGrows(s, t, key, t.runs[key]);
  }

  lemma ReplyGrows(s: State, key: Key, runId: string, id: string, answer: Answer)
    requires StateInv(s)
    ensures Grows(s, Answered(s, key, runId, id, answer).0)
  {
    hide Grows, StateInv, Publish, Resolve, HandOver;
    var (t, ok) := Answered(s, key, runId, id, answer);
    if ok.Ok? {
      var r := s.runs[key];
      assert !r.phase.Persisting? by { RunControl(s, key); }
      PublishOnlyRemoves(s.feeds, key, ResolvedUpdate(r.pending.value));
      AnsweredParts(s, key, runId, id, answer);
      PutGrows(s, t, key, t.runs[key]);
    } else {
      SameRunsGrows(s, s);
    }
  }

  lemma CommitGrows(s: State, key: Key, ok: bool, text: string)
    requires key in s.runs && s.runs[key].pc.Saving?
    ensures Grows(s, Commit(s, key, ok, text))
  {
    hide Grows, WithoutSystem;
    var t := Commit(s, key, ok, text);
    assert t.runs == s.runs[key := t.runs[key]];
    PutGrows(s, t, key, t.runs[key]);
  }

  lemma CancelGrows(s: State, key: Key, runId: string)
    ensures Grows(s, Cancel(s, key, runId).0)
  {
    hide Grows;
    var t := Cancel(s, key, runId).0;
    if t == s { SameRunsGrows(s, s); } else { PutGrows(s, t, key, t.runs[key]); }
  }

  lemma FinishGrows(s: State, key: Key)
    requires key in s.runs && s.runs[key].pc.Finishing?
    ensures Grows(s, Finish(s, key))
  {
    hide Retain, FinalSnapshot, Publish;
    PublishOnlyRemoves(s.feeds, key, OutcomeUpdate(s.runs[key].pc.verdict));
    var t := Finish(s, key);
    assert forall k <- s.runs :: k != key ==> k in t.runs && t.runs[k] == s.runs[k];
  }

  lemma AdmitGrows(s: State, key: Key, run: Run)
    requires !s.stopped && key !in s.runs
    ensures Grows(s, Admit(s, key, run))
  {
    hide RunSnapshot, Publish, Drop;
    EvolvesPut(s.runs, key, run, s.log.ended);
    hide RunsEvolve;
  }

  lemma ReserveGrows(s: State, key: Key, incoming: seq<Message>, runId: string, title: string, io: Io)
    ensures Grows(s, Reserve(s, key, incoming, runId, title, io).0)
  {
    hide Grows, Admit, HistoryFrom, MessagesBytes, NewRun;
    var (t, r) := Reserve(s, key, incoming, runId, title, io);
    if r.Ok? {
      var o := s.(stores := OpenStore(s, key.workspace));
      var at := At(s.ephemeral, key);
      var d := if at in o.disk then o else o.(disk := o.disk[at := Record(key.session, title, [])]);
      SameRunsGrows(s, d);
      var run := NewRun(key, runId, d.disk[at], HistoryFrom(d.disk[at].messages) + incoming);
      AdmitGrows(d, key, run);
      GrowsTrans(s, d, Admit(d, key, run));
    } else {
      SameRunsGrows(s, t);
    }
  }

  lemma SubscribeGrows(s: State, key: Key, requestId: string, id: nat, io: Io)
    ensures Grows(s, Subscribe(s, key, requestId, id, io).0)
  {
    hide Grows, AddSub;
    LookupParts(s, key, io);
    LookupConfig(s, key, io);
    hide CurrentSnapshot;
    SameRunsGrows(s, Subscribe(s, key, requestId, id, io).0);
  }

  lemma LookupConfig(s: State, key: Key, io: Io)
    ensures var t := CurrentSnapshot(s, key, io).0;
            t.ephemeral == s.ephemeral && t.lists == s.lists && t.shutdowns == s.shutdowns
  {
    hide RunSnapshot;
  }

  lemma ResnapshotGrows(s: State, id: nat, requestId: string, io: Io)
    ensures Grows(s, Resnapshot(s, id, requestId, io).0)
  {
    hide Grows, Offer;
    if id in s.feeds.registered && id in s.feeds.subs {
      var key := s.feeds.subs[id].key;
      LookupParts(s, key, io);
      LookupConfig(s, key, io);
      var snap := CurrentSnapshot(s, key, io).1;
      if snap.Ok? { OfferOnlyRemoves(s.feeds, id, SnapshotUpdate(requestId, snap.value)); }
    }
    hide CurrentSnapshot;
    SameRunsGrows(s, Resnapshot(s, id, requestId, io).0);
  }

  lemma MutateGrows(s: State, key: Key, m: Mutation, io: Io)
    ensures Grows(s, Mutate(s, key, m, io).0)
  {
    hide Grows, Drop;
    SameRunsGrows(s, Mutate(s, key, m, io).0);
  }

  lemma ShutdownBeginGrows(s: State, caller: nat)
    requires StateInv(s) && caller !in s.shutdowns
    ensures Grows(s, ShutdownBegin(s, caller))
  {
    hide CacheInv, RunsInv, EndsInv, ShutdownInv;
    IdsCancelAll(s.runs, s.log);
    hide IdInv, RunIds;
    assert RunsEvolve(s.runs, CancelAll(s.runs), s.log.ended);
    hide RunsEvolve, CancelAll;
  }

  lemma ReaderGrows(s: State, a: Action)
    requires Enabled(s, a) && (a.DoUnsubscribe? || a.DoReader? || a.DoSnapshot?)
    ensures Grows(s, Perform(s, a))
  {
    hide Grows, CurrentSnapshot, Unsubscribe, ReaderStep;
    if a.DoUnsubscribe? { FeedStepsOnlyRemove(s.feeds, a.sub, true); SameRunsGrows(s, Perform(s, a)); }
    else if a.DoReader? { FeedStepsOnlyRemove(s.feeds, a.sub, a.receive); SameRunsGrows(s, Perform(s, a)); }
    else { LookupParts(s, a.key, a.io); LookupConfig(s, a.key, a.io); SameRunsGrows(s, Perform(s, a)); }
  }

  /** A shutdown caller takes its next step. */
  lemma CallerGrows(s: State, t: State, caller: nat, pc: ShutdownPc)
    requires caller in s.shutdowns && Settles(s.shutdowns[caller], pc)
    requires t == s.(shutdowns := s.shutdowns[caller := pc], feeds := t.feeds, stores := t.stores)
    requires t.feeds.registered <= s.feeds.registered
    ensures Grows(s, t)
  {
    hide Grows;
    SameRunsGrows(s, t);
  }

  lemma ShutdownGrows(s: State, a: Action)
    requires Enabled(s, a) && (a.DoShutdownRun? || a.DoShutdownLists? || a.DoShutdownTimeout? || a.DoShutdownClose?)
    ensures Grows(s, Perform(s, a))
  {
    hide Grows, CloseAll;
    var pc := s.shutdowns[a.caller];
    SameRunsGrows(s, s);
    if a.DoShutdownRun? {
      if a.runId in s.log.ended { CallerGrows(s, Perform(s, a), a.caller, Draining(pc.runs - {a.runId})); }
    } else if a.DoShutdownLists? {
      if pc.Draining? && pc.runs == {} { CallerGrows(s, Perform(s, a), a.caller, Listing); }
      else if pc.Listing? && s.lists == 0 { CallerGrows(s, Perform(s, a), a.caller, Closing); }
    } else if a.DoShutdownTimeout? {
      if pc.Draining? || pc.Listing? { CallerGrows(s, Perform(s, a), a.caller, TimedOut); }
    } else {
      CloseAllEmpties(s.feeds);
      CallerGrows(s, Perform(s, a), a.caller, Drained);
    }
  }

  lemma ListGrows(s: State, a: Action)
    requires Enabled(s, a) && (a.DoListBegin? || a.DoListEnd?)
    ensures Grows(s, Perform(s, a))
  {
    hide Grows;
    SameRunsGrows(s, Perform(s, a));
  }

  lemma RunStepGrows(s: State, a: Action)
    requires StateInv(s) && Enabled(s, a) && IsRunStep(a)
    ensures Grows(s, Perform(s, a))
  {
    hide Grows, StateInv, RunAfter, Evolves, Perform;
    RunStepEvolves(s, a);
    RunAfterSameFace(s, a);
    PutGrows(s, Perform(s, a), a.key, RunAfter(s, a));
  }

  lemma StepGrows(s: State, a: Action)
    requires StateInv(s)
    ensures Grows(s, Step(s, a))
  {
    hide Grows, StateInv, Reserve, Append, Interact, Answered, Commit, Finish, Cancel, Mutate, ShutdownBegin,
      Subscribe, Resnapshot, CurrentSnapshot, ListBegin, ShutdownRun, ShutdownLists, ShutdownTimeout, ShutdownClose;
    if !Enabled(s, a) { SameRunsGrows(s, s); }
    else if a.DoReserve? { ReserveGrows(s, a.key, a.incoming, a.runId, a.title, a.io); }
    else if a.DoEmit? { EmitGrows(s, a.key, Stamped(a.key, s.runs[a.key], a.event)); }
    else if a.DoInteract? { InteractGrows(s, a.key, a.id, a.prompt); }
    else if a.DoReply? { ReplyGrows(s, a.key, a.runId, a.id, a.answer); }
    else if a.DoCommit? { CommitGrows(s, a.key, a.ok, a.text); }
    else if a.DoFinish? { FinishGrows(s, a.key); }
    else if a.DoCancel? { CancelGrows(s, a.key, a.runId); }
    else if a.DoMutate? { MutateGrows(s, a.key, a.mutation, a.io); }
    else if a.DoShutdownBegin? { ShutdownBeginGrows(s, a.caller); }
    else if a.DoSubscribe? { SubscribeGrows(s, a.key, a.requestId, a.sub, a.io); }
    else if a.DoResnapshot? { ResnapshotGrows(s, a.sub, a.requestId, a.io); }
    else if IsRunStep(a) { RunStepGrows(s, a); }
    else if a.DoListBegin? || a.DoListEnd? { ListGrows(s, a); }
    else if a.DoUnsubscribe? || a.DoReader? || a.DoSnapshot? { ReaderGrows(s, a); }
    else { ShutdownGrows(s, a); }
  }

  /** Whatever happens from a reachable state on, the state only grows. */
  lemma {:induction false} ReachGrows(s: State, actions: seq<Action>)
    requires SystemInv(s)
    ensures Grows(s, Reach(s, actions)) && SystemInv(Reach(s, actions))
  {
    hide Grows, StateInv, FeedsInv, Step;
    ReachKeeps(s, actions);
    if actions == [] {
      SameRunsGrows(s, s);
    } else {
      var m := Reach(s, actions[..|actions| - 1]);
      ReachGrows(s, actions[..|actions| - 1]);
      StepGrows(m, actions[|actions| - 1]);
      GrowsTrans(s, m, Step(m, actions[|actions| - 1]));
    }
  }
}
