/** Every step of the coordinator keeps `SystemInv`, and with it every run of the whole engine does. */
module FeedSteps {
  import opened Transcript
  import opened Subscriptions
  import opened Retention
  import opened Service
  import opened Grammar
  import C = CoordinatorSpec
  import opened CoordinatorSpec
  import opened RunInvariants
  import opened StateInvariants
  import opened FeedInvariants

  /** A run shows the same face as long as its id, messages, events and prompt stay. */
  predicate SameFace(a: Run, b: Run) {
    a.id == b.id && a.messages == b.messages && a.events == b.events && a.pending == b.pending
  }

  lemma FaceKeeps(runs: map<Key, Run>, terminal: map<Key, Snapshot>, key: Key, r: Run)
    requires key in runs && SameFace(runs[key], r)
    ensures forall k :: Weaker(ExpectAt(runs[key := r], terminal, k), ExpectAt(runs, terminal, k))
  {
    hide FreshView;
  }

  lemma WithRunFeeds(s: State, key: Key, r: Run)
    requires FeedsInv(s.feeds, s.runs, s.cache.terminal, s.log.ended) && key in s.runs && SameFace(s.runs[key], r)
    ensures FeedsInv(s.feeds, s.runs[key := r], s.cache.terminal, s.log.ended)
  {
    hide FeedsInv, ExpectAt, Weaker;
    FaceKeeps(s.runs, s.cache.terminal, key, r);
    QuietStep(s.feeds, s.runs, s.cache.terminal, s.log.ended, s.runs[key := r], s.cache.terminal);
  }

  /** Publishing for a live run whose face changes from `r` to `r'`. */
  lemma LivePublish(s: State, key: Key, r': Run, u: Update)
    requires FeedsInv(s.feeds, s.runs, s.cache.terminal, s.log.ended) && key in s.runs
    requires Leads(key.session, Expect(RunFeed(s.runs[key]), Some(FreshView(RunSnapshot(key, s.runs[key])))),
                   s.log.ended, u,
                   Expect(RunFeed(r'), Some(FreshView(RunSnapshot(key, r')))), s.log.ended)
    ensures FeedsInv(Publish(s.feeds, key, u), s.runs[key := r'], s.cache.terminal, s.log.ended)
  {
    hide FeedsInv, Leads, FreshView, Publish, RunFeed, RunSnapshot;
    PublishKeeps(s.feeds, key, u, s.runs, s.cache.terminal, s.log.ended, s.runs[key := r'], s.cache.terminal,
                 s.log.ended);
  }

  lemma EmitFeeds(s: State, key: Key, e: Event)
    requires SystemInv(s) && key in s.runs && e.sessionId == key.session && e.runId == s.runs[key].id
    ensures var t := Append(s, key, e); FeedsInv(t.feeds, t.runs, t.cache.terminal, t.log.ended)
  {
    hide FeedsInv, StateInv, Absorb, Publish, Leads;
    var r := s.runs[key];
    if !r.limited {
      if Fits(r, e) {
        var r' := r.(spent := r.spent + EventBytes(e), events := Absorb(r.events, e), raw := r.raw + [e]);
        EventLeads(key, r, r', e, s.log.ended);
        LivePublish(s, key, r', EventUpdate(e));
      } else {
        WithRunFeeds(s, key, r.(limited := true, canceled := true));
      }
    }
  }

  lemma InteractFeeds(s: State, key: Key, id: string, prompt: Prompt)
    requires SystemInv(s) && key in s.runs && s.runs[key].pc.Executing?
    ensures var t := Interact(s, key, id, prompt); FeedsInv(t.feeds, t.runs, t.cache.terminal, t.log.ended)
  {
    hide FeedsInv, StateInv, Publish, Leads;
    var r := s.runs[key];
    if !r.canceled {
      assert r.pending.None? by { RunOf(s, key); }
      var p := Pending(id, key.session, r.id, prompt);
      var r' := r.(phase := Waiting, pending := Some(p), mailbox := None, pc := Blocked(p));
      InteractionLeads(key, r, r', p, s.log.ended);
      LivePublish(s, key, r', InteractionUpdate(p));
    }
  }

  lemma ReplyFeeds(s: State, key: Key, runId: string, id: string, answer: Answer)
    requires SystemInv(s)
    ensures var t := Answered(s, key, runId, id, answer).0; FeedsInv(t.feeds, t.runs, t.cache.terminal, t.log.ended)
  {
    hide FeedsInv, StateInv, Publish, Leads, Resolve, HandOver;
    if Answered(s, key, runId, id, answer).1.Ok? {
      var r := s.runs[key];
      var p := r.pending.value;
      assert p.sessionId == key.session && p.runId == r.id by { RunOf(s, key); }
      var r' := r.(pending := None, phase := Running, mailbox := Some(Reply(id, answer)));
      ResolutionLeads(key, r, r', p, s.log.ended);
      LivePublish(s, key, r', ResolvedUpdate(p));
      AnsweredParts(s, key, runId, id, answer);
    }
  }

  lemma DropWeaker(runs: map<Key, Run>, terminal: map<Key, Snapshot>, key: Key)
    ensures forall k :: Weaker(ExpectAt(runs, terminal - {key}, k), ExpectAt(runs, terminal, k))
  {
    hide FreshView;
  }

  lemma DropFeeds(s: State, key: Key)
    requires FeedsInv(s.feeds, s.runs, s.cache.terminal, s.log.ended)
    ensures FeedsInv(s.feeds, s.runs, Drop(s.cache, key).terminal, s.log.ended)
  {
    hide FeedsInv, ExpectAt, Weaker;
    DropWeaker(s.runs, s.cache.terminal, key);
    QuietStep(s.feeds, s.runs, s.cache.terminal, s.log.ended, s.runs, Drop(s.cache, key).terminal);
  }

  lemma AdmitExpect(runs: map<Key, Run>, terminal: map<Key, Snapshot>, key: Key, r: Run)
    requires key !in runs
    ensures ExpectAt(runs, terminal, key).feed == Quiet
    ensures ExpectAt(runs[key := r], terminal - {key}, key) == Expect(RunFeed(r), Some(FreshView(RunSnapshot(key, r))))
    ensures forall k :: k != key ==> Weaker(ExpectAt(runs[key := r], terminal - {key}, k), ExpectAt(runs, terminal, k))
  {
    hide FreshView;
  }

  lemma AdmitFeeds(s: State, key: Key, r: Run)
    requires FeedsInv(s.feeds, s.runs, s.cache.terminal, s.log.ended) && key !in s.runs && r.id !in s.log.ended
    ensures var t := Admit(s, key, r); FeedsInv(t.feeds, t.runs, t.cache.terminal, t.log.ended)
  {
    hide FeedsInv, ExpectAt, Weaker, Leads, Publish, RunSnapshot, RunFeed, FreshView;
    var u := SnapshotUpdate("", RunSnapshot(key, r));
    AdmitExpect(s.runs, s.cache.terminal, key, r);
    AnnounceLeads(key, r, "", Quiet, s.log.ended);
    var e := ExpectAt(s.runs, s.cache.terminal, key);
    assert Leads(key.session, Expect(Quiet, e.view), s.log.ended, u,
                 Expect(RunFeed(r), Some(FreshView(RunSnapshot(key, r)))), s.log.ended);
    assert e == Expect(Quiet, e.view);
    PublishKeeps(s.feeds, key, u, s.runs, s.cache.terminal, s.log.ended,
                 s.runs[key := r], s.cache.terminal - {key}, s.log.ended);
    AdmitParts(s, key, r);
  }

  lemma AdmitParts(s: State, key: Key, r: Run)
    ensures var t := Admit(s, key, r);
            && t.feeds == Publish(s.feeds, key, SnapshotUpdate("", RunSnapshot(key, r)))
            && t.runs == s.runs[key := r] && t.cache.terminal == s.cache.terminal - {key} && t.log.ended == s.log.ended
  {}

  lemma ReserveFeeds(s: State, key: Key, incoming: seq<Message>, runId: string, title: string, io: Io)
    requires SystemInv(s) && runId !in s.log.used
    ensures var t := Reserve(s, key, incoming, runId, title, io).0;
            FeedsInv(t.feeds, t.runs, t.cache.terminal, t.log.ended)
  {
    hide FeedsInv, CacheInv, RunsInv, EndsInv, ShutdownInv, Admit, HistoryFrom, MessagesBytes;
    var (t, r) := Reserve(s, key, incoming, runId, title, io);
    if r.Ok? {
      var o := s.(stores := OpenStore(s, key.workspace));
      var at := At(s.ephemeral, key);
      var d := if at in o.disk then o else o.(disk := o.disk[at := Record(key.session, title, [])]);
      var run := NewRun(key, runId, d.disk[at], HistoryFrom(d.disk[at].messages) + incoming);
      assert run.id == runId;
      AdmitFeeds(d, key, run);
    }
  }

  lemma FinishExpect(runs: map<Key, Run>, a: map<Key, Snapshot>, b: map<Key, Snapshot>, key: Key, end: Snapshot)
    requires key in runs && b.Keys <= a.Keys + {key} && key in b && b[key] == end
    requires forall k <- b :: k != key ==> b[k] == a[k]
    ensures ExpectAt(runs - {key}, b, key) == Expect(Quiet, if Kept(end) then Some(FreshView(end)) else None)
    ensures forall k :: k != key ==> Weaker(ExpectAt(runs - {key}, b, k), ExpectAt(runs, a, k))
  {
    hide FreshView;
  }

  lemma FinishFeeds(s: State, key: Key)
    requires SystemInv(s) && key in s.runs && s.runs[key].pc.Finishing?
    ensures var t := Finish(s, key); FeedsInv(t.feeds, t.runs, t.cache.terminal, t.log.ended)
  {
    hide FeedsInv, ExpectAt, Weaker, Leads, Publish, RunSnapshot, RunFeed, FreshView, FinalSnapshot, Stripped, Retain,
      CacheInv, RunsInv, EndsInv, ShutdownInv, IdInv, Kept;
    var r := s.runs[key];
    assert r.pc.verdict.sessionId == key.session && r.pc.verdict.runId == r.id by { RunOf(s, key); }
    var end := Stripped(FinalSnapshot(key, r));
    RetainKeeps(s.cache, key, FinalSnapshot(key, r));
    var b := Retain(s.cache, key, FinalSnapshot(key, r)).terminal;
    FinishExpect(s.runs, s.cache.terminal, b, key, end);
    OutcomeLeads(key, r, s.log.ended);
    LiveExpect(s.runs, s.cache.terminal, key);
    PublishKeeps(s.feeds, key, OutcomeUpdate(r.pc.verdict), s.runs, s.cache.terminal, s.log.ended,
                 s.runs - {key}, b, s.log.ended + {r.id});
  }

  lemma LiveExpect(runs: map<Key, Run>, terminal: map<Key, Snapshot>, key: Key)
    requires key in runs
    ensures ExpectAt(runs, terminal, key) == Expect(RunFeed(runs[key]), Some(FreshView(RunSnapshot(key, runs[key]))))
  {}

  lemma CancelAllFeeds(s: State)
    requires FeedsInv(s.feeds, s.runs, s.cache.terminal, s.log.ended)
    ensures FeedsInv(s.feeds, CancelAll(s.runs), s.cache.terminal, s.log.ended)
  {
    hide FeedsInv;
    CancelAllWeaker(s.runs, s.cache.terminal);
    QuietStep(s.feeds, s.runs, s.cache.terminal, s.log.ended, CancelAll(s.runs), s.cache.terminal);
  }

  lemma CancelAllWeaker(runs: map<Key, Run>, terminal: map<Key, Snapshot>)
    ensures forall k :: Weaker(ExpectAt(CancelAll(runs), terminal, k), ExpectAt(runs, terminal, k))
  {
    hide FreshView;
  }

  // ---- Subscribers ----

  /** The snapshot a subscriber is given meets the expectation from any feed it can stand in. */
  lemma CurrentLeads(s: State, key: Key, io: Io, requestId: string, e: Expect)
    requires StateInv(s) && CurrentSnapshot(s, key, io).1.Ok?
    requires e.feed == Unopened || e.feed == ExpectAt(s.runs, s.cache.terminal, key).feed
    ensures Leads(key.session, e, s.log.ended, SnapshotUpdate(requestId, CurrentSnapshot(s, key, io).1.value),
                  ExpectAt(s.runs, s.cache.terminal, key), s.log.ended)
  {
    hide RunInv, EndInv, CacheInv, ShutdownInv, Leads, FreshView, RunSnapshot;
    var u := SnapshotUpdate(requestId, CurrentSnapshot(s, key, io).1.value);
    if key in s.runs {
      AnnounceLeads(key, s.runs[key], requestId, e.feed, s.log.ended);
      assert Leads(key.session, Expect(e.feed, e.view), s.log.ended, u, ExpectAt(s.runs, s.cache.terminal, key),
                   s.log.ended);
    } else {
      var snap := CurrentSnapshot(s, key, io).1.value;
      assert snap.sessionId == key.session && !snap.running by {
        if key in s.cache.terminal { EndShape(key, snap, s.disk, s.ephemeral); }
      }
      IdleLeads(key, snap, requestId, e.feed, s.log.ended);
      assert Leads(key.session, Expect(e.feed, e.view), s.log.ended, u, Expect(Quiet, Some(FreshView(snap))),
                   s.log.ended);
      LeadsWeaker(key.session, e, s.log.ended, u, Expect(Quiet, Some(FreshView(snap))),
                  ExpectAt(s.runs, s.cache.terminal, key), s.log.ended);
    }
  }

  lemma EndShape(key: Key, snap: Snapshot, disk: map<Key, Record>, ephemeral: bool)
    requires EndInv(key, snap, disk, ephemeral)
    ensures snap.sessionId == key.session && !snap.running
  {}

  lemma OfferFeeds(f: Feeds, id: nat, u: Update, runs: map<Key, Run>, terminal: map<Key, Snapshot>, ended: set<string>)
    requires FeedsInv(f, runs, terminal, ended) && id in f.registered
    requires var e := ExpectAt(runs, terminal, f.subs[id].key); Leads(f.subs[id].key.session, e, ended, u, e, ended)
    ensures FeedsInv(Offer(f, id, u).0, runs, terminal, ended)
  {
    hide QueueInv, Follows, Leads, ExpectAt, Enqueued, Legal;
    var (t, ok) := Enqueued(f.subs[id], u);
    if ok {
      PublishedFollows(f, id, u, runs, terminal, ended, runs, terminal, ended);
      FollowsLegal(t, runs, terminal, ended);
      EnqueueAppends(f.subs[id], u);
    }
    EnqueueKeepsQueue(f.subs[id], u);
  }

  lemma AddSubFeeds(f: Feeds, id: nat, key: Key, u: Update, runs: map<Key, Run>, terminal: map<Key, Snapshot>,
                    ended: set<string>)
    requires FeedsInv(f, runs, terminal, ended) && id !in f.subs
    requires Leads(key.session, Expect(Unopened, None), ended, u, ExpectAt(runs, terminal, key), ended)
    ensures FeedsInv(AddSub(f, id, key, u).0, runs, terminal, ended)
  {
    hide QueueInv, Leads, ExpectAt, Enqueued, Follows, Legal;
    var (t, ok) := Enqueued(NewSub(key), u);
    NewSubFollows(key, ended);
    if ok {
      EnqueueAppends(NewSub(key), u);
      FollowsNext(NewSub(key), t, u, Expect(Unopened, None), ended, ExpectAt(runs, terminal, key), ended);
      FollowsLegal(t, runs, terminal, ended);
    }
    EnqueueKeepsQueue(NewSub(key), u);
  }

  lemma NewSubFollows(key: Key, ended: set<string>)
    ensures Follows(NewSub(key), Expect(Unopened, None), ended) && QueueInv(NewSub(key)) && NewSub(key).key == key
  {}

  lemma ReaderKeepsQueue(s: Sub)
    requires QueueInv(s)
    ensures QueueInv(Received(s)) && QueueInv(Settled(s).0)
    ensures Received(s).closed == s.closed && Received(s).key == s.key && Received(s).accepted == s.accepted
    ensures Settled(s).0.closed == s.closed && Settled(s).0.key == s.key && Settled(s).0.accepted == s.accepted
  {
    hide SubInv, Legal;
    ReceiveKeeps(s);
    SettleKeeps(s);
  }

  lemma ReaderFeeds(f: Feeds, id: nat, receive: bool, runs: map<Key, Run>, terminal: map<Key, Snapshot>,
                    ended: set<string>)
    requires FeedsInv(f, runs, terminal, ended)
    ensures FeedsInv(ReaderStep(f, id, receive), runs, terminal, ended)
  {
    hide QueueInv, ExpectAt, Received, Settled, TrackOf, ClientView;
    if id in f.subs { ReaderKeepsQueue(f.subs[id]); }
  }

  lemma UnsubscribeFeeds(f: Feeds, id: nat, runs: map<Key, Run>, terminal: map<Key, Snapshot>, ended: set<string>)
    requires FeedsInv(f, runs, terminal, ended)
    ensures FeedsInv(Unsubscribe(f, id), runs, terminal, ended)
  {
    hide ExpectAt, Follows, QueueInv;
    if id in f.subs { ShutKeeps(f.subs[id]); }
  }

  lemma ShutKeeps(s: Sub)
    requires QueueInv(s)
    ensures QueueInv(Shut(s))
  {}

  lemma CloseAllFeeds(f: Feeds, runs: map<Key, Run>, terminal: map<Key, Snapshot>, ended: set<string>)
    requires FeedsInv(f, runs, terminal, ended)
    ensures FeedsInv(CloseAll(f), runs, terminal, ended)
  {
    hide QueueInv, ExpectAt, Follows;
    var g := CloseAll(f);
    forall i <- g.subs ensures QueueInv(g.subs[i]) && (i in g.registered <==> !g.subs[i].closed) {
      ShutKeeps(f.subs[i]);
    }
  }

  lemma SubscribeFeeds(s: State, key: Key, requestId: string, id: nat, io: Io)
    requires SystemInv(s) && id !in s.feeds.subs
    ensures var t := Subscribe(s, key, requestId, id, io).0; FeedsInv(t.feeds, t.runs, t.cache.terminal, t.log.ended)
  {
    hide FeedsInv, StateInv, ExpectAt, Leads, AddSub;
    LookupParts(s, key, io);
    if !s.stopped && CurrentSnapshot(s, key, io).1.Ok? {
      CurrentLeads(s, key, io, requestId, Expect(Unopened, None));
      AddSubFeeds(s.feeds, id, key, SnapshotUpdate(requestId, CurrentSnapshot(s, key, io).1.value), s.runs,
                  s.cache.terminal, s.log.ended);
    }
    hide CurrentSnapshot;
  }

  lemma LookupParts(s: State, key: Key, io: Io)
    ensures var t := CurrentSnapshot(s, key, io).0;
            t.feeds == s.feeds && t.runs == s.runs && t.cache == s.cache && t.log == s.log && t.stopped == s.stopped
            && t.disk == s.disk
  {
    hide RunSnapshot;
  }

  lemma ResnapshotFeeds(s: State, id: nat, requestId: string, io: Io)
    requires SystemInv(s)
    ensures var t := Resnapshot(s, id, requestId, io).0; FeedsInv(t.feeds, t.runs, t.cache.terminal, t.log.ended)
  {
    hide FeedsInv, StateInv, ExpectAt, Leads, Offer;
    if id in s.feeds.registered && id in s.feeds.subs {
      var key := s.feeds.subs[id].key;
      LookupParts(s, key, io);
      if CurrentSnapshot(s, key, io).1.Ok? {
        CurrentLeads(s, key, io, requestId, ExpectAt(s.runs, s.cache.terminal, key));
        OfferFeeds(s.feeds, id, SnapshotUpdate(requestId, CurrentSnapshot(s, key, io).1.value), s.runs,
                   s.cache.terminal, s.log.ended);
      }
    }
    hide CurrentSnapshot;
  }

  lemma MutateFeeds(s: State, key: Key, m: Mutation, io: Io)
    requires SystemInv(s)
    ensures var t := Mutate(s, key, m, io).0; FeedsInv(t.feeds, t.runs, t.cache.terminal, t.log.ended)
  {
    hide FeedsInv, StateInv, Drop;
    DropFeeds(s, key);
  }

  lemma CommitParts(s: State, key: Key, ok: bool, text: string)
    requires key in s.runs && s.runs[key].pc.Saving?
    ensures var t := Commit(s, key, ok, text);
            && t.feeds == s.feeds && t.cache == s.cache && t.log == s.log
            && SameFace(s.runs[key], t.runs[key]) && t.runs == s.runs[key := t.runs[key]]
  {
    hide WithoutSystem;
  }

  // ---- The whole engine ----

  lemma ShutdownParts(s: State, a: C.Action)
    requires Enabled(s, a) && (a.DoShutdownRun? || a.DoShutdownLists? || a.DoShutdownTimeout? || a.DoListBegin?
                               || a.DoListEnd? || a.DoSnapshot?)
    ensures var t := Perform(s, a); t.feeds == s.feeds && t.runs == s.runs && t.cache == s.cache && t.log == s.log
  {
    hide CurrentSnapshot;
    if a.DoSnapshot? { LookupParts(s, a.key, a.io); }
    else if a.DoShutdownRun? { } else if a.DoShutdownLists? { } else if a.DoShutdownTimeout? { }
    else if a.DoListBegin? { } else { }
  }

  lemma StepKeepsFeeds(s: State, a: C.Action)
    requires SystemInv(s) && Enabled(s, a)
    ensures var t := Perform(s, a); FeedsInv(t.feeds, t.runs, t.cache.terminal, t.log.ended)
  {
    hide SystemInv, FeedsInv, StateInv, Reserve, Append, Interact, Answered, Commit, Finish, Mutate, CancelAll,
      Subscribe, Resnapshot, CurrentSnapshot, ListBegin, ShutdownRun, ShutdownLists, ShutdownTimeout, CloseAll,
      Unsubscribe, ReaderStep;
    Parts(s);
    if a.DoReserve? { ReserveFeeds(s, a.key, a.incoming, a.runId, a.title, a.io); }
    else if a.DoEmit? { EmitFeeds(s, a.key, Stamped(a.key, s.runs[a.key], a.event)); }
    else if a.DoInteract? { InteractFeeds(s, a.key, a.id, a.prompt); }
    else if a.DoReply? { ReplyFeeds(s, a.key, a.runId, a.id, a.answer); }
    else if a.DoCommit? {
      CommitParts(s, a.key, a.ok, a.text);
      WithRunFeeds(s, a.key, Commit(s, a.key, a.ok, a.text).runs[a.key]);
    }
    else if a.DoFinish? { FinishFeeds(s, a.key); }
    else if a.DoCancel? {
      if Cancel(s, a.key, a.runId).0 != s { WithRunFeeds(s, a.key, s.runs[a.key].(canceled := true)); }
    }
    else if a.DoMutate? { MutateFeeds(s, a.key, a.mutation, a.io); }
    else if a.DoShutdownBegin? { CancelAllFeeds(s); }
    else if a.DoShutdownClose? { CloseAllFeeds(s.feeds, s.runs, s.cache.terminal, s.log.ended); }
    else if a.DoSubscribe? { SubscribeFeeds(s, a.key, a.requestId, a.sub, a.io); }
    else if a.DoResnapshot? { ResnapshotFeeds(s, a.sub, a.requestId, a.io); }
    else if a.DoUnsubscribe? { UnsubscribeFeeds(s.feeds, a.sub, s.runs, s.cache.terminal, s.log.ended); }
    else if a.DoReader? { ReaderFeeds(s.feeds, a.sub, a.receive, s.runs, s.cache.terminal, s.log.ended); }
    else if IsRunStep(a) { RunStepFeeds(s, a); }
    else { ShutdownParts(s, a); }
  }

  lemma Parts(s: State)
    requires SystemInv(s)
    ensures StateInv(s) && FeedsInv(s.feeds, s.runs, s.cache.terminal, s.log.ended)
  {}

  lemma RunStepFeeds(s: State, a: C.Action)
    requires SystemInv(s) && Enabled(s, a) && IsRunStep(a)
    ensures var t := Perform(s, a); FeedsInv(t.feeds, t.runs, t.cache.terminal, t.log.ended)
  {
    hide FeedsInv, StateInv, Perform, RunAfter;
    RunAfterSameFace(s, a);
    WithRunFeeds(s, a.key, RunAfter(s, a));
  }

  lemma StepKeepsSystem(s: State, a: C.Action)
    requires SystemInv(s)
    ensures SystemInv(Step(s, a))
  {
    hide FeedsInv, StateInv, Perform, Enabled;
    if Enabled(s, a) {
      StepKeepsState(s, a);
      StepKeepsFeeds(s, a);
    }
  }

  /** `SystemInv` holds after every interleaving of every operation. */
  lemma {:induction false} Reachable(ephemeral: bool, actions: seq<C.Action>)
    ensures SystemInv(Reach(Initial(ephemeral), actions))
  {
    if actions == [] {
      InitialHolds(ephemeral);
    } else {
      hide SystemInv, Step;
      Reachable(ephemeral, actions[..|actions| - 1]);
      StepKeepsSystem(Reach(Initial(ephemeral), actions[..|actions| - 1]), actions[|actions| - 1]);
    }
  }

  lemma {:induction false} ReachKeeps(s: State, actions: seq<C.Action>)
    requires SystemInv(s)
    ensures SystemInv(Reach(s, actions))
  {
    if actions != [] {
      hide SystemInv, Step;
      ReachKeeps(s, actions[..|actions| - 1]);
      StepKeepsSystem(Reach(s, actions[..|actions| - 1]), actions[|actions| - 1]);
    }
  }
}
