/** What every call on the coordinator and every step of a run brings about, said of the states it leads from
    and to: which answer it gives in every case, what it changes and what it leaves alone. */
module Effects {
  import opened Transcript
  import opened Subscriptions
  import opened Retention
  import opened Service
  import opened CoordinatorSpec
  import opened RunInvariants
  import opened StateInvariants
  import opened FeedInvariants
  import opened Progress
  import opened Guarantees

  // ---- How a run ends ----

  /** Each outcome means what it says, and exactly one is given: the limit comes first, a save that failed is
      told from everything else, a cancel counts up to the commit, and a success is what is left. */
  lemma OutcomeMeans(ephemeral: bool, s: State, key: Key)
    requires Occurs(ephemeral, s)
    requires key in s.runs && s.runs[key].pc.Judging?
    ensures var r := s.runs[key];
            var o := Judge(key, r, ephemeral).pc.verdict;
            && o.sessionId == key.session && o.runId == r.id
            && (o.status.Canceled? <==> r.canceled && !r.limited && !r.phase.Persisting?)
            && (o.status.Canceled? ==> o.code == "canceled" && o.error == "run canceled")
            && (o.status.PersistenceFailed? <==> r.phase.Persisting? && r.pc.err.SaveError?)
            && (o.status.PersistenceFailed? ==> o.code == "persistence_failed" && o.error == r.pc.err.text)
            && (o.status.Failed? <==> r.limited || (!r.canceled && r.pc.err.OtherError?))
            && (o.status.Failed? && r.limited ==>
                  o.code == "projection_limit" && o.error == "run projection exceeded 4 MiB; start a shorter turn")
            && (o.status.Failed? && !r.limited ==> o.code == "execution_failed" && o.error == r.pc.err.text)
            && (o.status.Succeeded? <==> r.pc.err.NoError? && !r.limited && (r.phase.Persisting? || !r.canceled))
            && (o.status.Succeeded? ==> o.code == "" && o.error == "" && r.pc.produced.Some?)
            && (o.persisted <==> o.status.Succeeded? && !ephemeral)
  {
    hide Occurs, FeedsInv, StateInv;
    OccursHolds(ephemeral, s);
    RunControl(s, key);
  }

  /** What is kept of a run that ends: its outcome, and either everything it leaves, which after a success or a
      failed save are the messages it produced and otherwise its projection, or, when that is too large, the
      notice that it is gone. */
  lemma EndMeans(ephemeral: bool, s: State, key: Key)
    requires Occurs(ephemeral, s)
    requires key in s.runs && s.runs[key].pc.Finishing?
    ensures var r := s.runs[key];
            var o := r.pc.verdict;
            var done := o.status.Succeeded? || o.status.PersistenceFailed?;
            var whole := Snapshot(key.session, r.id, false,
                                  Some(if done then WithoutSystem(r.pc.produced.GetOr([])) else r.messages),
                                  if done then [] else r.events, None, Some(o), !o.status.Succeeded?, false);
            var t := Finish(s, key);
            && t.runs == s.runs - {key} && key in t.cache.terminal
            && t.cache.terminal[key] ==
               if SnapshotBytes(whole) <= 4 * 1024 * 1024 then whole
               else whole.(messages := None, events := [], unsavedAvailable := false, projectionUnavailable := true)
  {
    hide Occurs, SystemInv, Publish, Retain, SnapshotBytes, WithoutSystem;
    OccursHolds(ephemeral, s);
    SystemCache(s);
    RetainKeeps(s.cache, key, FinalSnapshot(key, s.runs[key]));
    OutcomeIsTruthful(ephemeral, s, key);
  }

  // ---- Events ----

  /** An event is published, under its run's session and id, exactly while the budget holds it; the first one
      that it does not hold cancels the run, and after that one nothing happens. */
  lemma EmitMeans(s: State, key: Key, e: Event)
    requires key in s.runs
    ensures var t := Append(s, key, Stamped(key, s.runs[key], e));
            var r := s.runs[key];
            var stamped := e.(sessionId := key.session, runId := r.id);
            && (r.limited ==> t == s)
            && (!r.limited && r.spent + EventBytes(stamped) > 4 * 1024 * 1024 ==>
                  t == s.(runs := s.runs[key := r.(limited := true, canceled := true)]))
            && (!r.limited && r.spent + EventBytes(stamped) <= 4 * 1024 * 1024 ==>
                  && key in t.runs && t.runs[key].raw == r.raw + [stamped]
                  && t.runs == s.runs[key := r.(raw := t.runs[key].raw, events := t.runs[key].events,
                                                spent := t.runs[key].spent)])
  {
    hide Publish, EventBytes, Absorb;
  }

  // ---- Questions and answers ----

  /** An answer to what was asked: of its kind, and for a question one of the options or, as -1, words of
      one's own. */
  predicate Answers(answer: Answer, prompt: Prompt) {
    match prompt
    case Permission(_, _, _, _) => answer.PermissionAnswer?
    case Ask(_, options) => answer.AskAnswer? && (answer.selected == -1 || 0 <= answer.selected < |options|)
  }

  /** While a run waits, its open question is answered by the first reply that names it and answers it, and by
      no other: that reply is accepted, and the waiter finds it and goes on. A reply that names another run,
      session or interaction, or is of the other kind, or comes after a cancel, is stale; one that names it but
      picks no option is a bad selection; and neither changes anything. */
  lemma ReplyMeans(ephemeral: bool, s: State, key: Key, runId: string, id: string, answer: Answer)
    requires Occurs(ephemeral, s)
    ensures var (t, r) := Answered(s, key, runId, id, answer);
            var open := key in s.runs && s.runs[key].id == runId && !s.runs[key].canceled
                        && s.runs[key].pending.Some? && s.runs[key].pending.value.id == id;
            && (r.Ok? <==> open && Answers(answer, s.runs[key].pending.value.prompt))
            && (r == Err(BadSelection) <==>
                  open && answer.AskAnswer? && s.runs[key].pending.value.prompt.Ask?
                  && !Answers(answer, s.runs[key].pending.value.prompt))
            && (r.Err? ==> t == s && (r.error.BadSelection? || r.error.StaleInteraction?))
            && (r.Ok? ==>
                  && t.runs == s.runs[key := s.runs[key].(pending := None, phase := Running,
                                                          mailbox := Some(Reply(id, answer)))]
                  && (t.disk, t.cache, t.stores, t.lists, t.shutdowns, t.stopped)
                     == (s.disk, s.cache, s.stores, s.lists, s.shutdowns, s.stopped)
                  && Step(t, DoWake(key, false)).runs == t.runs[key := t.runs[key].(mailbox := None, pc := Executing)])
  {
    hide Occurs, FeedsInv, StateInv, Publish;
    OccursHolds(ephemeral, s);
    if key in s.runs { RunControl(s, key); }
  }

  /** A question is asked of everybody at once, or of nobody when the run is canceled already. */
  lemma QuestionMeans(s: State, key: Key, id: string, prompt: Prompt)
    requires key in s.runs && s.runs[key].pc.Executing?
    ensures var t := Interact(s, key, id, prompt);
            var p := Pending(id, key.session, s.runs[key].id, prompt);
            if s.runs[key].canceled then t == s
            else t.runs == s.runs[key := s.runs[key].(phase := Waiting, pending := Some(p), mailbox := None,
                                                      pc := Blocked(p))]
  {
  }

  // ---- Cancelling ----

  /** A cancel reaches exactly the run it names, and that run unless it is persisting; nothing else changes,
      and a cancel that names no active run changes nothing. */
  lemma CancelMeans(s: State, key: Key, runId: string)
    ensures var (t, r) := Cancel(s, key, runId);
            && (r.Ok? <==> key in s.runs && runId != "" && s.runs[key].id == runId)
            && (r.Err? ==> r.error.RunNotFound? && t == s)
            && (r.Ok? ==>
                  && t.runs.Keys == s.runs.Keys
                  && (t.runs[key].canceled <==> s.runs[key].canceled || !s.runs[key].phase.Persisting?)
                  && t == s.(runs := s.runs[key := s.runs[key].(canceled := t.runs[key].canceled)]))
  {
    if key in s.runs { assert s.runs[key := s.runs[key]] == s.runs; }
  }

  /** From the call on: a run that is canceled before it persists never saves, in any continuation, keeps its
      stored record as it is, and is judged canceled unless it broke its budget. */
  lemma AcceptedCancelStops(ephemeral: bool, s: State, key: Key, runId: string, t: State)
    requires Occurs(ephemeral, s) && Cancel(s, key, runId).1.Ok? && !s.runs[key].phase.Persisting?
    requires Later(Cancel(s, key, runId).0, t) && Active(t, key, runId)
    ensures var r := t.runs[key];
            && r.canceled && !r.phase.Persisting? && !r.pc.Saving?
            && (!ephemeral ==> key in s.disk && key in t.disk && t.disk[key] == s.disk[key])
            && (r.pc.Judging? && !r.limited ==> Judge(key, r, ephemeral).pc.verdict.status.Canceled?)
            && (r.pc.Finishing? ==> !r.pc.verdict.persisted)
  {
    hide Occurs, Later, Cancel, SystemInv, Judge, Publish;
    var u := Cancel(s, key, runId).0;
    CancelMeans(s, key, runId);
    OneStep(s, DoCancel(key, runId));
    OccursOn(ephemeral, s, [DoCancel(key, runId)]);
    assert u == Reach(s, [DoCancel(key, runId)]) by { CancelIsStep(s, key, runId); }
    CanceledRunNeverSaves(ephemeral, u, t, key);
    OccursHolds(ephemeral, s);
    UncommittedOnDisk(s, key);
    LaterOccurs(ephemeral, u, t);
    if t.runs[key].pc.Judging? { OutcomeMeans(ephemeral, t, key); }
  }

  lemma CancelIsStep(s: State, key: Key, runId: string)
    ensures Cancel(s, key, runId).0 == Step(s, DoCancel(key, runId))
  {
    hide Cancel;
  }

  lemma LaterOccurs(ephemeral: bool, s: State, t: State)
    requires Occurs(ephemeral, s) && Later(s, t)
    ensures Occurs(ephemeral, t)
  {
    hide Occurs;
    var actions :| Reach(s, actions) == t;
    OccursOn(ephemeral, s, actions);
  }

  // ---- Who is told what ----

  predicate HasRoom(s: Sub, u: Update) {
    s.bytes + UpdateBytes(u) <= 16 * 1024 * 1024 && |s.queue| < 128
  }

  /** What a step has to say to the subscribers of the session it concerns. */
  function News(s: State, a: Action): Option<Update>
    requires Enabled(s, a)
  {
    match a
    case DoReserve(key, incoming, runId, title, io) =>
      if Reserve(s, key, incoming, runId, title, io).1.Err? then None
      else
        var messages := HistoryFrom(StoredMessages(s, key)) + incoming;
        Some(SnapshotUpdate("", Snapshot(key.session, runId, true, Some(messages), [], None, None, false, false)))
    case DoEmit(key, e) =>
      var r := s.runs[key];
      var stamped := e.(sessionId := key.session, runId := r.id);
      if r.limited || r.spent + EventBytes(stamped) > MAX_PROJECTION_BYTES then None else Some(EventUpdate(stamped))
    case DoInteract(key, id, prompt) =>
      if s.runs[key].canceled then None
      else Some(InteractionUpdate(Pending(id, key.session, s.runs[key].id, prompt)))
    case DoReply(key, runId, id, answer) =>
      if Answered(s, key, runId, id, answer).1.Err? then None else Some(ResolvedUpdate(s.runs[key].pending.value))
    case DoFinish(key) => Some(OutcomeUpdate(s.runs[key].pc.verdict))
    case _ => None
  }

  /** What a step has to say to one subscriber: the news of its session, or the snapshot it asked for. */
  function NewsFor(s: State, a: Action, i: nat): Option<Update>
    requires Enabled(s, a) && i in s.feeds.subs
  {
    if a.DoResnapshot? && a.sub == i then
      var snap := CurrentSnapshot(s, s.feeds.subs[i].key, a.io).1;
      if snap.Err? then None else Some(SnapshotUpdate(a.requestId, snap.value))
    else if News(s, a).Some? && a.key == s.feeds.subs[i].key then News(s, a)
    else None
  }

  predicate Closes(a: Action, i: nat) { (a.DoUnsubscribe? && a.sub == i) || a.DoShutdownClose? }

  /** The subscriber after it was given an update, or nothing. */
  ghost predicate Takes(f: Feeds, g: Feeds, i: nat, news: Option<Update>)
    requires i in f.subs
  {
    && i in g.subs && g.subs[i].key == f.subs[i].key
    && match news
       case None => i in g.registered && g.subs[i].accepted == f.subs[i].accepted
       case Some(u) =>
         if HasRoom(f.subs[i], u) then i in g.registered && g.subs[i].accepted == f.subs[i].accepted + [u]
         else i !in g.registered && g.subs[i].accepted == f.subs[i].accepted
  }

  lemma PublishTakes(f: Feeds, key: Key, u: Update, i: nat)
    requires i in f.subs && i in f.registered && !f.subs[i].closed && |f.subs[i].queue| <= QUEUE_CAPACITY
    ensures Takes(f, Publish(f, key, u), i, if f.subs[i].key == key then Some(u) else None)
  {
    hide UpdateBytes;
  }

  lemma OfferTakes(f: Feeds, u: Update, i: nat)
    requires i in f.subs && i in f.registered && !f.subs[i].closed && |f.subs[i].queue| <= QUEUE_CAPACITY
    ensures Takes(f, Offer(f, i, u).0, i, Some(u))
  {
    hide UpdateBytes;
  }

  lemma RegisteredIsOpen(s: State, i: nat)
    requires SystemInv(s) && i in s.feeds.registered
    ensures i in s.feeds.subs && !s.feeds.subs[i].closed && |s.feeds.subs[i].queue| <= QUEUE_CAPACITY
    ensures s.feeds.registered <= s.feeds.subs.Keys
  {
    hide StateInv, Follows;
  }

  predicate Speaks(a: Action) { a.DoReserve? || a.DoEmit? || a.DoInteract? || a.DoReply? || a.DoFinish? }

  lemma NewsIsPublished(s: State, a: Action)
    requires Enabled(s, a) && Speaks(a)
    ensures Perform(s, a).feeds == if News(s, a).None? then s.feeds else Publish(s.feeds, a.key, News(s, a).value)
  {
    hide Publish, Retain, Drop, MessagesBytes, EventBytes, Absorb, FinalSnapshot;
    assert HistoryFrom([]) == [];
    hide HistoryFrom;
    if a.DoReserve? {} else if a.DoEmit? {} else if a.DoInteract? {} else if a.DoReply? {} else {}
  }

  lemma OthersKeepFeeds(s: State, a: Action)
    requires Enabled(s, a) && !Speaks(a) && !a.DoResnapshot? && !a.DoUnsubscribe? && !a.DoShutdownClose?
    requires !a.DoSubscribe? && !a.DoReader?
    ensures Perform(s, a).feeds == s.feeds
  {
    hide CurrentSnapshot, CancelAll, RunIds, Drop, WithoutSystem, Mutate, Cancel, At;
    if a.DoSnapshot? { LookupKeepsFeeds(s, a.key, a.io); }
    else if a.DoMutate? { MutateKeepsFeeds(s, a.key, a.mutation, a.io); }
    else if a.DoCancel? { CancelMeans(s, a.key, a.runId); }
    else if IsRunStep(a) {}
    else if a.DoShutdownRun? || a.DoShutdownLists? || a.DoShutdownTimeout? {}
    else {}
  }

  lemma MutateKeepsFeeds(s: State, key: Key, m: Mutation, io: Io)
    ensures Mutate(s, key, m, io).0.feeds == s.feeds
  {
    hide Drop;
  }

  /** Every subscriber there was is still there, with what it was told and, if it was, registered. */
  predicate Undisturbed(f: Feeds, g: Feeds) {
    && (forall i <- f.subs :: i in g.subs && g.subs[i].key == f.subs[i].key && g.subs[i].accepted == f.subs[i].accepted)
    && f.registered <= g.registered
  }

  lemma SubscribeDisturbsNone(s: State, key: Key, requestId: string, id: nat, io: Io)
    requires id !in s.feeds.subs
    ensures Undisturbed(s.feeds, Subscribe(s, key, requestId, id, io).0.feeds)
  {
    hide CurrentSnapshot, Enqueued;
    LookupKeepsFeeds(s, key, io);
  }

  lemma ReadingDisturbsNone(f: Feeds, id: nat, receive: bool)
    ensures Undisturbed(f, ReaderStep(f, id, receive))
  {
  }

  lemma SubscribeOrRead(s: State, a: Action)
    requires Enabled(s, a) && (a.DoSubscribe? || a.DoReader?)
    ensures Undisturbed(s.feeds, Perform(s, a).feeds)
  {
    hide Subscribe, ReaderStep, Undisturbed;
    if a.DoSubscribe? { SubscribeDisturbsNone(s, a.key, a.requestId, a.sub, a.io); }
    else { ReadingDisturbsNone(s.feeds, a.sub, a.receive); }
  }

  lemma OthersAreSilent(s: State, a: Action)
    requires Enabled(s, a) && !Speaks(a) && !a.DoResnapshot? && !a.DoUnsubscribe? && !a.DoShutdownClose?
    ensures Undisturbed(s.feeds, Perform(s, a).feeds)
  {
    hide Perform, Enabled;
    if a.DoSubscribe? || a.DoReader? { SubscribeOrRead(s, a); } else { OthersKeepFeeds(s, a); }
  }

  lemma LookupKeepsFeeds(s: State, key: Key, io: Io)
    ensures CurrentSnapshot(s, key, io).0.feeds == s.feeds
  {
    hide RunSnapshot, StoredMessages;
  }

  lemma ResnapshotTells(s: State, a: Action, i: nat)
    requires a.DoResnapshot? && Enabled(s, a) && i in s.feeds.subs && i in s.feeds.registered
    requires s.feeds.registered <= s.feeds.subs.Keys
    requires !s.feeds.subs[i].closed && |s.feeds.subs[i].queue| <= QUEUE_CAPACITY
    ensures Takes(s.feeds, Perform(s, a).feeds, i, NewsFor(s, a, i))
  {
    hide CurrentSnapshot, Offer, HasRoom;
    if a.sub in s.feeds.registered {
      LookupKeepsFeeds(s, s.feeds.subs[a.sub].key, a.io);
      var snap := CurrentSnapshot(s, s.feeds.subs[a.sub].key, a.io).1;
      if snap.Ok? {
        if a.sub == i { OfferTakes(s.feeds, SnapshotUpdate(a.requestId, snap.value), i); }
        else { OfferKeepsOthers(s.feeds, SnapshotUpdate(a.requestId, snap.value), a.sub, i); }
      }
    }
  }

  /** Every subscriber is told exactly the news of its session and the snapshots it asked for, in the step that
      makes them and once; it is dropped only when they do not fit into its queue, when it is closed, or when
      the engine closes. */
  lemma DeliveryIsExact(ephemeral: bool, s: State, a: Action, i: nat)
    requires Occurs(ephemeral, s) && Enabled(s, a) && i in s.feeds.registered
    ensures i in s.feeds.subs && i in Step(s, a).feeds.subs
    ensures var f, g := s.feeds, Step(s, a).feeds;
            && g.subs[i].key == f.subs[i].key
            && (if Closes(a, i) then i !in g.registered && g.subs[i].accepted == f.subs[i].accepted
                else Takes(f, g, i, NewsFor(s, a, i)))
  {
    hide Occurs, SystemInv, Perform, Enabled, News, Publish, HasRoom;
    OccursHolds(ephemeral, s);
    RegisteredIsOpen(s, i);
    if Speaks(a) {
      NewsIsPublished(s, a);
      if News(s, a).Some? { PublishTakes(s.feeds, a.key, News(s, a).value, i); }
    } else if a.DoResnapshot? {
      ResnapshotTells(s, a, i);
    } else if a.DoUnsubscribe? || a.DoShutdownClose? {
      ClosingTells(s, a, i);
      NoNews(s, a);
    } else {
      OthersAreSilent(s, a);
      NoNews(s, a);
    }
  }

  lemma NoNews(s: State, a: Action)
    requires Enabled(s, a) && !Speaks(a)
    ensures News(s, a).None?
  {
  }

  lemma OfferKeepsOthers(f: Feeds, u: Update, j: nat, i: nat)
    requires i in f.subs && j in f.subs && i != j && i in f.registered
    ensures Takes(f, Offer(f, j, u).0, i, None)
  {
    hide UpdateBytes;
  }

  lemma ClosingTells(s: State, a: Action, i: nat)
    requires Enabled(s, a) && (a.DoUnsubscribe? || a.DoShutdownClose?) && i in s.feeds.subs && i in s.feeds.registered
    ensures var f, g := s.feeds, Perform(s, a).feeds;
            && i in g.subs && g.subs[i].key == f.subs[i].key
            && (if Closes(a, i) then i !in g.registered && g.subs[i].accepted == f.subs[i].accepted
                else Takes(f, g, i, None))
  {
    hide HasRoom;
  }

  // ---- Reading, subscribing ----

  /** A session's snapshot is its active run, as it is, or else what is kept of its last run, or else what is
      stored; only the last can fail, and then for the stated reason. */
  lemma SnapshotMeans(s: State, key: Key, io: Io)
    ensures var (t, r) := CurrentSnapshot(s, key, io);
            && t == s.(stores := t.stores) && s.stores <= t.stores <= s.stores + {key.workspace}
            && (key in s.runs ==> r.Ok? && var run := s.runs[key];
                  r.value == Snapshot(key.session, run.id, true, Some(run.messages), run.events, run.pending, None,
                                      false, false))
            && (key !in s.runs && key in s.cache.terminal ==> r == Ok(s.cache.terminal[key]))
            && (key !in s.runs && key !in s.cache.terminal ==>
                  && t.stores == s.stores + (if s.ephemeral then {} else {key.workspace})
                  && (r.Ok? <==> io.leaseOk && key.session != "" && io.loadOk)
                  && (r.Ok? ==> var messages := StoredMessages(s, key);
                        r.value == Snapshot(key.session, "", false, Some(messages), [], None, None, false, false))
                  && (r == Err(LeaseDenied) <==> !io.leaseOk)
                  && (r == Err(BadSession) <==> io.leaseOk && key.session == "")
                  && (r == Err(LoadFailed) <==> io.leaseOk && key.session != "" && !io.loadOk))
  {
    assert s.stores + {} == s.stores;
  }

  /** A subscription is made unless the engine is stopped, the session cannot be read or its snapshot does not
      fit; it starts with that snapshot, named after the request, and disturbs no other. */
  lemma SubscribeMeans(s: State, key: Key, requestId: string, id: nat, io: Io)
    requires id !in s.feeds.subs && id !in s.feeds.registered
    ensures var (t, r) := Subscribe(s, key, requestId, id, io);
            var now := CurrentSnapshot(s, key, io).1;
            && t == s.(stores := t.stores, feeds := t.feeds)
            && (r == Err(EngineStopped) <==> s.stopped)
            && (!s.stopped && now.Err? ==> r == Err(now.error) && t.feeds == s.feeds)
            && (!s.stopped && now.Ok? ==>
                  var u := SnapshotUpdate(requestId, now.value);
                  && (r.Ok? <==> UpdateBytes(u) <= MAX_SUBSCRIPTION_BYTES)
                  && (r.Err? ==> r.error.SlowQueue? && t.feeds.registered == s.feeds.registered)
                  && (r.Ok? ==>
                        && r.value == id && t.feeds.registered == s.feeds.registered + {id}
                        && t.feeds.subs.Keys == s.feeds.subs.Keys + {id}
                        && t.feeds.subs[id].key == key && t.feeds.subs[id].accepted == [u]
                        && t.feeds.subs[id].delivered == []
                        && forall i <- s.feeds.subs :: t.feeds.subs[i] == s.feeds.subs[i]))
  {
    hide UpdateBytes;
    SnapshotMeans(s, key, io);
    hide CurrentSnapshot;
  }

  // ---- Reservation ----

  /** A turn is accepted exactly when it says something, the engine runs, the session has no active run, its
      store is owned and can be read (or, for a new session, written), and the history fits the budget. The new
      run starts from that history and the new messages, under its own id, with nothing said or asked yet; its
      record is the stored one, or a new empty one; the session's last end goes; nothing else changes. */
  lemma ReserveMeans(s: State, key: Key, incoming: seq<Message>, runId: string, title: string, io: Io)
    ensures var (t, r) := Reserve(s, key, incoming, runId, title, io);
            var known := RecordAt(s, key);
            var record := known.GetOr(Record(key.session, title, []));
            var messages := HistoryFrom(StoredMessages(s, key)) + incoming;
            && (r.Ok? <==> incoming != [] && !s.stopped && key !in s.runs && io.leaseOk && io.loadOk
                           && (known.Some? || io.writeOk) && MessagesBytes(messages) <= 4 * 1024 * 1024)
            && (r.Ok? ==>
                  && r.value == runId && key in t.runs && t.runs.Keys == s.runs.Keys + {key}
                  && (forall k <- s.runs :: t.runs[k] == s.runs[k])
                  && (var run := t.runs[key];
                      && run.id == runId && run.messages == messages && run.record == record
                      && run.events == run.raw == [] && run.pending.None? && run.mailbox.None?
                      && run.phase.Preparing? && run.pc.Claimed? && !run.canceled && !run.limited)
                  && t.cache.terminal == s.cache.terminal - {key}
                  && t.disk == s.disk[At(s.ephemeral, key) := record]
                  && (t.lists, t.shutdowns, t.stopped) == (s.lists, s.shutdowns, s.stopped)
                  && t.stores == s.stores + if s.ephemeral then {} else {key.workspace})
  {
    hide Publish, MessagesBytes, RunSnapshot;
    assert s.stores + {} == s.stores;
    assert HistoryFrom([]) == [];
    hide HistoryFrom;
    var at := At(s.ephemeral, key);
    if at in s.disk { assert s.disk[at := s.disk[at]] == s.disk; }
  }

  /** A turn that is refused is refused for the first of these reasons that there is. */
  lemma RefusalMeans(s: State, key: Key, incoming: seq<Message>, runId: string, title: string, io: Io)
    ensures var r := Reserve(s, key, incoming, runId, title, io).1;
            var known := RecordAt(s, key);
            var messages := HistoryFrom(StoredMessages(s, key)) + incoming;
            && (incoming == [] ==> r == Err(EmptyChat))
            && (incoming != [] && s.stopped ==> r == Err(EngineStopped))
            && (incoming != [] && !s.stopped && key in s.runs ==> r == Err(SessionBusy))
            && (incoming != [] && !s.stopped && key !in s.runs ==>
                  && (!io.leaseOk ==> r == Err(LeaseDenied))
                  && (io.leaseOk && !io.loadOk ==> r == Err(LoadFailed))
                  && (io.leaseOk && io.loadOk && known.None? && !io.writeOk ==> r == Err(SaveFailed)))
            && (r == Err(ProjectionLimit) <==>
                  incoming != [] && !s.stopped && key !in s.runs && io.leaseOk && io.loadOk
                  && (known.Some? || io.writeOk) && MessagesBytes(messages) > 4 * 1024 * 1024)
  {
    hide Admit, MessagesBytes;
    assert HistoryFrom([]) == [];
    hide HistoryFrom;
  }

  // ---- Store mutations ----

  /** A mutation is accepted exactly when the engine runs, the session is idle and its store is owned and takes
      it; then the session is as asked for, a created or deleted one loses its last end, and no other address
      and no other end changes. */
  lemma MutateMeans(s: State, key: Key, m: Mutation, io: Io)
    ensures var (t, r) := Mutate(s, key, m, io);
            var known := RecordAt(s, key);
            && (r.Ok? <==> !s.stopped && key !in s.runs && io.leaseOk && key.session != "" && io.writeOk
                           && (m.Rename? ==> io.loadOk && known.Some?))
            && (s.stopped ==> r == Err(EngineStopped))
            && (!s.stopped && key in s.runs ==> r == Err(SessionBusy))
            && (!s.stopped && key !in s.runs ==>
                  && (!io.leaseOk ==> r == Err(LeaseDenied))
                  && (io.leaseOk && key.session == "" ==> r == Err(BadSession))
                  && (io.leaseOk && key.session != "" && m.Rename? && !io.loadOk ==> r == Err(LoadFailed))
                  && (io.leaseOk && key.session != "" && (!m.Rename? || (io.loadOk && known.Some?)) && !io.writeOk ==>
                        r == Err(SaveFailed)))
            && (r == Err(NotFound) <==>
                  !s.stopped && key !in s.runs && io.leaseOk && key.session != ""
                  && m.Rename? && io.loadOk && known.None?)
            && t == s.(stores := t.stores, disk := t.disk, cache := t.cache)
            && (r.Err? ==> t.disk == s.disk && t.cache == s.cache)
            && (r.Ok? ==>
                  && (forall at :: at != At(s.ephemeral, key) ==>
                        (at in t.disk <==> at in s.disk) && (at in s.disk ==> t.disk[at] == s.disk[at]))
                  && RecordAt(t, key) == (match m
                                          case Create(title) => Some(Record(key.session, title, []))
                                          case Delete => None
                                          case Rename(title) => Some(known.value.(title := title)))
                  && t.cache.terminal == if m.Rename? then s.cache.terminal else s.cache.terminal - {key})
  {
  }

  // ---- Shutdown ----

  /** The first block of a shutdown stops the engine, cancels every run that is not committing, leaves the
      others to finish, and waits for all of them. */
  lemma ShutdownMeans(s: State, caller: nat)
    ensures var t := ShutdownBegin(s, caller);
            && t.stopped && t.runs.Keys == s.runs.Keys
            && (forall k <- s.runs ::
                  && (t.runs[k].canceled <==> s.runs[k].canceled || !s.runs[k].phase.Persisting?)
                  && t.runs[k] == s.runs[k].(canceled := t.runs[k].canceled))
            && caller in t.shutdowns && t.shutdowns[caller].Draining?
            && (forall id :: id in t.shutdowns[caller].runs <==> exists k <- s.runs :: s.runs[k].id == id)
            && t == s.(stopped := true, runs := t.runs, shutdowns := s.shutdowns[caller := t.shutdowns[caller]])
  {
  }

  predicate OwnStep(a: Action, caller: nat) {
    || (a.DoShutdownRun? && a.caller == caller) || (a.DoShutdownLists? && a.caller == caller)
    || (a.DoShutdownClose? && a.caller == caller)
  }

  /** A shutdown waits for nothing else: once the runs it captured have ended and no listing is in flight, its
      own steps close every store and every queue, and it returns. */
  lemma {:induction false} ShutdownCompletes(s: State, caller: nat) returns (steps: seq<Action>)
    requires caller in s.shutdowns && s.shutdowns[caller].Draining? && s.shutdowns[caller].runs <= s.log.ended
    requires s.lists == 0 && s.feeds.registered <= s.feeds.subs.Keys
    ensures forall a <- steps :: OwnStep(a, caller)
    ensures var t := Reach(s, steps);
            && t.shutdowns == s.shutdowns[caller := Drained] && t.stores == {} && t.feeds.registered == {}
            && t.feeds.subs.Keys == s.feeds.subs.Keys
            && (forall i <- s.feeds.registered :: t.feeds.subs[i].closed)
            && t == s.(shutdowns := t.shutdowns, stores := {}, feeds := t.feeds)
    decreases |s.shutdowns[caller].runs|
  {
    hide Step, Reach;
    var waiting := s.shutdowns[caller].runs;
    if waiting == {} {
      var a, b, c := DoShutdownLists(caller), DoShutdownLists(caller), DoShutdownClose(caller);
      steps := [a] + ([b] + [c]);
      ListsSeen(s, caller);
      ReachCons(s, a, [b] + [c]);
      ReachCons(Step(s, a), b, [c]);
      OneStep(Step(Step(s, a), b), c);
    } else {
      var id :| id in waiting;
      var a := DoShutdownRun(caller, id);
      RunSeen(s, caller, id);
      var rest := ShutdownCompletes(Step(s, a), caller);
      ReachCons(s, a, rest);
      assert s.shutdowns[caller := Draining(waiting - {id})][caller := Drained] == s.shutdowns[caller := Drained];
      steps := [a] + rest;
    }
  }

  lemma RunSeen(s: State, caller: nat, id: string)
    requires caller in s.shutdowns && s.shutdowns[caller].Draining? && id in s.log.ended
    ensures Step(s, DoShutdownRun(caller, id)) ==
            s.(shutdowns := s.shutdowns[caller := Draining(s.shutdowns[caller].runs - {id})])
  {
  }

  lemma ListsSeen(s: State, caller: nat)
    requires caller in s.shutdowns && s.shutdowns[caller] == Draining({}) && s.lists == 0
    requires s.feeds.registered <= s.feeds.subs.Keys
    ensures var t := Step(Step(Step(s, DoShutdownLists(caller)), DoShutdownLists(caller)), DoShutdownClose(caller));
            && t.shutdowns == s.shutdowns[caller := Drained] && t.feeds.registered == {}
            && t.feeds.subs.Keys == s.feeds.subs.Keys
            && (forall i <- s.feeds.registered :: t.feeds.subs[i].closed)
            && t == s.(shutdowns := t.shutdowns, stores := {}, feeds := t.feeds)
  {
    hide Step;
    DrainedRuns(s, caller);
    var s1 := s.(shutdowns := s.shutdowns[caller := Listing]);
    DrainedLists(s1, caller);
    var s2 := s.(shutdowns := s.shutdowns[caller := Closing]);
    assert s1.shutdowns[caller := Closing] == s2.shutdowns;
    assert s2.shutdowns[caller := Drained] == s.shutdowns[caller := Drained];
    LastBlock(s2, caller);
  }

  lemma DrainedRuns(s: State, caller: nat)
    requires caller in s.shutdowns && s.shutdowns[caller] == Draining({})
    ensures Step(s, DoShutdownLists(caller)) == s.(shutdowns := s.shutdowns[caller := Listing])
  {
  }

  lemma DrainedLists(s: State, caller: nat)
    requires caller in s.shutdowns && s.shutdowns[caller].Listing? && s.lists == 0
    ensures Step(s, DoShutdownLists(caller)) == s.(shutdowns := s.shutdowns[caller := Closing])
  {
  }

  lemma LastBlock(s: State, caller: nat)
    requires caller in s.shutdowns && s.shutdowns[caller].Closing? && s.feeds.registered <= s.feeds.subs.Keys
    ensures var t := Step(s, DoShutdownClose(caller));
            && t == s.(shutdowns := s.shutdowns[caller := Drained], stores := {}, feeds := t.feeds)
            && t.feeds.registered == {} && t.feeds.subs.Keys == s.feeds.subs.Keys
            && (forall i <- s.feeds.registered :: t.feeds.subs[i].closed)
  {
  }

  /** While the engine runs a listing is counted from its beginning. */
  lemma ListingIsCounted(s: State, workspace: string)
    requires !s.stopped
    ensures var (t, r) := ListBegin(s, workspace);
            && r.Ok? && t == s.(lists := s.lists + 1, stores := t.stores)
            && t.stores == s.stores + if s.ephemeral then {} else {workspace}
  {
    assert s.stores + {} == s.stores;
  }

  /** A caller whose time runs out while it waits gives up; one that is closing or has returned does not. */
  lemma TimeoutMeans(s: State, caller: nat)
    requires caller in s.shutdowns
    ensures var t := Step(s, DoShutdownTimeout(caller));
            t == s.(shutdowns := s.shutdowns[caller :=
                                   if s.shutdowns[caller].Draining? || s.shutdowns[caller].Listing? then TimedOut
                                   else s.shutdowns[caller]])
  {
    assert s.shutdowns[caller := s.shutdowns[caller]] == s.shutdowns;
  }

  /** A stopped engine refuses every new turn, subscription, mutation and listing, and says why. */
  lemma StoppedRefuses(s: State, key: Key, incoming: seq<Message>, runId: string, title: string, io: Io, id: nat,
                       m: Mutation)
    requires s.stopped
    ensures incoming != [] ==> Reserve(s, key, incoming, runId, title, io) == (s, Err(EngineStopped))
    ensures Subscribe(s, key, runId, id, io) == (s, Err(EngineStopped))
    ensures Mutate(s, key, m, io) == (s, Err(EngineStopped))
    ensures ListBegin(s, key.workspace) == (s, Err(EngineStopped))
  {
  }

  // ---- A whole turn ----

  lemma ReachCons(s: State, a: Action, rest: seq<Action>)
    ensures Reach(s, [a] + rest) == Reach(Step(s, a), rest)
  {
    hide Step;
    OneStep(s, a);
    ReachConcat(s, [a], rest);
  }

  /** What the goroutine of a turn does once its runner has returned. A step that does not arise does
      nothing. */
  function Ends(key: Key, saved: bool, text: string): seq<Action> {
    [DoCheckContext(key), DoEnterPersist(key), DoCommit(key, saved, text), DoReadFlags(key), DoJudge(key)]
  }

  /** How a turn ends that nothing else comes between: a cancel is reported as a cancel, a runner's failure as
      that failure, a save that fails as that, and what is left succeeds. */
  function Ending(key: Key, runId: string, ephemeral: bool, cancel: bool, result: Option<seq<Message>>,
                  failure: Option<string>, saved: bool, text: string): Outcome
  {
    if cancel then Outcome(key.session, runId, Canceled, false, "run canceled", "canceled")
    else if failure.Some? then Outcome(key.session, runId, Failed, false, failure.value, "execution_failed")
    else if result.None? then
      Outcome(key.session, runId, Failed, false, "runner returned no result", "execution_failed")
    else if ephemeral then Outcome(key.session, runId, Succeeded, false, "", "")
    else if saved then Outcome(key.session, runId, Succeeded, true, "", "")
    else Outcome(key.session, runId, PersistenceFailed, false, "persistence failed: " + text, "persistence_failed")
  }

  lemma EndsUnfold(s: State, key: Key, saved: bool, text: string)
    ensures Reach(s, Ends(key, saved, text)) ==
            Step(Step(Step(Step(Step(s, DoCheckContext(key)), DoEnterPersist(key)), DoCommit(key, saved, text)),
                      DoReadFlags(key)), DoJudge(key))
  {
    hide Step;
    var a, b, c, d, e := DoCheckContext(key), DoEnterPersist(key), DoCommit(key, saved, text), DoReadFlags(key),
                         DoJudge(key);
    assert Ends(key, saved, text) == [a] + [b, c, d, e] && [b, c, d, e] == [b] + [c, d, e];
    assert [c, d, e] == [c] + [d, e] && [d, e] == [d] + [e];
    ReachCons(s, a, [b, c, d, e]);
    var s1 := Step(s, a);
    ReachCons(s1, b, [c, d, e]);
    var s2 := Step(s1, b);
    ReachCons(s2, c, [d, e]);
    var s3 := Step(s2, c);
    ReachCons(s3, d, [e]);
    OneStep(Step(s3, d), e);
  }

  /** One step of a run's goroutine, as what it makes of the run; a step that does not arise does nothing. */
  lemma StepOnRun(s: State, key: Key, saved: bool, text: string)
    requires key in s.runs
    ensures var r := s.runs[key];
            && Step(s, DoCheckContext(key)) ==
               (if r.pc.Returned? then WithRun(s, key, CheckContext(r, s.ephemeral)) else s)
            && Step(s, DoEnterPersist(key)) == (if r.pc.Gate? then WithRun(s, key, EnterPersist(r)) else s)
            && Step(s, DoCommit(key, saved, text)) == (if r.pc.Saving? then Commit(s, key, saved, text) else s)
            && Step(s, DoReadFlags(key)) == (if r.pc.Deciding? then WithRun(s, key, ReadFlags(r)) else s)
            && Step(s, DoJudge(key)) == (if r.pc.Judging? then WithRun(s, key, Judge(key, r, s.ephemeral)) else s)
  {
    hide CheckContext, EnterPersist, Commit, ReadFlags, Judge;
  }

  /** The run has got as far as the outcome switch, and nothing but it and the store has changed. */
  predicate Decided(s: State, t: State, key: Key, produced: Option<seq<Message>>, err: ExecError, phase: Phase,
                    disk: map<Key, Record>)
    requires key in s.runs
  {
    && t == s.(runs := s.runs[key := s.runs[key].(pc := Deciding(produced, err), phase := phase)], disk := disk)
  }

  lemma Commits(s: State, key: Key, saved: bool, text: string)
    requires key in s.runs && s.runs[key].pc.Returned?
    ensures var r := s.runs[key];
            var t := Step(Step(Step(s, DoCheckContext(key)), DoEnterPersist(key)), DoCommit(key, saved, text));
            if r.canceled then Decided(s, t, key, Some(r.pc.result), OtherError("context canceled"), r.phase, s.disk)
            else if s.ephemeral then Decided(s, t, key, Some(r.pc.result), NoError, r.phase, s.disk)
            else if saved then
              Decided(s, t, key, Some(r.pc.result), NoError, Persisting,
                      s.disk[key := r.record.(messages := WithoutSystem(r.pc.result))])
            else Decided(s, t, key, Some(r.pc.result), SaveError("persistence failed: " + text), Persisting, s.disk)
  {
    hide Step, WithoutSystem, Commit, CheckContext, EnterPersist, Decided;
    StepOnRun(s, key, saved, text);
    var s1 := Step(s, DoCheckContext(key));
    if s.runs[key].canceled || s.ephemeral {
      ContextDecides(s, key);
      StepOnRun(s1, key, saved, text);
    } else {
      ContextPasses(s, key);
      StepOnRun(s1, key, saved, text);
      GateOpens(s, s1, key);
      var s2 := Step(s1, DoEnterPersist(key));
      StepOnRun(s2, key, saved, text);
      SaveDecides(s, s2, key, saved, text);
    }
  }

  lemma ContextDecides(s: State, key: Key)
    requires key in s.runs && s.runs[key].pc.Returned? && (s.runs[key].canceled || s.ephemeral)
    ensures var r := s.runs[key];
            var t := WithRun(s, key, CheckContext(r, s.ephemeral));
            var err := if r.canceled then OtherError("context canceled") else NoError;
            Decided(s, t, key, Some(r.pc.result), err, r.phase, s.disk) && key in t.runs && t.runs[key].pc.Deciding?
  {
  }

  lemma ContextPasses(s: State, key: Key)
    requires key in s.runs && s.runs[key].pc.Returned? && !s.runs[key].canceled && !s.ephemeral
    ensures var r := s.runs[key];
            WithRun(s, key, CheckContext(r, s.ephemeral)) == WithRun(s, key, r.(pc := Gate(r.pc.result)))
  {
  }

  lemma GateOpens(s: State, s1: State, key: Key)
    requires key in s.runs && s.runs[key].pc.Returned? && !s.runs[key].canceled
    requires s1 == WithRun(s, key, s.runs[key].(pc := Gate(s.runs[key].pc.result)))
    ensures var r := s.runs[key];
            WithRun(s1, key, EnterPersist(s1.runs[key])) ==
            WithRun(s, key, r.(phase := Persisting, pc := Saving(r.pc.result)))
  {
    var r := s.runs[key];
    RunReplaced(s, key, r.(pc := Gate(r.pc.result)), r.(phase := Persisting, pc := Saving(r.pc.result)));
  }

  lemma SaveDecides(s: State, s2: State, key: Key, saved: bool, text: string)
    requires key in s.runs && s.runs[key].pc.Returned? && !s.ephemeral
    requires s2 == WithRun(s, key, s.runs[key].(phase := Persisting, pc := Saving(s.runs[key].pc.result)))
    ensures var r := s.runs[key];
            var t := Commit(s2, key, saved, text);
            if saved then
              Decided(s, t, key, Some(r.pc.result), NoError, Persisting,
                      s.disk[key := r.record.(messages := WithoutSystem(r.pc.result))])
            else Decided(s, t, key, Some(r.pc.result), SaveError("persistence failed: " + text), Persisting, s.disk)
  {
    hide WithoutSystem;
    var r := s.runs[key];
    var err := if saved then NoError else SaveError("persistence failed: " + text);
    RunReplaced(s, key, r.(phase := Persisting, pc := Saving(r.pc.result)),
                r.(phase := Persisting, pc := Deciding(Some(r.pc.result), err)));
  }

  lemma NothingToCommit(s: State, key: Key, saved: bool, text: string)
    requires key in s.runs && s.runs[key].pc.Deciding?
    ensures Step(Step(Step(s, DoCheckContext(key)), DoEnterPersist(key)), DoCommit(key, saved, text)) == s
  {
    hide Step;
    StepOnRun(s, key, saved, text);
  }

  /** The outcome of a run within its budget, by what happened to it. */
  function Judged(key: Key, r: Run, ephemeral: bool, err: ExecError, phase: Phase): Outcome {
    if err.SaveError? then Outcome(key.session, r.id, PersistenceFailed, false, err.text, "persistence_failed")
    else if r.canceled && !phase.Persisting? then
      Outcome(key.session, r.id, Canceled, false, "run canceled", "canceled")
    else if err.OtherError? then Outcome(key.session, r.id, Failed, false, err.text, "execution_failed")
    else Outcome(key.session, r.id, Succeeded, !ephemeral, "", "")
  }

  lemma Decides(s: State, key: Key)
    requires key in s.runs && s.runs[key].pc.Deciding? && !s.runs[key].limited
    ensures var r := s.runs[key];
            Step(Step(s, DoReadFlags(key)), DoJudge(key)) ==
            WithRun(s, key, r.(pc := Finishing(r.pc.produced, Judged(key, r, s.ephemeral, r.pc.err, r.phase))))
  {
    hide Step;
    StepOnRun(s, key, true, "");
    StepOnRun(Step(s, DoReadFlags(key)), key, true, "");
  }

  lemma DecidedEnds(s: State, m: State, key: Key, produced: Option<seq<Message>>, err: ExecError, phase: Phase,
                    disk: map<Key, Record>)
    requires key in s.runs && !s.runs[key].limited && Decided(s, m, key, produced, err, phase, disk)
    ensures var r := s.runs[key];
            var o := Judged(key, r, s.ephemeral, err, phase);
            Step(Step(m, DoReadFlags(key)), DoJudge(key)) ==
            s.(runs := s.runs[key := r.(pc := Finishing(produced, o), phase := phase)], disk := disk)
  {
    Decides(m, key);
    hide Step, Judged;
    var r := s.runs[key];
    assert Judged(key, m.runs[key], m.ephemeral, err, phase) == Judged(key, r, s.ephemeral, err, phase) by {
      SameJudgement(key, m.runs[key], r, s.ephemeral, err, phase);
    }
  }

  lemma SameJudgement(key: Key, a: Run, b: Run, ephemeral: bool, err: ExecError, phase: Phase)
    requires a.id == b.id && a.canceled == b.canceled
    ensures Judged(key, a, ephemeral, err, phase) == Judged(key, b, ephemeral, err, phase)
  {
  }

  /** From the moment its runner has returned a run ends by itself, truthfully. */
  lemma RunEnds(s: State, key: Key, saved: bool, text: string)
    requires key in s.runs && !s.runs[key].phase.Persisting? && !s.runs[key].limited
    requires s.runs[key].pc.Returned? || (s.runs[key].pc.Deciding? && s.runs[key].pc.err.OtherError?)
    ensures var r := s.runs[key];
            var result := if r.pc.Returned? then Some(r.pc.result) else None;
            var failure := if r.pc.Returned? then None else Some(r.pc.err.text);
            var produced := if r.pc.Returned? then result else r.pc.produced;
            var o := Ending(key, r.id, s.ephemeral, r.canceled, result, failure, saved, text);
            var t := Reach(s, Ends(key, saved, text));
            && t == s.(runs := t.runs, disk := t.disk) && key in t.runs
            && t.runs == s.runs[key := r.(pc := Finishing(produced, o), phase := t.runs[key].phase)]
            && t.disk == (if o.persisted then s.disk[key := r.record.(messages := WithoutSystem(result.value))]
                          else s.disk)
  {
    EndsUnfold(s, key, saved, text);
    hide Step, Reach, Ends, WithoutSystem, Decided;
    var r := s.runs[key];
    var m := Step(Step(Step(s, DoCheckContext(key)), DoEnterPersist(key)), DoCommit(key, saved, text));
    if !r.pc.Returned? {
      NothingToCommit(s, key, saved, text);
      DecidedAlready(s, key);
      DecidedEnds(s, m, key, r.pc.produced, r.pc.err, r.phase, s.disk);
    } else {
      Commits(s, key, saved, text);
      var result := Some(r.pc.result);
      if r.canceled { DecidedEnds(s, m, key, result, OtherError("context canceled"), r.phase, s.disk); }
      else if s.ephemeral { DecidedEnds(s, m, key, result, NoError, r.phase, s.disk); }
      else if saved {
        DecidedEnds(s, m, key, result, NoError, Persisting,
                    s.disk[key := r.record.(messages := WithoutSystem(r.pc.result))]);
      } else { DecidedEnds(s, m, key, result, SaveError("persistence failed: " + text), Persisting, s.disk); }
    }
  }

  lemma DecidedAlready(s: State, key: Key)
    requires key in s.runs && s.runs[key].pc.Deciding?
    ensures Decided(s, s, key, s.runs[key].pc.produced, s.runs[key].pc.err, s.runs[key].phase, s.disk)
  {
    assert s.runs[key := s.runs[key]] == s.runs;
  }

  /** A turn from its reservation to its end, with a cancel before the runner returns or without one. */
  function Turn(key: Key, incoming: seq<Message>, runId: string, title: string, io: Io, cancel: bool,
                result: Option<seq<Message>>, failure: Option<string>, saved: bool, text: string): seq<Action>
  {
    [DoReserve(key, incoming, runId, title, io), DoCreateRunner(key, true, "")]
    + (if cancel then [DoCancel(key, runId)] else [])
    + [DoReturn(key, result, failure)] + Ends(key, saved, text) + [DoFinish(key)]
  }

  /** The steps of a turn, one after the other. */
  lemma TurnUnfold(s: State, key: Key, incoming: seq<Message>, runId: string, title: string, io: Io, cancel: bool,
                   result: Option<seq<Message>>, failure: Option<string>, saved: bool, text: string)
    ensures var s2 := Step(Step(s, DoReserve(key, incoming, runId, title, io)), DoCreateRunner(key, true, ""));
            var s3 := if cancel then Step(s2, DoCancel(key, runId)) else s2;
            Reach(s, Turn(key, incoming, runId, title, io, cancel, result, failure, saved, text)) ==
            Step(Reach(Step(s3, DoReturn(key, result, failure)), Ends(key, saved, text)), DoFinish(key))
  {
    hide Step, Ends;
    var a, b, c, d := DoReserve(key, incoming, runId, title, io), DoCreateRunner(key, true, ""), DoCancel(key, runId),
                      DoReturn(key, result, failure);
    var ends, z := Ends(key, saved, text), DoFinish(key);
    var s2 := Step(Step(s, a), b);
    var s3 := if cancel then Step(s2, c) else s2;
    var tail := [d] + (ends + [z]);
    var rest := (if cancel then [c] else []) + tail;
    assert Turn(key, incoming, runId, title, io, cancel, result, failure, saved, text) == [a] + ([b] + rest);
    ReachCons(s, a, [b] + rest);
    ReachCons(Step(s, a), b, rest);
    if cancel { ReachCons(s2, c, tail); } else { assert rest == tail; }
    ReachCons(s3, d, ends + [z]);
    ReachConcat(Step(s3, d), ends, [z]);
    OneStep(Reach(Step(s3, d), ends), z);
  }

  /** The run after its runner was created and has returned. */
  lemma RunnerIsDone(s: State, key: Key, runId: string, cancel: bool, result: Option<seq<Message>>,
                     failure: Option<string>)
    requires key in s.runs && s.runs[key].pc.Claimed? && s.runs[key].id == runId != "" && s.runs[key].phase.Preparing?
    requires !s.runs[key].canceled
    requires result.Some? && failure.None? ==> Subsequence(s.runs[key].messages, result.value)
    ensures var s2 := Step(s, DoCreateRunner(key, true, ""));
            var s3 := if cancel then Step(s2, DoCancel(key, runId)) else s2;
            var pc := if failure.Some? then Deciding(result, OtherError(failure.value))
                      else if result.None? then Deciding(None, OtherError("runner returned no result"))
                      else Returned(result.value);
            Step(s3, DoReturn(key, result, failure)) ==
            WithRun(s, key, s.runs[key].(phase := Running, canceled := cancel, pc := pc))
  {
    hide Step, Subsequence, WithRun;
    var r := s.runs[key].(phase := Running, pc := Executing);
    var r' := r.(canceled := cancel);
    var pc := if failure.Some? then Deciding(result, OtherError(failure.value))
              else if result.None? then Deciding(None, OtherError("runner returned no result"))
              else Returned(result.value);
    CreateIsStep(s, key);
    RunReplaced(s, key, r, r');
    if cancel { CancelHits(WithRun(s, key, r), key, runId); }
    RunReplaced(s, key, r', r'.(pc := pc));
    ReturnIsStep(WithRun(s, key, r'), key, result, failure);
  }

  lemma RunReplaced(s: State, key: Key, a: Run, b: Run)
    ensures var t := WithRun(s, key, a); key in t.runs && t.runs[key] == a && WithRun(t, key, b) == WithRun(s, key, b)
  {
    assert s.runs[key := a][key := b] == s.runs[key := b];
  }

  lemma CreateIsStep(s: State, key: Key)
    requires key in s.runs && s.runs[key].pc.Claimed?
    ensures Step(s, DoCreateRunner(key, true, "")) == WithRun(s, key, s.runs[key].(phase := Running, pc := Executing))
  {
  }

  lemma CancelHits(s: State, key: Key, runId: string)
    requires key in s.runs && s.runs[key].id == runId != "" && !s.runs[key].phase.Persisting?
    ensures Step(s, DoCancel(key, runId)) == WithRun(s, key, s.runs[key].(canceled := true))
  {
  }

  lemma ReturnIsStep(s: State, key: Key, result: Option<seq<Message>>, failure: Option<string>)
    requires key in s.runs && s.runs[key].pc.Executing?
    requires result.Some? && failure.None? ==> Subsequence(s.runs[key].messages, result.value)
    ensures var pc := if failure.Some? then Deciding(result, OtherError(failure.value))
                      else if result.None? then Deciding(None, OtherError("runner returned no result"))
                      else Returned(result.value);
            Step(s, DoReturn(key, result, failure)) == WithRun(s, key, s.runs[key].(pc := pc))
  {
  }

  lemma FinishIsStep(s: State, key: Key)
    requires key in s.runs && s.runs[key].pc.Finishing? && CacheInv(s.cache)
    ensures var t := Step(s, DoFinish(key));
            var r := s.runs[key];
            && t.runs == s.runs - {key} && t.disk == s.disk && t.ephemeral == s.ephemeral && r.id in t.log.ended
            && key in t.cache.terminal && t.cache.terminal[key] == Stripped(FinalSnapshot(key, r))
            && t.cache.terminal[key].outcome == Some(r.pc.verdict) && t.cache.terminal[key].runId == r.id
  {
    hide Publish, Retain, SnapshotBytes, WithoutSystem;
    RetainKeeps(s.cache, key, FinalSnapshot(key, s.runs[key]));
  }

  /** A turn that nothing else comes between ends as it should, in every case: with the outcome that `Ending`
      names, kept as the session's last end; with the messages the runner returned in the stored record,
      system messages left out, when that outcome says so; and with everything else as it was. */
  lemma TurnEnds(ephemeral: bool, s: State, key: Key, incoming: seq<Message>, runId: string, title: string, io: Io,
                 cancel: bool, result: Option<seq<Message>>, failure: Option<string>, saved: bool, text: string)
    requires Occurs(ephemeral, s) && Enabled(s, DoReserve(key, incoming, runId, title, io))
    requires Reserve(s, key, incoming, runId, title, io).1.Ok?
    requires result.Some? && failure.None? ==>
               Subsequence(HistoryFrom(StoredMessages(s, key)) + incoming, result.value)
    ensures var t := Reach(s, Turn(key, incoming, runId, title, io, cancel, result, failure, saved, text));
            var o := Ending(key, runId, ephemeral, cancel, result, failure, saved, text);
            var record := RecordAt(s, key).GetOr(Record(key.session, title, []));
            && t.runs == s.runs && runId in t.log.ended
            && key in t.cache.terminal
            && t.cache.terminal[key].outcome == Some(o) && t.cache.terminal[key].runId == runId
            && t.disk == s.disk[At(ephemeral, key) :=
                                  if o.persisted then record.(messages := WithoutSystem(result.value)) else record]
  {
    hide Occurs, Step, Reach, Turn, Ends, Enabled, Reserve, WithoutSystem, Subsequence, HistoryFrom, RecordAt;
    var a := DoReserve(key, incoming, runId, title, io);
    TurnUnfold(s, key, incoming, runId, title, io, cancel, result, failure, saved, text);
    ReservedState(ephemeral, s, a);
    ClaimedTurnEnds(Step(s, a), key, runId, cancel, result, failure, saved, text);
    assert Step(s, a).runs - {key} == s.runs;
  }

  /** What an accepted reservation leads to, as far as the turn itself is concerned. */
  lemma ReservedState(ephemeral: bool, s: State, a: Action)
    requires Occurs(ephemeral, s) && a.DoReserve? && Enabled(s, a)
    requires Reserve(s, a.key, a.incoming, a.runId, a.title, a.io).1.Ok?
    ensures var t := Step(s, a);
            var record := RecordAt(s, a.key).GetOr(Record(a.key.session, a.title, []));
            && a.key !in s.runs && a.key in t.runs && t.runs == s.runs[a.key := t.runs[a.key]]
            && t.ephemeral == s.ephemeral == ephemeral && CacheInv(t.cache)
            && t.disk == s.disk[At(ephemeral, a.key) := record]
            && var run := t.runs[a.key];
               && run.id == a.runId != "" && run.record == record && run.pc.Claimed? && run.phase.Preparing?
               && !run.canceled && !run.limited && run.messages == HistoryFrom(StoredMessages(s, a.key)) + a.incoming
  {
    hide Occurs, Step, Reach, Reserve, MessagesBytes, HistoryFrom, RecordAt, SystemInv;
    ReserveMeans(s, a.key, a.incoming, a.runId, a.title, a.io);
    ReserveIsStep(s, a);
    OccursHolds(ephemeral, s);
    IdOfReserve(s, a);
    hide Enabled;
    OneStep(s, a);
    OccursOn(ephemeral, s, [a]);
    OccursHolds(ephemeral, Step(s, a));
    SystemCache(Step(s, a));
  }

  lemma ClaimedTurnEnds(s: State, key: Key, runId: string, cancel: bool, result: Option<seq<Message>>,
                        failure: Option<string>, saved: bool, text: string)
    requires key in s.runs && s.runs[key].pc.Claimed? && s.runs[key].id == runId != "" && s.runs[key].phase.Preparing?
    requires !s.runs[key].canceled && !s.runs[key].limited && CacheInv(s.cache)
    requires result.Some? && failure.None? ==> Subsequence(s.runs[key].messages, result.value)
    ensures var s2 := Step(s, DoCreateRunner(key, true, ""));
            var s3 := if cancel then Step(s2, DoCancel(key, runId)) else s2;
            var t := Step(Reach(Step(s3, DoReturn(key, result, failure)), Ends(key, saved, text)), DoFinish(key));
            var o := Ending(key, runId, s.ephemeral, cancel, result, failure, saved, text);
            && t.runs == s.runs - {key} && runId in t.log.ended
            && key in t.cache.terminal
            && t.cache.terminal[key].outcome == Some(o) && t.cache.terminal[key].runId == runId
            && t.disk == if o.persisted then s.disk[key := s.runs[key].record.(messages := WithoutSystem(result.value))]
                         else s.disk
  {
    hide Step, Reach, Ends, WithoutSystem, Subsequence, CacheInv, Ending;
    RunnerIsDone(s, key, runId, cancel, result, failure);
    var s2 := Step(s, DoCreateRunner(key, true, ""));
    var s3 := if cancel then Step(s2, DoCancel(key, runId)) else s2;
    var s4 := Step(s3, DoReturn(key, result, failure));
    ReturnedTurnEnds(s4, key, saved, text);
    SameEnding(key, runId, s.ephemeral, cancel, result, failure, saved, text);
    assert s4.runs - {key} == s.runs - {key};
  }

  /** What a failed or empty return is reported as. */
  lemma SameEnding(key: Key, runId: string, ephemeral: bool, cancel: bool, result: Option<seq<Message>>,
                   failure: Option<string>, saved: bool, text: string)
    ensures var o := Ending(key, runId, ephemeral, cancel, result, failure, saved, text);
            && (failure.Some? ==> o == Ending(key, runId, ephemeral, cancel, None, failure, saved, text))
            && (failure.None? && result.None? ==>
                  o == Ending(key, runId, ephemeral, cancel, None, Some("runner returned no result"), saved, text))
            && (o.persisted ==> result.Some? && failure.None?)
  {
  }

  lemma ReturnedTurnEnds(s: State, key: Key, saved: bool, text: string)
    requires key in s.runs && !s.runs[key].phase.Persisting? && !s.runs[key].limited && CacheInv(s.cache)
    requires s.runs[key].pc.Returned? || (s.runs[key].pc.Deciding? && s.runs[key].pc.err.OtherError?)
    ensures var r := s.runs[key];
            var result := if r.pc.Returned? then Some(r.pc.result) else None;
            var failure := if r.pc.Returned? then None else Some(r.pc.err.text);
            var o := Ending(key, r.id, s.ephemeral, r.canceled, result, failure, saved, text);
            var t := Step(Reach(s, Ends(key, saved, text)), DoFinish(key));
            && t.runs == s.runs - {key} && r.id in t.log.ended
            && key in t.cache.terminal
            && t.cache.terminal[key].outcome == Some(o) && t.cache.terminal[key].runId == r.id
            && (o.persisted ==> result.Some?)
            && t.disk == if o.persisted then s.disk[key := r.record.(messages := WithoutSystem(result.value))]
                         else s.disk
  {
    hide Step, Reach, Ends, WithoutSystem, FinalSnapshot, Stripped, CacheInv, Ending;
    RunEnds(s, key, saved, text);
    var m := Reach(s, Ends(key, saved, text));
    FinishIsStep(m, key);
    assert m.runs - {key} == s.runs - {key};
    var r := s.runs[key];
    SameEnding(key, r.id, s.ephemeral, r.canceled, if r.pc.Returned? then Some(r.pc.result) else None,
               if r.pc.Returned? then None else Some(r.pc.err.text), saved, text);
  }

  lemma IdOfReserve(s: State, a: Action)
    requires a.DoReserve? && Enabled(s, a)
    ensures a.runId != "" && a.key.session != ""
  {
  }
}
