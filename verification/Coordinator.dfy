/** The coordinator as the object it is: internal/chat/coordinator.go. Each method is one block under the
    mutex, or one step of a run's goroutine, and is proved equal to its step of the state machine. */
module Coordinators {
  import opened Transcript
  import opened Subscriptions
  import opened Retention
  import opened Service
  import opened CoordinatorSpec

  lemma {:induction false} WithoutAt(order: seq<Key>, key: Key, i: nat)
    requires i <= |order| && key !in order[..i] && (i < |order| ==> order[i] == key)
    ensures Without(order, key) == if i < |order| then order[..i] + order[i + 1..] else order
  {
    if order != [] && i > 0 {
      assert order[0] == order[..i][0] && order[1..][..i - 1] == order[..i][1..];
      assert forall k <- order[1..][..i - 1] :: k in order[..i];
      WithoutAt(order[1..], key, i - 1);
    }
  }

  /** Fan-out with the subscribers in `todo` still waiting for the update. */
  function PublishPart(f: Feeds, key: Key, u: Update, todo: set<nat>): Feeds {
    Feeds(map i | i in f.subs :: if i in Touched(f, key) - todo then Enqueued(f.subs[i], u).0 else f.subs[i],
          set i | i in f.registered && (i in Touched(f, key) - todo ==> Enqueued(f.subs[i], u).1))
  }

  lemma PublishNone(f: Feeds, key: Key, u: Update)
    ensures PublishPart(f, key, u, f.registered) == f
  {
    hide Enqueued;
    assert PublishPart(f, key, u, f.registered).subs == f.subs;
    assert PublishPart(f, key, u, f.registered).registered == f.registered;
  }

  lemma PublishAll(f: Feeds, key: Key, u: Update)
    ensures PublishPart(f, key, u, {}) == Publish(f, key, u)
  {
    hide Enqueued;
    assert PublishPart(f, key, u, {}).subs == Publish(f, key, u).subs;
    assert PublishPart(f, key, u, {}).registered == Publish(f, key, u).registered;
  }

  lemma TodoIsRegistered(f: Feeds, key: Key, u: Update, todo: set<nat>, i: nat)
    requires i in PublishPart(f, key, u, todo).registered && todo <= f.subs.Keys && i in todo
    ensures i in f.registered && i in f.subs
  {
    hide Enqueued;
  }

  lemma PublishOne(f: Feeds, key: Key, u: Update, todo: set<nat>, i: nat)
    requires i in todo && i in f.registered && i in f.subs
    ensures var part := PublishPart(f, key, u, todo);
            && i in part.subs && part.subs[i].key == f.subs[i].key
            && PublishPart(f, key, u, todo - {i}) == if f.subs[i].key == key then Offer(part, i, u).0 else part
  {
    hide Enqueued;
    var part := PublishPart(f, key, u, todo);
    var next := PublishPart(f, key, u, todo - {i});
    if f.subs[i].key == key {
      assert next.subs == Offer(part, i, u).0.subs;
      assert next.registered == Offer(part, i, u).0.registered;
    } else {
      assert next.subs == part.subs && next.registered == part.registered;
    }
  }

  lemma CapturedOne(runs: map<Key, Run>, todo: set<Key>, key: Key)
    requires key in runs && key !in todo
    ensures RunIds(map k | k in runs && k !in todo :: runs[k]) ==
            RunIds(map k | k in runs && k !in todo + {key} :: runs[k]) + {runs[key].id}
  {
    var big, small := map k | k in runs && k !in todo :: runs[k], map k | k in runs && k !in todo + {key} :: runs[k];
    assert big == small[key := runs[key]];
    forall id | id in RunIds(big) ensures id in RunIds(small) + {runs[key].id} {
      var k :| k in big && big[k].id == id;
      if k != key { assert k in small && small[k].id == id; }
    }
    forall id | id in RunIds(small) ensures id in RunIds(big) {
      var k :| k in small && small[k].id == id;
      assert k in big && big[k].id == id;
    }
    assert key in big && big[key].id == runs[key].id;
  }

  lemma NoneCaptured(runs: map<Key, Run>)
    requires runs == map[]
    ensures RunIds(runs) == {}
  {
  }

  /** The queues with the subscribers in `todo` still open. */
  function ClosePart(f: Feeds, todo: set<nat>): Feeds {
    Feeds(map i | i in f.subs :: if i in f.registered - todo then Shut(f.subs[i]) else f.subs[i], f.registered * todo)
  }

  lemma CloseOne(f: Feeds, todo: set<nat>, i: nat)
    requires i in todo && i in f.registered && i in f.subs
    ensures ClosePart(f, todo - {i}) == Unsubscribe(ClosePart(f, todo), i)
  {
    assert ClosePart(f, todo - {i}).subs == Unsubscribe(ClosePart(f, todo), i).subs;
    assert ClosePart(f, todo - {i}).registered == Unsubscribe(ClosePart(f, todo), i).registered;
  }

  lemma CloseEnds(f: Feeds)
    ensures ClosePart(f, f.registered) == f && ClosePart(f, {}) == CloseAll(f)
  {
    assert ClosePart(f, f.registered).subs == f.subs && ClosePart(f, f.registered).registered == f.registered;
    assert ClosePart(f, {}).subs == CloseAll(f).subs;
  }

  lemma ResolveKeepsRun(s: State, key: Key)
    requires key in s.runs && s.runs[key].pending.Some?
    ensures key in Resolve(s, key).runs
  {
    hide Publish;
  }

  // ---- Every method's step, taken where a run of the machine may stand, leads to where one may stand ----

  lemma StartOccurs(ephemeral: bool)
    ensures Occurs(ephemeral, Initial(ephemeral))
  {
    assert Reach(Initial(ephemeral), []) == Initial(ephemeral);
  }

  lemma ReserveOccurs(ephemeral: bool, s: State, key: Key, incoming: seq<Message>, runId: string, title: string, io: Io)
    requires Enabled(s, DoReserve(key, incoming, runId, title, io))
    ensures Occurs(ephemeral, s) ==> Occurs(ephemeral, Reserve(s, key, incoming, runId, title, io).0)
  {
    hide Occurs, Reserve;
    if Occurs(ephemeral, s) {
      PerformOccurs(ephemeral, s, DoReserve(key, incoming, runId, title, io),
                    Reserve(s, key, incoming, runId, title, io).0);
    }
  }

  lemma InteractOccurs(ephemeral: bool, s: State, key: Key, id: string, prompt: Prompt)
    requires Enabled(s, DoInteract(key, id, prompt))
    ensures Occurs(ephemeral, s) ==> Occurs(ephemeral, Interact(s, key, id, prompt))
  {
    hide Occurs, Interact;
    if Occurs(ephemeral, s) { PerformOccurs(ephemeral, s, DoInteract(key, id, prompt), Interact(s, key, id, prompt)); }
  }

  lemma AnsweredOccurs(ephemeral: bool, s: State, key: Key, runId: string, id: string, answer: Answer)
    requires Enabled(s, DoReply(key, runId, id, answer))
    ensures Occurs(ephemeral, s) ==> Occurs(ephemeral, Answered(s, key, runId, id, answer).0)
  {
    hide Occurs, Answered;
    if Occurs(ephemeral, s) {
      PerformOccurs(ephemeral, s, DoReply(key, runId, id, answer), Answered(s, key, runId, id, answer).0);
    }
  }

  lemma PersistOccurs(ephemeral: bool, s: State, key: Key)
    requires Enabled(s, DoEnterPersist(key))
    ensures Occurs(ephemeral, s) ==> Occurs(ephemeral, WithRun(s, key, EnterPersist(s.runs[key])))
  {
    hide Occurs, EnterPersist;
    if Occurs(ephemeral, s) {
      PerformOccurs(ephemeral, s, DoEnterPersist(key), WithRun(s, key, EnterPersist(s.runs[key])));
    }
  }

  lemma CommitOccurs(ephemeral: bool, s: State, key: Key, ok: bool, text: string)
    requires Enabled(s, DoCommit(key, ok, text))
    ensures Occurs(ephemeral, s) ==> Occurs(ephemeral, Commit(s, key, ok, text))
  {
    hide Occurs, Commit;
    if Occurs(ephemeral, s) { PerformOccurs(ephemeral, s, DoCommit(key, ok, text), Commit(s, key, ok, text)); }
  }

  lemma JudgeOccurs(ephemeral: bool, s: State, key: Key)
    requires Enabled(s, DoJudge(key))
    ensures Occurs(ephemeral, s) ==> Occurs(ephemeral, WithRun(s, key, Judge(key, s.runs[key], s.ephemeral)))
  {
    hide Occurs, Judge;
    if Occurs(ephemeral, s) {
      PerformOccurs(ephemeral, s, DoJudge(key), WithRun(s, key, Judge(key, s.runs[key], s.ephemeral)));
    }
  }

  lemma FinishOccurs(ephemeral: bool, s: State, key: Key)
    requires Enabled(s, DoFinish(key))
    ensures Occurs(ephemeral, s) ==> Occurs(ephemeral, Finish(s, key))
  {
    hide Occurs, Finish;
    if Occurs(ephemeral, s) { PerformOccurs(ephemeral, s, DoFinish(key), Finish(s, key)); }
  }

  lemma CancelOccurs(ephemeral: bool, s: State, key: Key, runId: string)
    requires Enabled(s, DoCancel(key, runId))
    ensures Occurs(ephemeral, s) ==> Occurs(ephemeral, Cancel(s, key, runId).0)
  {
    hide Occurs, Cancel;
    if Occurs(ephemeral, s) { PerformOccurs(ephemeral, s, DoCancel(key, runId), Cancel(s, key, runId).0); }
  }

  lemma SubscribeOccurs(ephemeral: bool, s: State, key: Key, requestId: string, id: nat, io: Io)
    requires Enabled(s, DoSubscribe(key, requestId, id, io))
    ensures Occurs(ephemeral, s) ==> Occurs(ephemeral, Subscribe(s, key, requestId, id, io).0)
  {
    hide Occurs, Subscribe;
    if Occurs(ephemeral, s) {
      PerformOccurs(ephemeral, s, DoSubscribe(key, requestId, id, io), Subscribe(s, key, requestId, id, io).0);
    }
  }

  lemma ResnapshotOccurs(ephemeral: bool, s: State, id: nat, requestId: string, io: Io)
    requires Enabled(s, DoResnapshot(id, requestId, io))
    ensures Occurs(ephemeral, s) ==> Occurs(ephemeral, Resnapshot(s, id, requestId, io).0)
  {
    hide Occurs, Resnapshot;
    if Occurs(ephemeral, s) {
      PerformOccurs(ephemeral, s, DoResnapshot(id, requestId, io), Resnapshot(s, id, requestId, io).0);
    }
  }

  lemma MutateOccurs(ephemeral: bool, s: State, key: Key, m: Mutation, io: Io)
    requires Enabled(s, DoMutate(key, m, io))
    ensures Occurs(ephemeral, s) ==> Occurs(ephemeral, Mutate(s, key, m, io).0)
  {
    hide Occurs, Mutate;
    if Occurs(ephemeral, s) { PerformOccurs(ephemeral, s, DoMutate(key, m, io), Mutate(s, key, m, io).0); }
  }

  lemma ListBeginOccurs(ephemeral: bool, s: State, workspace: string)
    requires Enabled(s, DoListBegin(workspace))
    ensures Occurs(ephemeral, s) ==> Occurs(ephemeral, ListBegin(s, workspace).0)
  {
    hide Occurs, ListBegin;
    if Occurs(ephemeral, s) { PerformOccurs(ephemeral, s, DoListBegin(workspace), ListBegin(s, workspace).0); }
  }

  lemma ShutdownBeginOccurs(ephemeral: bool, s: State, caller: nat)
    requires Enabled(s, DoShutdownBegin(caller))
    ensures Occurs(ephemeral, s) ==> Occurs(ephemeral, ShutdownBegin(s, caller))
  {
    hide Occurs, ShutdownBegin;
    if Occurs(ephemeral, s) { PerformOccurs(ephemeral, s, DoShutdownBegin(caller), ShutdownBegin(s, caller)); }
  }

  lemma ShutdownCloseOccurs(ephemeral: bool, s: State, caller: nat)
    requires Enabled(s, DoShutdownClose(caller))
    ensures Occurs(ephemeral, s) ==> Occurs(ephemeral, ShutdownClose(s, caller))
  {
    hide Occurs, ShutdownClose;
    if Occurs(ephemeral, s) { PerformOccurs(ephemeral, s, DoShutdownClose(caller), ShutdownClose(s, caller)); }
  }

  lemma AppendOccurs(ephemeral: bool, s: State, key: Key, e: Event)
    requires key in s.runs && Enabled(s, DoEmit(key, e))
    ensures e == Stamped(key, s.runs[key], e) && Occurs(ephemeral, s) ==> Occurs(ephemeral, Append(s, key, e))
  {
    hide Occurs, Append;
    if e == Stamped(key, s.runs[key], e) && Occurs(ephemeral, s) {
      PerformOccurs(ephemeral, s, DoEmit(key, e), Append(s, key, e));
    }
  }

  lemma UnsubscribeOccurs(ephemeral: bool, s: State, id: nat)
    ensures Occurs(ephemeral, s) ==> Occurs(ephemeral, s.(feeds := Unsubscribe(s.feeds, id)))
  {
    hide Occurs, Unsubscribe;
    if Occurs(ephemeral, s) {
      PerformOccurs(ephemeral, s, DoUnsubscribe(id), s.(feeds := Unsubscribe(s.feeds, id)));
    }
  }

  class Coordinator {
    const ephemeral: bool
    var runs: map<Key, Run>
    var subs: map<nat, Subscription>
    var terminal: map<Key, Snapshot>
    var retainedOrder: seq<Key>
    var retainedBytes: int
    var stopped: bool
    var stores: set<string>
    var disk: map<Key, Record>
    var listWorkers: nat
    /** Every subscription ever made, the program counters of the shutdown callers, and the ids handed out. */
    ghost var created: map<nat, Subscription>
    ghost var shutdowns: map<nat, ShutdownPc>
    ghost var log: Log

    ghost predicate Valid()
      reads `subs, `created
    {
      && (forall i <- subs :: i in created && created[i] == subs[i])
      && (forall i <- created :: created[i].id == i)
    }

    ghost function FeedsView(): Feeds
      reads `subs, `created, created.Values
    {
      Feeds(map i | i in created :: created[i].View(), subs.Keys)
    }

    ghost function CacheView(): Cache
      reads `terminal, `retainedOrder, `retainedBytes
    {
      Cache(terminal, retainedOrder, retainedBytes)
    }

    ghost function View(): State
      reads this, created.Values
    {
      State(ephemeral, runs, CacheView(), FeedsView(), disk, stores, stopped, listWorkers, shutdowns, log)
    }

    /** The coordinator is where some run of the state machine leads, so every guarantee about such states
        holds of it. */
    ghost predicate Occurring()
      reads this, created.Values
    {
      Occurs(ephemeral, View())
    }

    constructor (ephemeral: bool)
      ensures Valid() && View() == Initial(ephemeral) && Occurring()
    {
      this.ephemeral := ephemeral;
      runs, subs, terminal, retainedOrder, retainedBytes := map[], map[], map[], [], 0;
      stopped, stores, disk, listWorkers := false, {}, map[], 0;
      created, shutdowns, log := map[], map[], INITIAL_LOG;
      new;
      assert View() == Initial(ephemeral);
      StartOccurs(ephemeral);
    }

    // ---- Delivery ----

    /** One registered subscriber takes an update, or is dropped when its queue cannot. */
    method OfferTo(i: nat, u: Update) returns (ok: bool)
      requires Valid() && i in subs
      modifies `subs, created.Values
      ensures Valid() && created == old(created)
      ensures i in old(FeedsView()).subs && (FeedsView(), ok) == Offer(old(FeedsView()), i, u)
      ensures subs.Keys == old(subs.Keys) || subs.Keys == old(subs.Keys) - {i}
    {
      hide Enqueued;
      ok := subs[i].Enqueue(u);
      if !ok { subs := subs - {i}; }
      assert FeedsView().subs == old(FeedsView()).subs[i := Enqueued(old(created[i].View()), u).0];
    }

    method PublishLocked(key: Key, u: Update)
      requires Valid()
      modifies `subs, created.Values
      ensures Valid() && created == old(created)
      ensures FeedsView() == Publish(old(FeedsView()), key, u)
    {
      hide Enqueued, PublishPart, Publish, Offer;
      ghost var before := FeedsView();
      var todo := subs.Keys;
      PublishNone(before, key, u);
      while todo != {}
        invariant Valid() && created == old(created) && todo <= subs.Keys && todo <= before.subs.Keys
        invariant FeedsView() == PublishPart(before, key, u, todo)
        decreases todo
      {
        var i :| i in todo;
        ghost var part := FeedsView();
        assert i in before.subs && i in before.registered by { TodoIsRegistered(before, key, u, todo, i); }
        PublishOne(before, key, u, todo, i);
        if subs[i].key == key {
          var ok := OfferTo(i, u);
        }
        todo := todo - {i};
      }
      PublishAll(before, key, u);
    }

    method StoreLocked(workspace: string)
      modifies `stores
      ensures stores == OpenStore(old(View()), workspace)
    {
      if !ephemeral { stores := stores + {workspace}; }
    }

    method SnapshotLocked(key: Key, io: Io) returns (r: Result<Snapshot>)
      modifies `stores
      ensures (View(), r) == CurrentSnapshot(old(View()), key, io)
    {
      if key in runs {
        return Ok(RunSnapshot(key, runs[key]));
      }
      if key in terminal {
        return Ok(terminal[key]);
      }
      StoreLocked(key.workspace);
      if !io.leaseOk { return Err(LeaseDenied); }
      if key.session == "" { return Err(BadSession); }
      if !io.loadOk { return Err(LoadFailed); }
      var at := At(ephemeral, key);
      var messages := if at in disk then disk[at].messages else [];
      return Ok(Snapshot(key.session, "", false, Some(messages), [], None, None, false, false));
    }

    // ---- The cache ----

    method DropTerminalLocked(key: Key)
      modifies `terminal, `retainedOrder, `retainedBytes
      ensures CacheView() == Drop(old(CacheView()), key)
    {
      ghost var start := retainedOrder;
      if key in terminal {
        retainedBytes := retainedBytes - SnapshotBytes(terminal[key]);
        terminal := terminal - {key};
      }
      var i := 0;
      while i < |retainedOrder| && retainedOrder[i] != key
        invariant 0 <= i <= |retainedOrder| && key !in retainedOrder[..i]
      {
        i := i + 1;
      }
      WithoutAt(start, key, i);
      if i < |retainedOrder| {
        retainedOrder := retainedOrder[..i] + retainedOrder[i + 1..];
      }
    }

    method RetainLocked(key: Key, snapshot: Snapshot)
      modifies `terminal, `retainedOrder, `retainedBytes
      ensures CacheView() == Retain(old(CacheView()), key, snapshot)
    {
      DropTerminalLocked(key);
      var snap := snapshot;
      var size := SnapshotBytes(snap);
      if size > MAX_PROJECTION_BYTES {
        snap := snap.(messages := None, events := [], unsavedAvailable := false, projectionUnavailable := true);
        size := SnapshotBytes(snap);
      }
      ghost var goal := Evict(CacheView(), size);
      while |retainedOrder| > 0 && (|retainedOrder| >= MAX_RETAINED_SESSIONS
                                    || retainedBytes + size > MAX_RETAINED_BYTES)
        invariant Evict(CacheView(), size) == goal
        decreases |retainedOrder|
      {
        DropTerminalLocked(retainedOrder[0]);
      }
      terminal := terminal[key := snap];
      retainedOrder := retainedOrder + [key];
      retainedBytes := retainedBytes + size;
    }

    // ---- Turns ----

    /** The reservation itself: the stale end goes, the run is entered, its snapshot is published. */
    method AdmitLocked(key: Key, run: Run)
      requires Valid()
      modifies this, created.Values
      ensures Valid() && created == old(created)
      ensures View() == Admit(old(View()), key, run)
    {
      hide FeedsView, CacheView, Publish, Drop, RunSnapshot;
      DropTerminalLocked(key);
      runs := runs[key := run];
      log := log.(used := log.used + {run.id});
      PublishLocked(key, SnapshotUpdate("", RunSnapshot(key, run)));
    }

    /** The session's record, which is written now when there is none. */
    method RecordLocked(key: Key, title: string, io: Io) returns (r: Result<Record>)
      modifies `stores, `disk
      ensures stores == OpenStore(old(View()), key.workspace)
      ensures var at := At(ephemeral, key);
              var fits := io.leaseOk && io.loadOk && (at in old(disk) || io.writeOk);
              && disk == (if fits && at !in old(disk) then old(disk)[at := Record(key.session, title, [])]
                          else old(disk))
              && r == (if fits then Ok(disk[at]) else if !io.leaseOk then Err(LeaseDenied)
                       else if !io.loadOk then Err(LoadFailed) else Err(SaveFailed))
    {
      StoreLocked(key.workspace);
      if !io.leaseOk { return Err(LeaseDenied); }
      if !io.loadOk { return Err(LoadFailed); }
      var at := At(ephemeral, key);
      if at !in disk {
        if !io.writeOk { return Err(SaveFailed); }
        disk := disk[at := Record(key.session, title, [])];
      }
      return Ok(disk[at]);
    }

    method ReserveTurn(key: Key, incoming: seq<Message>, runId: string, title: string, io: Io)
      returns (r: Result<string>)
      requires Valid()
      modifies this, created.Values
      ensures Valid() && created == old(created)
      ensures (View(), r) == Reserve(old(View()), key, incoming, runId, title, io)
      ensures old(Occurring() && Enabled(View(), DoReserve(key, incoming, runId, title, io))) ==> Occurring()
    {
      hide FeedsView, CacheView, Admit, HistoryFrom, MessagesBytes, NewRun, OpenStore, Occurs, Enabled;
      if Enabled(View(), DoReserve(key, incoming, runId, title, io)) {
        ReserveOccurs(ephemeral, View(), key, incoming, runId, title, io);
      }
      if |incoming| == 0 { return Err(EmptyChat); }
      if stopped { return Err(EngineStopped); }
      if key in runs { return Err(SessionBusy); }
      var record := RecordLocked(key, title, io);
      if record.Err? { return Err(record.error); }
      var history := ComputeHistoryFrom(record.value.messages);
      var messages := history + incoming;
      if MessagesBytes(messages) > MAX_PROJECTION_BYTES { return Err(ProjectionLimit); }
      AdmitLocked(key, NewRun(key, runId, record.value, messages));
      return Ok(runId);
    }

    /** A text or reasoning fragment grows the last event when that is of its kind. */
    static method JoinEvent(before: seq<Event>, event: Event) returns (events: seq<Event>)
      ensures events == Absorb(before, event)
    {
      events := before;
      var n := |events|;
      if n > 0 && (event.kind.TextEvent? || event.kind.ReasoningEvent?) && events[n - 1].kind == event.kind {
        var last := events[n - 1].(text := events[n - 1].text + event.text,
                                   reasoning := events[n - 1].reasoning + event.reasoning);
        events := events[..n - 1] + [last];
      } else {
        events := events + [event];
      }
    }

    method AppendAndBroadcastEvent(key: Key, event: Event)
      requires Valid() && key in runs
      modifies this, created.Values
      ensures Valid() && created == old(created)
      ensures View() == Append(old(View()), key, event)
      ensures old(Occurring() && Enabled(View(), DoEmit(key, event))) && event == Stamped(key, old(runs[key]), event)
              ==> Occurring()
    {
      hide FeedsView, CacheView, Publish, EventBytes, Absorb, Occurs, Enabled;
      if Enabled(View(), DoEmit(key, event)) { AppendOccurs(ephemeral, View(), key, event); }
      var run := runs[key];
      if run.limited { return; }
      var size := EventBytes(event);
      if run.spent + size > MAX_PROJECTION_BYTES {
        runs := runs[key := run.(limited := true, canceled := true)];
        return;
      }
      var events := JoinEvent(run.events, event);
      runs := runs[key := run.(spent := run.spent + size, events := events, raw := run.raw + [event])];
      PublishLocked(key, EventUpdate(event));
    }

    method WaitInteraction(key: Key, id: string, prompt: Prompt)
      requires Valid() && key in runs
      modifies this, created.Values
      ensures Valid() && created == old(created)
      ensures View() == Interact(old(View()), key, id, prompt)
      ensures old(Occurring() && Enabled(View(), DoInteract(key, id, prompt))) ==> Occurring()
    {
      hide FeedsView, CacheView, Publish, Occurs, Enabled;
      if Enabled(View(), DoInteract(key, id, prompt)) { InteractOccurs(ephemeral, View(), key, id, prompt); }
      var run := runs[key];
      if run.canceled { return; }
      var p := Pending(id, key.session, run.id, prompt);
      runs := runs[key := run.(phase := Waiting, pending := Some(p), mailbox := None, pc := Blocked(p))];
      log := log.(used := log.used + {id});
      PublishLocked(key, InteractionUpdate(p));
    }

    /** The interaction is consumed and its resolution fanned out. */
    method ResolveLocked(key: Key)
      requires Valid() && key in runs && runs[key].pending.Some?
      modifies this, created.Values
      ensures Valid() && created == old(created)
      ensures View() == Resolve(old(View()), key)
    {
      hide FeedsView, CacheView, Publish;
      var run := runs[key];
      var p := run.pending.value;
      runs := runs[key := run.(pending := None, phase := Running)];
      log := log.(answered := log.answered + {p.id});
      PublishLocked(key, ResolvedUpdate(p));
    }

    method ReplyTo(key: Key, runId: string, id: string, answer: Answer) returns (r: Result<()>)
      requires Valid()
      modifies this, created.Values
      ensures Valid() && created == old(created)
      ensures (View(), r) == Answered(old(View()), key, runId, id, answer)
      ensures old(Occurring() && Enabled(View(), DoReply(key, runId, id, answer))) ==> Occurring()
    {
      hide FeedsView, CacheView, Resolve, Occurs, Enabled;
      if Enabled(View(), DoReply(key, runId, id, answer)) { AnsweredOccurs(ephemeral, View(), key, runId, id, answer); }
      if key !in runs { return Err(StaleInteraction); }
      var run := runs[key];
      if run.id != runId || run.pending.None? || run.pending.value.id != id
         || run.pending.value.prompt.Permission? != answer.PermissionAnswer? || run.canceled {
        return Err(StaleInteraction);
      }
      var p := run.pending.value;
      if answer.AskAnswer? && (answer.selected < -1 || answer.selected >= |p.prompt.options|) {
        return Err(BadSelection);
      }
      ResolveLocked(key);
      ResolveKeepsRun(old(View()), key);
      runs := runs[key := runs[key].(mailbox := Some(Reply(id, answer)))];
      return Ok(());
    }

    /** OnPersist: the commit is entered only while the run's context is alive. */
    method OnPersist(key: Key) returns (ok: bool)
      requires key in runs && runs[key].pc.Gate?
      modifies `runs
      ensures View() == WithRun(old(View()), key, EnterPersist(old(runs[key])))
      ensures ok <==> !old(runs[key].canceled)
      ensures old(Occurring() && Enabled(View(), DoEnterPersist(key))) ==> Occurring()
    {
      hide FeedsView, CacheView, Occurs, Enabled;
      if Enabled(View(), DoEnterPersist(key)) { PersistOccurs(ephemeral, View(), key); }
      var run := runs[key];
      ok := !run.canceled;
      if ok {
        runs := runs[key := run.(phase := Persisting, pc := Saving(run.pc.result))];
      } else {
        runs := runs[key := run.(pc := Deciding(Some(run.pc.result), OtherError("context canceled")))];
      }
    }

    /** The commit sequence of RunPrepared after OnPersist. */
    method SaveResult(key: Key, ok: bool, text: string)
      requires key in runs && runs[key].pc.Saving?
      modifies `runs, `disk
      ensures View() == Commit(old(View()), key, ok, text)
      ensures old(Occurring() && Enabled(View(), DoCommit(key, ok, text))) ==> Occurring()
    {
      hide FeedsView, CacheView, WithoutSystem, Occurs, Enabled;
      if Enabled(View(), DoCommit(key, ok, text)) { CommitOccurs(ephemeral, View(), key, ok, text); }
      var run := runs[key];
      var result := run.pc.result;
      var saved := ComputeWithoutSystem(result);
      if ok {
        disk := disk[At(ephemeral, key) := run.record.(messages := saved)];
        runs := runs[key := run.(pc := Deciding(Some(result), NoError))];
      } else {
        runs := runs[key := run.(pc := Deciding(Some(result), SaveError("persistence failed: " + text)))];
      }
    }

    /** The outcome switch: limit, failed save, cancellation, failure, success, in that order. */
    method JudgeRun(key: Key) returns (outcome: Outcome)
      requires key in runs && runs[key].pc.Judging?
      modifies `runs
      ensures View() == WithRun(old(View()), key, Judge(key, old(runs[key]), ephemeral))
      ensures runs[key].pc.Finishing? && outcome == runs[key].pc.verdict
      ensures old(Occurring() && Enabled(View(), DoJudge(key))) ==> Occurring()
    {
      hide Occurs, Enabled, FeedsView, CacheView, Verdict;
      if Enabled(View(), DoJudge(key)) { JudgeOccurs(ephemeral, View(), key); }
      outcome := OutcomeOf(key);
      runs := runs[key := runs[key].(pc := Finishing(runs[key].pc.produced, outcome))];
    }

    method OutcomeOf(key: Key) returns (outcome: Outcome)
      requires key in runs && runs[key].pc.Judging?
      ensures outcome == Verdict(key, runs[key], ephemeral)
    {
      var run := runs[key];
      var err := run.pc.err;
      outcome := Outcome(key.session, run.id, Succeeded, !ephemeral, "", "");
      if run.pc.sawLimit {
        outcome := Outcome(key.session, run.id, Failed, false, LIMIT_TEXT, "projection_limit");
      } else if err.SaveError? {
        outcome := Outcome(key.session, run.id, PersistenceFailed, false, err.text, "persistence_failed");
      } else if run.canceled && !run.pc.sawPersisting {
        outcome := Outcome(key.session, run.id, Canceled, false, "run canceled", "canceled");
      } else if err.OtherError? {
        outcome := Outcome(key.session, run.id, Failed, false, err.text, "execution_failed");
      }
    }

    /** What finish keeps of a run: its projection, or the history it leaves behind. */
    method FinalOf(key: Key) returns (snap: Snapshot)
      requires key in runs && runs[key].pc.Finishing?
      ensures snap == FinalSnapshot(key, runs[key])
    {
      hide WithoutSystem;
      var run := runs[key];
      var outcome := run.pc.verdict;
      snap := RunSnapshot(key, run);
      snap := snap.(running := false, pending := None, outcome := Some(outcome),
                    unsavedAvailable := !outcome.status.Succeeded?);
      if run.pc.produced.Some? && (outcome.status.Succeeded? || outcome.status.PersistenceFailed?) {
        var messages := ComputeWithoutSystem(run.pc.produced.value);
        snap := snap.(messages := Some(messages), events := []);
      }
    }

    method FinishRun(key: Key)
      requires Valid() && key in runs && runs[key].pc.Finishing?
      modifies this, created.Values
      ensures Valid() && created == old(created)
      ensures View() == Finish(old(View()), key)
      ensures old(Occurring() && Enabled(View(), DoFinish(key))) ==> Occurring()
    {
      hide FeedsView, CacheView, Publish, Retain, FinalSnapshot, Occurs, Enabled;
      if Enabled(View(), DoFinish(key)) { FinishOccurs(ephemeral, View(), key); }
      var run := runs[key];
      var snap := FinalOf(key);
      RetainLocked(key, snap);
      PublishLocked(key, OutcomeUpdate(run.pc.verdict));
      runs := runs - {key};
      log := log.(ended := log.ended + {run.id});
    }

    method CancelRun(key: Key, runId: string) returns (r: Result<()>)
      modifies `runs
      ensures (View(), r) == Cancel(old(View()), key, runId)
      ensures old(Occurring() && Enabled(View(), DoCancel(key, runId))) ==> Occurring()
    {
      hide Occurs, Enabled;
      if Enabled(View(), DoCancel(key, runId)) { CancelOccurs(ephemeral, View(), key, runId); }
      if key !in runs || runId == "" || runs[key].id != runId { return Err(RunNotFound); }
      if !runs[key].phase.Persisting? {
        runs := runs[key := runs[key].(canceled := true)];
      }
      return Ok(());
    }

    // ---- Subscriptions ----

    /** A new queue with its first update; it is registered when the update fits. */
    method AddSubscription(key: Key, id: nat, u: Update) returns (sub: Subscription, ok: bool)
      requires Valid() && id !in created
      modifies `subs, `created
      ensures Valid() && fresh(sub) && created == old(created)[id := sub]
      ensures (FeedsView(), ok) == AddSub(old(FeedsView()), id, key, u)
    {
      hide Enqueued;
      ghost var before := FeedsView();
      sub := new Subscription(key, id);
      ok := sub.Enqueue(u);
      assert (sub.View(), ok) == Enqueued(NewSub(key), u);
      assert FeedsView() == before;
      Register(id, sub, ok);
    }

    method Register(id: nat, sub: Subscription, ok: bool)
      requires Valid() && id !in created && sub.id == id
      modifies `subs, `created
      ensures Valid() && created == old(created)[id := sub]
      ensures var f := old(FeedsView());
              FeedsView() == Feeds(f.subs[id := sub.View()], if ok then f.registered + {id} else f.registered)
    {
      ghost var before := FeedsView();
      created := created[id := sub];
      if ok { subs := subs[id := sub]; }
      assert FeedsView().subs == before.subs[id := sub.View()];
    }

    method SubscribeTo(key: Key, requestId: string, id: nat, io: Io) returns (r: Result<Subscription>)
      requires Valid() && id !in created
      modifies this
      ensures Valid()
      ensures var (t, spec) := Subscribe(old(View()), key, requestId, id, io);
              && View() == t
              && (r.Ok? <==> spec.Ok?) && (r.Err? ==> r.error == spec.error)
              && (r.Ok? ==> fresh(r.value) && id in created && created[id] == r.value)
      ensures old(Occurring() && Enabled(View(), DoSubscribe(key, requestId, id, io))) ==> Occurring()
    {
      hide FeedsView, CacheView, AddSub, CurrentSnapshot, Occurs, Enabled;
      if Enabled(View(), DoSubscribe(key, requestId, id, io)) {
        SubscribeOccurs(ephemeral, View(), key, requestId, id, io);
      }
      if stopped { return Err(EngineStopped); }
      var snap := SnapshotLocked(key, io);
      if snap.Err? { return Err(snap.error); }
      var sub, ok := AddSubscription(key, id, SnapshotUpdate(requestId, snap.value));
      return if ok then Ok(sub) else Err(SlowQueue);
    }

    method ResnapshotTo(id: nat, requestId: string, io: Io) returns (r: Result<()>)
      requires Valid()
      modifies this, created.Values
      ensures Valid() && created == old(created)
      ensures (View(), r) == Resnapshot(old(View()), id, requestId, io)
      ensures old(Occurring() && Enabled(View(), DoResnapshot(id, requestId, io))) ==> Occurring()
    {
      hide CacheView, Offer, CurrentSnapshot, Occurs, Enabled;
      if Enabled(View(), DoResnapshot(id, requestId, io)) { ResnapshotOccurs(ephemeral, View(), id, requestId, io); }
      if id !in subs { return Err(SlowQueue); }
      var snap := SnapshotLocked(subs[id].key, io);
      if snap.Err? { return Err(snap.error); }
      var ok := OfferTo(id, SnapshotUpdate(requestId, snap.value));
      return if ok then Ok(()) else Err(SlowQueue);
    }

    /** The unsubscribe closure of a subscription. */
    method UnsubscribeFrom(sub: Subscription)
      requires Valid() && sub.id in created && created[sub.id] == sub
      modifies `subs, sub
      ensures Valid() && created == old(created)
      ensures FeedsView() == Unsubscribe(old(FeedsView()), sub.id)
      ensures subs.Keys == old(subs.Keys) - {sub.id}
      ensures old(Occurring()) ==> Occurring()
    {
      hide Occurs;
      UnsubscribeOccurs(ephemeral, View(), sub.id);
      subs := subs - {sub.id};
      sub.CloseQueue();
      assert FeedsView().subs == old(FeedsView()).subs[sub.id := Shut(old(sub.View()))];
    }

    // ---- Store mutations and listings ----

    method MutateSession(key: Key, m: Mutation, io: Io) returns (r: Result<()>)
      requires Valid()
      modifies `stores, `disk, `terminal, `retainedOrder, `retainedBytes
      ensures (View(), r) == Mutate(old(View()), key, m, io)
      ensures old(Occurring() && Enabled(View(), DoMutate(key, m, io))) ==> Occurring()
    {
      hide FeedsView, CacheView, Drop, Occurs, Enabled;
      if Enabled(View(), DoMutate(key, m, io)) { MutateOccurs(ephemeral, View(), key, m, io); }
      if stopped { return Err(EngineStopped); }
      if key in runs { return Err(SessionBusy); }
      StoreLocked(key.workspace);
      if !io.leaseOk { return Err(LeaseDenied); }
      if key.session == "" { return Err(BadSession); }
      var at := At(ephemeral, key);
      match m {
        case Create(title) =>
          if !io.writeOk { return Err(SaveFailed); }
          disk := disk[at := Record(key.session, title, [])];
          DropTerminalLocked(key);
        case Delete =>
          if !io.writeOk { return Err(SaveFailed); }
          disk := disk - {at};
          DropTerminalLocked(key);
        case Rename(title) =>
          if !io.loadOk { return Err(LoadFailed); }
          if at !in disk { return Err(NotFound); }
          if !io.writeOk { return Err(SaveFailed); }
          disk := disk[at := disk[at].(title := title)];
      }
      return Ok(());
    }

    method BeginList(workspace: string) returns (r: Result<()>)
      modifies `stores, `listWorkers
      ensures (View(), r) == ListBegin(old(View()), workspace)
      ensures old(Occurring() && Enabled(View(), DoListBegin(workspace))) ==> Occurring()
    {
      hide Occurs, Enabled;
      if Enabled(View(), DoListBegin(workspace)) { ListBeginOccurs(ephemeral, View(), workspace); }
      if stopped { return Err(EngineStopped); }
      StoreLocked(workspace);
      listWorkers := listWorkers + 1;
      return Ok(());
    }

    // ---- Shutdown ----

    /** Cancels every run that is not committing, and remembers them all. */
    method CancelRuns() returns (captured: set<string>)
      modifies `runs
      ensures runs == CancelAll(old(runs)) && captured == RunIds(old(runs))
    {
      hide RunIds;
      captured := {};
      ghost var before := runs;
      var todo := runs.Keys;
      ghost var none := map k | k in before && k !in todo :: before[k];
      NoneCaptured(none);
      while todo != {}
        invariant todo <= runs.Keys == before.Keys
        invariant forall k <- runs :: runs[k] ==
                    if k in todo || before[k].phase.Persisting? then before[k] else before[k].(canceled := true)
        invariant captured == RunIds(map k | k in before && k !in todo :: before[k])
        decreases todo
      {
        var k :| k in todo;
        assert runs[k].id == before[k].id;
        CapturedOne(before, todo - {k}, k);
        assert todo == todo - {k} + {k};
        todo := todo - {k};
        captured := captured + {runs[k].id};
        if !runs[k].phase.Persisting? {
          runs := runs[k := runs[k].(canceled := true)];
        }
      }
      assert runs == CancelAll(before);
      assert (map k | k in before && k !in todo :: before[k]) == before;
    }

    /** The first locked block of Shutdown: stop, and cancel every run that is not committing. */
    method BeginShutdown(ghost caller: nat) returns (captured: set<string>)
      modifies `stopped, `runs, `shutdowns
      ensures View() == ShutdownBegin(old(View()), caller)
      ensures captured == RunIds(old(runs))
      ensures old(Occurring() && Enabled(View(), DoShutdownBegin(caller))) ==> Occurring()
    {
      hide FeedsView, CacheView, RunIds, CancelAll, Occurs, Enabled;
      if Enabled(View(), DoShutdownBegin(caller)) { ShutdownBeginOccurs(ephemeral, View(), caller); }
      stopped := true;
      captured := CancelRuns();
      shutdowns := shutdowns[caller := Draining(captured)];
    }

    method CloseQueues()
      requires Valid()
      modifies `subs, created.Values
      ensures Valid() && created == old(created)
      ensures FeedsView() == CloseAll(old(FeedsView()))
    {
      hide ClosePart, CloseAll, Unsubscribe;
      ghost var before := FeedsView();
      CloseEnds(before);
      while subs.Keys != {}
        invariant Valid() && created == old(created) && subs.Keys <= before.registered
        invariant FeedsView() == ClosePart(before, subs.Keys)
        decreases subs.Keys
      {
        var i :| i in subs;
        CloseOne(before, subs.Keys, i);
        assert i in created && created[i] == subs[i] && created[i].id == i;
        UnsubscribeFrom(subs[i]);
      }
    }

    /** The last locked block of Shutdown: every queue is closed, every store is closed. */
    method CloseShutdown(ghost caller: nat)
      requires Valid() && caller in shutdowns && shutdowns[caller].Closing?
      modifies this, created.Values
      ensures Valid() && created == old(created)
      ensures View() == ShutdownClose(old(View()), caller)
      ensures old(Occurring() && Enabled(View(), DoShutdownClose(caller))) ==> Occurring()
    {
      hide FeedsView, CacheView, CloseAll, Occurs, Enabled;
      if Enabled(View(), DoShutdownClose(caller)) { ShutdownCloseOccurs(ephemeral, View(), caller); }
      CloseQueues();
      stores := {};
      shutdowns := shutdowns[caller := Drained];
    }
  }
}
