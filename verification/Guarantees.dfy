/** What the coordinator promises over every interleaving of turns, replies, cancels, subscribers,
    readers, store mutations, listings and shutdowns: in every state that occurs in some run, and for every
    state some run leads to from it. */
module Guarantees {
  import opened Transcript
  import opened Subscriptions
  import opened Retention
  import opened Service
  import opened Grammar
  import opened CoordinatorSpec
  import opened RunInvariants
  import opened StateInvariants
  import opened FeedInvariants
  import opened FeedSteps
  import opened Progress

  /** The run with this id is the active run of the session. */
  predicate Active(s: State, key: Key, id: string) { key in s.runs && s.runs[key].id == id }

  lemma LaterOn(ephemeral: bool, s: State, t: State)
    requires Occurs(ephemeral, s) && Later(s, t)
    ensures SystemInv(s) && SystemInv(t) && Grows(s, t)
  {
    hide SystemInv, Grows;
    var before :| Reach(Initial(ephemeral), before) == s;
    var later :| Reach(s, later) == t;
    Reachable(ephemeral, before);
    ReachGrows(s, later);
  }

  lemma OccursHolds(ephemeral: bool, s: State)
    requires Occurs(ephemeral, s)
    ensures SystemInv(s) && s.ephemeral == ephemeral
  {
    assert Later(Initial(ephemeral), Initial(ephemeral)) by { Stay(Initial(ephemeral)); }
    hide SystemInv, RunsEvolve, Quiets, Later;
    LaterOn(ephemeral, Initial(ephemeral), s);
  }

  lemma SystemCache(s: State)
    requires SystemInv(s)
    ensures CacheInv(s.cache)
  {
    hide FeedsInv, RunsInv, EndsInv, IdInv, ShutdownInv, CacheInv;
  }

  lemma Stay(s: State)
    ensures Later(s, s)
  {
    assert Reach(s, []) == s;
  }

  lemma OccursOn(ephemeral: bool, s: State, actions: seq<Action>)
    requires Occurs(ephemeral, s)
    ensures Occurs(ephemeral, Reach(s, actions))
  {
    var before :| Reach(Initial(ephemeral), before) == s;
    ReachConcat(Initial(ephemeral), before, actions);
  }

  lemma {:induction false} ReachConcat(s: State, a: seq<Action>, b: seq<Action>)
    ensures Reach(Reach(s, a), b) == Reach(s, a + b)
    decreases |b|
  {
    hide Step;
    if b == [] {
      assert a + b == a;
    } else {
      assert (a + b)[..|a + b| - 1] == a + b[..|b| - 1];
      ReachConcat(s, a, b[..|b| - 1]);
    }
  }

  // ---- Truthful outcomes ----

  /** The outcome a run is about to publish says exactly what happened to the store: persisted means the
      record holds the filtered result and nothing else changed, anything else means it is untouched.
      An ephemeral engine never claims to have persisted; what its memory keeps is `ConversationSurvives`. */
  lemma OutcomeIsTruthful(ephemeral: bool, s: State, key: Key)
    requires Occurs(ephemeral, s)
    requires key in s.runs && s.runs[key].pc.Finishing?
    ensures var r := s.runs[key];
            var o := r.pc.verdict;
            && o.runId == r.id && o.sessionId == key.session
            && (r.phase.Persisting? <==> (o.status.Succeeded? && !ephemeral) || o.status.PersistenceFailed?)
            && (o.status.Canceled? ==> r.canceled)
            && (o.persisted <==> o.status.Succeeded? && !ephemeral)
            && (o.status.Succeeded? || o.status.PersistenceFailed? ==> r.pc.produced.Some?)
            && (!ephemeral ==>
                  && key in s.disk
                  && s.disk[key] == if o.persisted then r.record.(messages := WithoutSystem(r.pc.produced.value))
                                    else r.record)
  {
    hide FeedsInv, StateInv, Stamps, Projection, Faithful;
    OccursHolds(ephemeral, s);
    RunOf(s, key);
  }

  /** Once a cancel has landed before the commit, this run never enters the commit, its record stays what
      it was at reservation, and the outcome it ends with is not a success of a persistent engine. */
  lemma CanceledRunNeverSaves(ephemeral: bool, s: State, t: State, key: Key)
    requires Occurs(ephemeral, s) && Later(s, t)
    requires key in s.runs
    requires var r := s.runs[key]; r.canceled && !r.phase.Persisting?
    ensures Active(t, key, s.runs[key].id) ==>
              && t.runs[key].canceled && !t.runs[key].phase.Persisting? && !t.runs[key].pc.Saving?
              && (!ephemeral ==> key in t.disk && t.disk[key] == s.runs[key].record)
              && (t.runs[key].pc.Finishing? ==> !t.runs[key].pc.verdict.persisted)
  {
    LaterOn(ephemeral, s, t);
    OccursHolds(ephemeral, s);
    if Active(t, key, s.runs[key].id) {
      ActiveEvolves(s, t, key);
      UncommittedOnDisk(t, key);
    }
  }

  lemma ActiveEvolves(s: State, t: State, key: Key)
    requires Grows(s, t) && SystemInv(t) && key in s.runs && Active(t, key, s.runs[key].id)
    ensures Evolves(s.runs[key], t.runs[key])
  {
    hide Quiets, FeedsInv, CacheInv, RunsInv, EndsInv, ShutdownInv, Evolves;
  }

  lemma UncommittedOnDisk(s: State, key: Key)
    requires SystemInv(s) && key in s.runs && !s.runs[key].phase.Persisting?
    ensures !s.runs[key].pc.Saving? && (!s.ephemeral ==> key in s.disk && s.disk[key] == s.runs[key].record)
    ensures s.runs[key].pc.Finishing? ==> !s.runs[key].pc.verdict.persisted
  {
    hide FeedsInv, StateInv, Stamps, Projection, Faithful;
    RunOf(s, key);
  }

  /** Once a run is persisting, no cancel and no shutdown reaches it: its context stays alive, and it ends
      succeeded or persistence_failed. */
  lemma CommitIsNotInterrupted(ephemeral: bool, s: State, t: State, key: Key)
    requires Occurs(ephemeral, s) && Later(s, t)
    requires key in s.runs && s.runs[key].phase.Persisting?
    ensures Active(t, key, s.runs[key].id) ==>
              && t.runs[key].phase.Persisting? && !t.runs[key].canceled
              && (t.runs[key].pc.Finishing? ==>
                    t.runs[key].pc.verdict.status.Succeeded? || t.runs[key].pc.verdict.status.PersistenceFailed?)
  {
    hide RunsEvolve, Quiets, FeedsInv, StateInv;
    LaterOn(ephemeral, s, t);
    if Active(t, key, s.runs[key].id) {
      ActiveEvolves(s, t, key);
      RunControl(s, key);
      RunControl(t, key);
    }
  }

  // ---- No lost updates ----

  /** Until its own commit an active run's stored record is the one it loaded, so the commit replaces the
      messages of exactly that record and loses nothing anybody else wrote. */
  lemma CommitChangesOnlyMessages(ephemeral: bool, s: State, key: Key, text: string)
    requires Occurs(ephemeral, s)
    requires key in s.runs && s.runs[key].pc.Saving?
    ensures && !ephemeral && key in s.disk && s.disk[key] == s.runs[key].record
            && Commit(s, key, true, text).disk
               == s.disk[key := s.disk[key].(messages := WithoutSystem(s.runs[key].pc.result))]
            && Commit(s, key, false, text).disk == s.disk
  {
    hide FeedsInv, StateInv, Stamps, Projection, Faithful;
    OccursHolds(ephemeral, s);
    RunOf(s, key);
  }

  /** Until its own commit nobody touches the stored record of an active run of a persistent engine: what is
      stored for it at any later moment of the run is what is stored now, and what the run was started from. */
  lemma RecordStaysUntilCommit(s: State, t: State, key: Key)
    requires Occurs(false, s) && Later(s, t)
    requires key in s.runs && Active(t, key, s.runs[key].id) && !t.runs[key].phase.Persisting?
    ensures key in s.disk && key in t.disk && t.disk[key] == s.disk[key] == t.runs[key].record
  {
    hide Later, Grows;
    LaterOn(false, s, t);
    OccursHolds(false, s);
    ActiveEvolves(s, t, key);
    ModeIsKept(s, t);
    hide SystemInv;
    UncommittedOnDisk(s, key);
    UncommittedOnDisk(t, key);
  }

  lemma ModeIsKept(s: State, t: State)
    requires Grows(s, t)
    ensures t.ephemeral == s.ephemeral
  {
    hide RunsEvolve, Quiets;
  }

  /** Creating or deleting a session starts its record anew. In an ephemeral engine that is so for the same
      id in any workspace. */
  predicate Resets(ephemeral: bool, a: Action, key: Key) {
    a.DoMutate? && At(ephemeral, a.key) == At(ephemeral, key) && (a.mutation.Create? || a.mutation.Delete?)
  }

  lemma SavingIsPersistent(s: State, key: Key)
    requires SystemInv(s) && key in s.runs && s.runs[key].pc.Saving?
    ensures !s.ephemeral && key in s.disk && s.disk[key] == s.runs[key].record && Faithful(s.runs[key])
  {
    hide FeedsInv, StateInv, Stamps, Projection, Faithful;
    RunOf(s, key);
  }

  lemma SavedContainsStored(s: State, key: Key)
    requires SystemInv(s) && key in s.runs && s.runs[key].pc.Saving?
    ensures Subsequence(WithoutSystem(StoredMessages(s, key)), WithoutSystem(WithoutSystem(s.runs[key].pc.result)))
  {
    hide SystemInv;
    SavingIsPersistent(s, key);
    var r := s.runs[key];
    SubsequenceTrans(HistoryFrom(r.record.messages), r.messages, r.pc.result);
    HistoryKeepsConversation(r.record.messages);
    WithoutSystemMonotone(HistoryFrom(r.record.messages), r.pc.result);
    WithoutSystemTwice(r.pc.result);
  }

  lemma {:induction false} WithoutSystemTwice(messages: seq<Message>)
    ensures WithoutSystem(WithoutSystem(messages)) == WithoutSystem(messages)
  {
    if messages != [] {
      var init, m := messages[..|messages| - 1], messages[|messages| - 1];
      WithoutSystemTwice(init);
      if m.role == SystemRole {
        assert WithoutSystem(init) + [] == WithoutSystem(init);
      } else {
        assert (WithoutSystem(init) + [m])[..|WithoutSystem(init)|] == WithoutSystem(init);
      }
    }
  }

  lemma ConversationStep(s: State, a: Action, key: Key)
    requires SystemInv(s) && !Resets(s.ephemeral, a, key)
    ensures Subsequence(WithoutSystem(StoredMessages(s, key)), WithoutSystem(StoredMessages(Step(s, a), key)))
    ensures s.ephemeral ==> StoredMessages(Step(s, a), key) == StoredMessages(s, key)
  {
    hide SystemInv, Perform, Step;
    if a.DoCommit? && Enabled(s, a) { SavingIsPersistent(s, a.key); }
    ModeIsFixed(s, a);
    DiskStep(s, a, key);
    var t := Step(s, a);
    if a.DoCommit? && a.key == key && Enabled(s, a) && a.ok {
      SavedContainsStored(s, key);
    } else {
      SubsequenceRefl(WithoutSystem(StoredMessages(s, key)));
    }
  }

  /** What one step does to the messages stored under a key, when it does not recreate or delete it. */
  lemma DiskStep(s: State, a: Action, key: Key)
    requires !Resets(s.ephemeral, a, key) && (a.DoCommit? && Enabled(s, a) ==> !s.ephemeral)
    requires Step(s, a).ephemeral == s.ephemeral
    ensures if a.DoCommit? && a.key == key && Enabled(s, a) && a.ok
            then StoredMessages(Step(s, a), key) == WithoutSystem(s.runs[key].pc.result)
            else StoredMessages(Step(s, a), key) == StoredMessages(s, key)
  {
    hide Publish, Retain, Drop, RunSnapshot, HistoryFrom, MessagesBytes, WithoutSystem, Absorb, AddSub, Offer,
      FinalSnapshot,
      Append, Interact, Answered, Cancel;
    if Enabled(s, a) {
      if a.DoReserve? { ReserveDisk(s, a.key, a.incoming, a.runId, a.title, a.io, key); }
      else if a.DoMutate? { MutateDisk(s, a, key); }
      else if a.DoCommit? { CommitDisk(s, a, key); }
      else { OtherStepsKeepDisk(s, a); }
    }
    hide Enabled;
  }

  lemma MutateDisk(s: State, a: Action, key: Key)
    requires Enabled(s, a) && a.DoMutate? && !Resets(s.ephemeral, a, key)
    ensures StoredMessages(Perform(s, a), key) == StoredMessages(s, key)
  {
    hide Drop;
  }

  lemma CommitDisk(s: State, a: Action, key: Key)
    requires Enabled(s, a) && a.DoCommit? && !s.ephemeral
    ensures StoredMessages(Perform(s, a), key) ==
            if a.key == key && a.ok then WithoutSystem(s.runs[key].pc.result) else StoredMessages(s, key)
  {
    hide WithoutSystem;
  }

  lemma ModeIsFixed(s: State, a: Action)
    requires SystemInv(s)
    ensures Step(s, a).ephemeral == s.ephemeral
  {
    hide StateInv, FeedsInv, Step, RunsEvolve, Quiets;
    StepGrows(s, a);
  }

  lemma ReserveDisk(s: State, at: Key, incoming: seq<Message>, runId: string, title: string, io: Io, key: Key)
    ensures StoredMessages(Reserve(s, at, incoming, runId, title, io).0, key) == StoredMessages(s, key)
  {
    hide Publish, Drop, RunSnapshot, HistoryFrom, MessagesBytes;
  }

  lemma OtherStepsKeepDisk(s: State, a: Action)
    requires Enabled(s, a) && !a.DoReserve? && !a.DoMutate? && !a.DoCommit?
    ensures Perform(s, a).disk == s.disk
  {
    hide Publish, Retain, RunSnapshot, Absorb, AddSub, Offer, FinalSnapshot, CurrentSnapshot, Fits, CloseAll, CancelAll;
    if a.DoSubscribe? { LookupParts(s, a.key, a.io); }
    else if a.DoResnapshot? { if a.sub in s.feeds.subs { LookupParts(s, s.feeds.subs[a.sub].key, a.io); } }
    else if a.DoSnapshot? { LookupParts(s, a.key, a.io); }
    else if a.DoEmit? {} else if a.DoReply? {} else if a.DoInteract? {} else if IsRunStep(a) {}
    else if a.DoShutdownRun? || a.DoShutdownLists? || a.DoShutdownTimeout? {}
    else {}
  }

  lemma {:induction false} FilteredSurvives(ephemeral: bool, s: State, later: seq<Action>, key: Key)
    requires Occurs(ephemeral, s) && forall a <- later :: !Resets(ephemeral, a, key)
    ensures Subsequence(WithoutSystem(StoredMessages(s, key)), WithoutSystem(StoredMessages(Reach(s, later), key)))
    ensures ephemeral ==> StoredMessages(Reach(s, later), key) == StoredMessages(s, key)
    decreases |later|
  {
    hide SystemInv, Step, Grows, Occurs;
    if later == [] {
      SubsequenceRefl(WithoutSystem(StoredMessages(s, key)));
    } else {
      var init := later[..|later| - 1];
      FilteredSurvives(ephemeral, s, init, key);
      var m := Reach(s, init);
      OccursOn(ephemeral, s, init);
      OccursHolds(ephemeral, m);
      ConversationStep(m, later[|later| - 1], key);
      SubsequenceTrans(WithoutSystem(StoredMessages(s, key)), WithoutSystem(StoredMessages(m, key)),
                       WithoutSystem(StoredMessages(Reach(s, later), key)));
    }
  }

  /** Whatever conversation can be read off a session's record, message for message and in order, can be read
      off every later record of that session, until the session is recreated or deleted; an ephemeral engine
      keeps exactly what it has. */
  lemma ConversationSurvives(ephemeral: bool, s: State, later: seq<Action>, key: Key, said: seq<Message>)
    requires Occurs(ephemeral, s) && forall a <- later :: !Resets(ephemeral, a, key)
    requires IsConversation(said) && Subsequence(said, StoredMessages(s, key))
    ensures Subsequence(said, StoredMessages(Reach(s, later), key))
    ensures ephemeral ==> StoredMessages(Reach(s, later), key) == StoredMessages(s, key)
  {
    hide Occurs, Subsequence, StoredMessages, Reach;
    FilteredSurvives(ephemeral, s, later, key);
    var now, before := StoredMessages(Reach(s, later), key), StoredMessages(s, key);
    ConversationIsKept(said, before);
    SubsequenceTrans(said, WithoutSystem(before), WithoutSystem(now));
    WithoutSystemKeepsOrder(now);
    SubsequenceTrans(said, WithoutSystem(now), now);
  }

  /** What is stored for a session, if anything. */
  function RecordAt(s: State, key: Key): Option<Record> {
    if At(s.ephemeral, key) in s.disk then Some(s.disk[At(s.ephemeral, key)]) else None
  }

  /** The mutation asks for something other than what is stored. */
  predicate Changes(s: State, key: Key, m: Mutation) {
    match m
    case Create(title) => RecordAt(s, key) != Some(Record(key.session, title, []))
    case Delete => RecordAt(s, key).Some?
    case Rename(title) => RecordAt(s, key).Some? && RecordAt(s, key).value.title != title
  }

  /** An accepted create, delete or rename changes the stored record of some active run exactly when the
      engine is ephemeral, a run of another workspace has the session's id, and it asks for something other
      than what is stored. */
  lemma MutationHitsActiveRunIff(s: State, key: Key, m: Mutation, io: Io)
    requires Mutate(s, key, m, io).1.Ok?
    ensures var t := Mutate(s, key, m, io).0;
            (exists k <- s.runs :: RecordAt(t, k) != RecordAt(s, k))
            <==> s.ephemeral && (exists k <- s.runs :: k.session == key.session) && Changes(s, key, m)
  {
    hide Drop;
    var t := Mutate(s, key, m, io).0;
    assert key !in s.runs;
    assert RecordAt(t, key) != RecordAt(s, key) <==> Changes(s, key, m);
    forall k <- s.runs
      ensures RecordAt(t, k) != RecordAt(s, k) <==> s.ephemeral && k.session == key.session && Changes(s, key, m)
    {
      assert At(s.ephemeral, k) == At(s.ephemeral, key) <==> s.ephemeral && k.session == key.session;
    }
  }

  /** A turn for a session that does not exist yet, which passes every test but that of its length. */
  predicate StartsSession(s: State, key: Key, incoming: seq<Message>, io: Io) {
    && incoming != [] && !s.stopped && key !in s.runs && io.leaseOk && io.loadOk && io.writeOk
    && At(s.ephemeral, key) !in s.disk
  }

  /** The step is a turn that starts a session, or an accepted mutation that asks for something new. */
  predicate Rewrites(s: State, a: Action) {
    || (a.DoReserve? && StartsSession(s, a.key, a.incoming, a.io))
    || (a.DoMutate? && Mutate(s, a.key, a.mutation, a.io).1.Ok? && Changes(s, a.key, a.mutation))
  }

  /** Apart from its own commit, a step of anything at all changes the stored record of some active run
      exactly when the engine is ephemeral and the step starts or mutates a session with the same id, which is
      then one of another workspace. */
  lemma StepHitsActiveRunIff(ephemeral: bool, s: State, a: Action)
    requires Occurs(ephemeral, s) && Enabled(s, a)
    ensures (exists k <- s.runs :: RecordAt(Step(s, a), k) != RecordAt(s, k) && !(a.DoCommit? && a.key == k))
            <==> ephemeral && Rewrites(s, a) && exists k <- s.runs :: k.session == a.key.session
  {
    hide SystemInv, Occurs, Enabled, Step, Reserve, Mutate, StartsSession, Changes, RecordAt;
    OccursHolds(ephemeral, s);
    ModeIsFixed(s, a);
    if a.DoReserve? {
      ReserveHits(s, a.key, a.incoming, a.runId, a.title, a.io);
      ReserveIsStep(s, a);
    } else if a.DoMutate? {
      MutateIsStep(s, a);
      if Mutate(s, a.key, a.mutation, a.io).1.Ok? { MutationHitsActiveRunIff(s, a.key, a.mutation, a.io); }
      else { RefusedMutation(s, a.key, a.mutation, a.io); }
    } else if a.DoCommit? {
      CommitIsStep(s, a);
      SavingIsPersistent(s, a.key);
      CommitHitsOne(s, a.key, a.ok, a.text);
    } else {
      OtherStepsHitNone(s, a);
    }
  }

  /** A turn that passes every test but the last, for a session that does not exist yet. */
  predicate TooLongForANewSession(s: State, key: Key, incoming: seq<Message>, io: Io) {
    StartsSession(s, key, incoming, io) && MessagesBytes(incoming) > MAX_PROJECTION_BYTES
  }

  /** A refused turn adds no run and tells no one, and leaves every record as it was, unless it is too long
      by itself and its session does not exist yet: then, and only then, it has created the session. */
  lemma RefusedTurn(s: State, key: Key, incoming: seq<Message>, runId: string, title: string, io: Io)
    ensures var (t, r) := Reserve(s, key, incoming, runId, title, io);
            r.Err? ==> t == s.(stores := t.stores, disk := t.disk)
    ensures var (t, r) := Reserve(s, key, incoming, runId, title, io);
            r.Err? && t.disk != s.disk <==> TooLongForANewSession(s, key, incoming, io)
    ensures var (t, r) := Reserve(s, key, incoming, runId, title, io);
            r.Err? && t.disk != s.disk ==> t.disk == s.disk[At(s.ephemeral, key) := Record(key.session, title, [])]
  {
    hide Admit, MessagesBytes;
    var at := At(s.ephemeral, key);
    assert HistoryFrom([]) == [] && [] + incoming == incoming;
    if at !in s.disk { assert s.disk[at := Record(key.session, title, [])] != s.disk; }
  }

  lemma ReserveHits(s: State, key: Key, incoming: seq<Message>, runId: string, title: string, io: Io)
    ensures var t := Reserve(s, key, incoming, runId, title, io).0;
            (exists k <- s.runs :: RecordAt(t, k) != RecordAt(s, k))
            <==> s.ephemeral && StartsSession(s, key, incoming, io) && exists k <- s.runs :: k.session == key.session
  {
    hide Publish, Drop, RunSnapshot, HistoryFrom, MessagesBytes;
    var t := Reserve(s, key, incoming, runId, title, io).0;
    forall k <- s.runs
      ensures RecordAt(t, k) != RecordAt(s, k)
              <==> s.ephemeral && StartsSession(s, key, incoming, io) && k.session == key.session
    {
      assert At(s.ephemeral, k) == At(s.ephemeral, key)
             <==> k == key || (s.ephemeral && k.session == key.session);
    }
  }

  lemma MutateIsStep(s: State, a: Action)
    requires a.DoMutate? && Enabled(s, a)
    ensures Mutate(s, a.key, a.mutation, a.io).0 == Step(s, a)
  {
    hide Mutate;
  }

  lemma RefusedMutation(s: State, key: Key, m: Mutation, io: Io)
    requires Mutate(s, key, m, io).1.Err?
    ensures forall k :: RecordAt(Mutate(s, key, m, io).0, k) == RecordAt(s, k)
  {
    hide Drop;
  }

  lemma CommitIsStep(s: State, a: Action)
    requires a.DoCommit? && Enabled(s, a)
    ensures a.key in s.runs && s.runs[a.key].pc.Saving? && Step(s, a) == Commit(s, a.key, a.ok, a.text)
  {
    hide Commit;
  }

  lemma CommitHitsOne(s: State, key: Key, ok: bool, text: string)
    requires key in s.runs && s.runs[key].pc.Saving? && !s.ephemeral
    ensures forall k :: k != key ==> RecordAt(Commit(s, key, ok, text), k) == RecordAt(s, k)
  {
    hide WithoutSystem;
  }

  lemma OtherStepsHitNone(s: State, a: Action)
    requires Enabled(s, a) && !a.DoReserve? && !a.DoMutate? && !a.DoCommit?
    requires Step(s, a).ephemeral == s.ephemeral
    ensures forall k :: RecordAt(Step(s, a), k) == RecordAt(s, k)
  {
    OtherStepsKeepDisk(s, a);
    hide Perform;
  }

  function LongText(n: nat): string { seq(n, _ => 'x') }

  const FINE := Io(true, true, true)

  function Said(text: string): Message { Message(UserRole, text, "", [], "", "") }

  lemma SaidBytes(text: string)
    ensures MessagesBytes([Said(text)]) == 2 + MESSAGE_FRAME + |text|
  {
    assert [Said(text)][..0] == [];
  }

  /** The very first turn of an engine can be such a turn: no run, no answer, but a record. */
  lemma RefusedTurnLeavesRecord(key: Key)
    requires key.session != ""
    ensures var incoming := [Said(LongText(MAX_PROJECTION_BYTES))];
            var (t, r) := Reserve(Initial(false), key, incoming, "r", "title", FINE);
            && Occurs(false, t) && r.Err? && t.runs == map[] && t.disk == map[key := Record(key.session, "title", [])]
  {
    hide Occurs;
    var incoming := [Said(LongText(MAX_PROJECTION_BYTES))];
    var s := Initial(false);
    var a := DoReserve(key, incoming, "r", "title", FINE);
    SaidBytes(LongText(MAX_PROJECTION_BYTES));
    hide MessagesBytes;
    RefusedTurn(s, key, incoming, "r", "title", FINE);
    ReserveIsStep(s, a);
    Starts(false);
    OneStep(s, a);
    OccursOn(false, s, [a]);
  }

  lemma Starts(ephemeral: bool)
    ensures Occurs(ephemeral, Initial(ephemeral))
  {
    Stay(Initial(ephemeral));
  }

  lemma ReservedRun(s: State, key: Key, incoming: seq<Message>, runId: string, title: string, io: Io)
    requires Reserve(s, key, incoming, runId, title, io).1.Ok?
    ensures var t := Reserve(s, key, incoming, runId, title, io).0;
            key in t.runs && t.runs[key].id == runId
            && t.runs[key].messages == HistoryFrom(StoredMessages(s, key)) + incoming
  {
    hide Publish, Drop, MessagesBytes, RunSnapshot;
    assert HistoryFrom([]) == [];
  }

  /** Whatever happens between its reservation and its commit, whatever conversation could be read off the
      session's record, followed by whatever can be read off the messages the turn was started with, can be
      read off what the turn saves; and no system message is saved. */
  lemma SavedTurnIsComplete(ephemeral: bool, s: State, key: Key, incoming: seq<Message>, runId: string, title: string,
                            io: Io, t: State, text: string)
    requires Occurs(ephemeral, s) && Enabled(s, DoReserve(key, incoming, runId, title, io))
    requires Reserve(s, key, incoming, runId, title, io).1.Ok?
    requires Later(Reserve(s, key, incoming, runId, title, io).0, t)
    requires Active(t, key, runId) && t.runs[key].pc.Saving?
    ensures var saved := StoredMessages(Commit(t, key, true, text), key);
            && IsConversation(saved)
            && forall said, asked | IsConversation(said) && IsConversation(asked) ::
                 Subsequence(said, StoredMessages(s, key)) && Subsequence(asked, incoming) ==>
                 Subsequence(said + asked, saved)
  {
    hide Later, Reserve, Step, Occurs, FeedsInv, StateInv, RunsEvolve, Quiets, Stamps, Projection, OnDisk, Control;
    var a := DoReserve(key, incoming, runId, title, io);
    var u := Reserve(s, key, incoming, runId, title, io).0;
    OneStep(s, a);
    OccursOn(ephemeral, s, [a]);
    assert u == Reach(s, [a]) by { ReserveIsStep(s, a); }
    ReservedRun(s, key, incoming, runId, title, io);
    LaterOn(ephemeral, u, t);
    ActiveEvolves(u, t, key);
    RunOf(t, key);
    TurnKeepsConversation(StoredMessages(s, key), incoming, t.runs[key].pc.result);
  }

  lemma ReserveIsStep(s: State, a: Action)
    requires a.DoReserve? && Enabled(s, a)
    ensures Reserve(s, a.key, a.incoming, a.runId, a.title, a.io).0 == Step(s, a)
  {
    hide Reserve;
  }

  // ---- Delivery ----

  /** Every subscriber, registered or not, has been told things in a legal order, and what its reader has
      been handed is a prefix of that. A subscriber is registered exactly while its queue is open. */
  lemma DeliveryIsOrdered(ephemeral: bool, s: State, i: nat)
    requires Occurs(ephemeral, s)
    requires i in s.feeds.subs
    ensures var sub := s.feeds.subs[i];
            && Legal(sub.key.session, sub.accepted) && sub.delivered <= sub.accepted
            && (i in s.feeds.registered <==> !sub.closed)
            && (!sub.closed ==> sub.bytes == SizeOf(Held(sub.reader) + sub.queue) <= MAX_SUBSCRIPTION_BYTES)
  {
    hide StateInv, Follows;
    OccursHolds(ephemeral, s);
  }

  /** A registered subscriber stands where the coordinator stands: told of the active run and its open
      prompt if there is one, and otherwise told that no run is active. */
  lemma SubscriberIsCurrent(ephemeral: bool, s: State, i: nat)
    requires Occurs(ephemeral, s)
    requires i in s.feeds.registered
    ensures && i in s.feeds.subs
            && var sub := s.feeds.subs[i];
               TrackOf(sub.key.session, sub.accepted).feed ==
               if sub.key in s.runs then RunFeed(s.runs[sub.key]) else Quiet
  {
    hide StateInv, QueueInv, FreshView;
    OccursHolds(ephemeral, s);
  }

  // ---- The cache and the budgets ----

  /** Active runs and cached ends have disjoint keys, and the cache's books are exact. */
  lemma CacheIsExact(ephemeral: bool, s: State)
    requires Occurs(ephemeral, s)
    ensures && CacheInv(s.cache) && s.runs.Keys !! s.cache.terminal.Keys
            && (s.cache.bytes <= MAX_RETAINED_BYTES
                <==> forall k <- s.cache.terminal :: SnapshotBytes(s.cache.terminal[k]) <= MAX_RETAINED_BYTES)
  {
    hide FeedsInv, RunsInv, IdInv, ShutdownInv, EndInv, CacheInv;
    OccursHolds(ephemeral, s);
    BudgetHoldsIff(s.cache);
  }

  /** Evicting a persisted success that is still whole does not change the messages a snapshot returns. */
  lemma EvictionIsTransparent(ephemeral: bool, s: State, key: Key)
    requires Occurs(ephemeral, s)
    requires key.session != "" && key in s.cache.terminal && s.cache.terminal[key].outcome.Some?
             && s.cache.terminal[key].outcome.value.persisted && !s.cache.terminal[key].projectionUnavailable
    ensures var io := Io(true, true, true);
            var cached := CurrentSnapshot(s, key, io).1;
            var loaded := CurrentSnapshot(s.(cache := Drop(s.cache, key)), key, io).1;
            && cached.Ok? && loaded.Ok? && cached.value.messages.Some?
            && loaded.value.messages == cached.value.messages
            && loaded.value.events == cached.value.events == []
  {
    hide FeedsInv, RunsInv, IdInv, ShutdownInv, CacheInv;
    OccursHolds(ephemeral, s);
    assert key !in s.runs && EndInv(key, s.cache.terminal[key], s.disk, s.ephemeral);
  }

  /** The projection of an active run is the joining of exactly the events it has published, its counter is
      the exact raw size, the budget holds, and the live snapshot is within it. */
  lemma ProjectionIsBounded(ephemeral: bool, s: State, key: Key)
    requires Occurs(ephemeral, s)
    requires key in s.runs
    ensures var r := s.runs[key];
            && r.events == Coalesce(r.raw)
            && r.spent == MessagesBytes(r.messages) + EventsBytes(r.raw)
            && MessagesBytes(r.messages) + EventsBytes(r.events) <= r.spent <= MAX_PROJECTION_BYTES
            && (r.limited ==> r.canceled)
  {
    hide FeedsInv, StateInv, Stamps, Faithful, OnDisk;
    OccursHolds(ephemeral, s);
    RunOf(s, key);
    CoalesceShrinks(s.runs[key].raw);
  }

  /** The first event that does not fit ends the stream: from then on nothing is published for the run, in
      any continuation, and it can only end as failed with projection_limit. */
  lemma LimitEndsTheStream(ephemeral: bool, s: State, t: State, key: Key)
    requires Occurs(ephemeral, s) && Later(s, t)
    requires key in s.runs && s.runs[key].limited
    ensures Active(t, key, s.runs[key].id) ==>
              && t.runs[key].limited && t.runs[key].raw == s.runs[key].raw && t.runs[key].events == s.runs[key].events
              && (t.runs[key].pc.Finishing? ==>
                    t.runs[key].pc.verdict.status.Failed? && t.runs[key].pc.verdict.code == "projection_limit")
  {
    hide RunsEvolve, Quiets, FeedsInv, StateInv;
    LaterOn(ephemeral, s, t);
    if Active(t, key, s.runs[key].id) {
      ActiveEvolves(s, t, key);
      RunControl(t, key);
    }
  }

  /** A turn whose runner cannot be created, from the first step of an engine to its end. */
  lemma FailedStart(key: Key, text: string) returns (s: State)
    requires key.session != ""
    ensures Occurs(false, s)
    ensures var o := Outcome(key.session, "r", Failed, false, text, "runner_creation_failed");
            var snap := Snapshot(key.session, "r", false, Some([Said("hi")]), [], None, Some(o), true, false);
            s.cache.terminal == map[key := Stripped(snap)] && s.cache.bytes == SnapshotBytes(Stripped(snap))
  {
    hide Occurs, Stripped, SnapshotBytes, Retain, Publish;
    var record := Record(key.session, "", []);
    var run := NewRun(key, "r", record, [Said("hi")]);
    var a, b, c := DoReserve(key, [Said("hi")], "r", "", FINE), DoCreateRunner(key, false, text), DoFinish(key);
    SaidBytes("hi");
    Starts(false);
    var s1 := Step(Initial(false), a);
    OneStep(Initial(false), a);
    OccursOn(false, Initial(false), [a]);
    assert s1.runs == map[key := run] && s1.cache == EMPTY_CACHE by {
      assert HistoryFrom([]) == [] && [] + [Said("hi")] == [Said("hi")];
      RetainAlone(key, RunSnapshot(key, run));
    }
    hide MessagesBytes;
    var s2 := Step(s1, b);
    OneStep(s1, b);
    OccursOn(false, s1, [b]);
    s := Step(s2, c);
    OneStep(s2, c);
    OccursOn(false, s2, [c]);
    RetainAlone(key, FinalSnapshot(key, s2.runs[key]));
  }

  /** Such a turn breaks the byte budget of the cache when its error text is as long as the budget. */
  lemma BudgetCanBreak(key: Key) returns (s: State)
    requires key.session != ""
    ensures Occurs(false, s) && s.cache.bytes > MAX_RETAINED_BYTES
  {
    s := FailedStart(key, LongText(MAX_RETAINED_BYTES));
    hide Occurs;
  }

  /** In an ephemeral engine a session deleted in one workspace takes away the record that an active run of
      another workspace was started from. */
  lemma EphemeralRecordCanVanish(a: Key, b: Key) returns (s: State)
    requires a.session == b.session != "" && a.workspace != b.workspace
    ensures Occurs(true, s) && a in s.runs && At(true, a) !in s.disk
  {
    hide Occurs, Publish;
    var reserve, delete := DoReserve(a, [Said("hi")], "r", "", FINE), DoMutate(b, Delete, FINE);
    SaidBytes("hi");
    Starts(true);
    var m := Step(Initial(true), reserve);
    OneStep(Initial(true), reserve);
    OccursOn(true, Initial(true), [reserve]);
    assert a in m.runs && b !in m.runs && m.ephemeral && !m.stopped by {
      assert HistoryFrom([]) == [] && [] + [Said("hi")] == [Said("hi")];
    }
    hide MessagesBytes;
    s := Step(m, delete);
    OneStep(m, delete);
    OccursOn(true, m, [delete]);
  }

  // ---- Interactions ----

  /** A reply that is accepted finds the channel empty, so sending it under the mutex cannot block. */
  lemma ReplyNeverBlocks(ephemeral: bool, s: State, key: Key, runId: string, id: string, answer: Answer)
    requires Occurs(ephemeral, s)
    requires Answered(s, key, runId, id, answer).1.Ok?
    ensures s.runs[key].mailbox.None?
    ensures var p := s.runs[key].pending.value;
            s.runs[key].pc == Blocked(p) && p.id == id && ValidAnswer(p.prompt, answer)
  {
    hide FeedsInv, StateInv, Publish;
    OccursHolds(ephemeral, s);
    RunControl(s, key);
  }

  /** Between the two halves of an accepted reply the resolution is already in every registered queue of
      the session, and the runner that asked still has nothing to go on with: neither an answer nor a
      canceled context. */
  lemma ResolvedBeforeResume(ephemeral: bool, s: State, key: Key, runId: string, id: string, answer: Answer, i: nat)
    requires Occurs(ephemeral, s) && Answered(s, key, runId, id, answer).1.Ok?
    ensures var m := Resolve(s, key);
            && Answered(s, key, runId, id, answer).0 == HandOver(m, key, id, answer)
            && m.runs[key].pc.Blocked?
            && Wake(m.runs[key], false) == Wake(m.runs[key], true) == m.runs[key]
            && (i in m.feeds.registered && i in s.feeds.subs && s.feeds.subs[i].key == key ==>
                  i in m.feeds.subs
                  && m.feeds.subs[i].accepted == s.feeds.subs[i].accepted + [ResolvedUpdate(s.runs[key].pending.value)])
  {
    hide FeedsInv, StateInv;
    OccursHolds(ephemeral, s);
    RunControl(s, key);
  }

  /** What a waiting runner finds in its channel is a valid answer to the very interaction it asked. */
  lemma WaiterGetsItsAnswer(ephemeral: bool, s: State, key: Key)
    requires Occurs(ephemeral, s)
    requires key in s.runs && s.runs[key].pc.Blocked? && s.runs[key].mailbox.Some?
    ensures var r := s.runs[key];
            && r.mailbox.value.interactionId == r.pc.asked.id && ValidAnswer(r.pc.asked.prompt, r.mailbox.value.answer)
            && r.pc.asked.runId == r.id
  {
    hide FeedsInv, StateInv;
    OccursHolds(ephemeral, s);
    RunControl(s, key);
  }

  /** Each interaction is answered at most once: after one accepted reply every later one is refused,
      whatever happens in between and whatever run and session it names. */
  lemma AnsweredOnce(ephemeral: bool, s: State, key: Key, runId: string, id: string, answer: Answer,
                     t: State, key': Key, runId': string, answer': Answer)
    requires Occurs(ephemeral, s) && Answered(s, key, runId, id, answer).1.Ok?
    requires Later(Answered(s, key, runId, id, answer).0, t)
    ensures Answered(t, key', runId', id, answer').1 == Err(StaleInteraction)
  {
    hide FeedsInv, RunsInv, EndsInv, ShutdownInv, CacheInv, Quiets, RunsEvolve, Publish, Step, Later, Occurs;
    var a := DoReply(key, runId, id, answer);
    var r := Answered(s, key, runId, id, answer).0;
    OccursOn(ephemeral, s, [a]);
    assert r == Reach(s, [a]) by { ReplyIsStep(s, key, runId, id, answer); OneStep(s, a); }
    LaterOn(ephemeral, r, t);
    assert id in t.log.answered;
  }

  lemma OneStep(s: State, a: Action)
    ensures Reach(s, [a]) == Step(s, a)
  {
    hide Step;
    assert [a][..0] == [];
  }

  lemma ReplyIsStep(s: State, key: Key, runId: string, id: string, answer: Answer)
    ensures Answered(s, key, runId, id, answer).0 == Step(s, DoReply(key, runId, id, answer))
  {
    hide Answered;
  }

  // ---- Shutdown ----

  /** Once stopped, no run is ever added and no list worker starts, whatever is called. */
  lemma StoppedOnlyDrains(ephemeral: bool, s: State, t: State)
    requires Occurs(ephemeral, s) && Later(s, t)
    requires s.stopped
    ensures t.stopped && RunIds(t.runs) <= RunIds(s.runs) && t.lists <= s.lists
            && t.feeds.registered <= s.feeds.registered
  {
    hide RunsEvolve, SystemInv, RunIds;
    LaterOn(ephemeral, s, t);
  }

  /** A shutdown closes stores and queues only when no run is active and no list worker is in flight. */
  lemma StoresCloseOnlyWhenIdle(ephemeral: bool, s: State, caller: nat)
    requires Occurs(ephemeral, s)
    requires caller in s.shutdowns && s.shutdowns[caller].Closing?
    ensures s.stopped && s.runs == map[] && s.lists == 0
  {
    hide FeedsInv, RunsInv, EndsInv, IdInv, CacheInv;
    OccursHolds(ephemeral, s);
    NoIds(s.runs);
  }

  lemma NoIds(runs: map<Key, Run>)
    ensures RunIds(runs) == {} ==> runs == map[]
  {
    assert forall k <- runs :: runs[k].id in RunIds(runs);
  }

  /** After a shutdown has returned nil, no run, no registered subscriber and no change of the store is
      reachable. */
  lemma DrainedIsFinal(ephemeral: bool, s: State, t: State, caller: nat)
    requires Occurs(ephemeral, s) && Later(s, t)
    requires caller in s.shutdowns && s.shutdowns[caller].Drained?
    ensures t.runs == map[] && t.lists == 0 && t.feeds.registered == {} && t.disk == s.disk
  {
    hide FeedsInv, RunsInv, EndsInv, IdInv, CacheInv, RunsEvolve;
    LaterOn(ephemeral, s, t);
    NoIds(s.runs);
  }

  /** A shutdown that timed out has given up for good: it stays timed out in every continuation, and the
      step that closes queues and stores is never its own. */
  lemma TimedOutNeverCloses(ephemeral: bool, s: State, t: State, caller: nat)
    requires Occurs(ephemeral, s) && Later(s, t)
    requires caller in s.shutdowns && s.shutdowns[caller].TimedOut?
    ensures caller in t.shutdowns && t.shutdowns[caller].TimedOut? && !Enabled(t, DoShutdownClose(caller))
  {
    hide RunsEvolve, Quiets, FeedsInv, StateInv;
    LaterOn(ephemeral, s, t);
  }

  /** Stores are closed, and queues closed by a shutdown, only by a caller that has seen every run and every
      list worker end. */
  lemma OnlyAShutdownCloses(ephemeral: bool, s: State, a: Action)
    requires Occurs(ephemeral, s)
    ensures s.stores <= Step(s, a).stores || (a.DoShutdownClose? && s.stopped && s.runs == map[] && s.lists == 0)
  {
    hide Occurs, Perform;
    if Enabled(s, a) {
      if a.DoShutdownClose? { StoresCloseOnlyWhenIdle(ephemeral, s, a.caller); }
      else { OtherStepsKeepStores(s, a); }
    }
  }

  lemma OtherStepsKeepStores(s: State, a: Action)
    requires Enabled(s, a) && !a.DoShutdownClose?
    ensures s.stores <= Perform(s, a).stores
  {
    hide Perform, Enabled;
    if OpensStore(a) { OpeningKeepsStores(s, a); } else { OthersKeepStores(s, a); }
  }

  predicate OpensStore(a: Action) {
    a.DoSubscribe? || a.DoResnapshot? || a.DoSnapshot? || a.DoReserve? || a.DoMutate? || a.DoListBegin?
  }

  lemma OpeningKeepsStores(s: State, a: Action)
    requires Enabled(s, a) && OpensStore(a)
    ensures s.stores <= Perform(s, a).stores
  {
    hide AddSub, Offer, CurrentSnapshot, Drop, Reserve;
    if a.DoSubscribe? { LookupStores(s, a.key, a.io); }
    else if a.DoResnapshot? { if a.sub in s.feeds.subs { LookupStores(s, s.feeds.subs[a.sub].key, a.io); } }
    else if a.DoSnapshot? { LookupStores(s, a.key, a.io); }
    else if a.DoReserve? { ReserveStores(s, a.key, a.incoming, a.runId, a.title, a.io); }
    else if a.DoMutate? {} else {}
  }

  lemma OthersKeepStores(s: State, a: Action)
    requires Enabled(s, a) && !OpensStore(a) && !a.DoShutdownClose?
    ensures s.stores == Perform(s, a).stores
  {
    hide Publish, Retain, RunSnapshot, Absorb, FinalSnapshot, Fits, CancelAll, Drop, EventBytes, WithoutSystem;
    if a.DoEmit? {} else if a.DoReply? {} else if a.DoInteract? {} else if IsRunStep(a) {}
    else if a.DoShutdownRun? || a.DoShutdownLists? || a.DoShutdownTimeout? {}
    else {}
  }

  lemma LookupStores(s: State, key: Key, io: Io)
    ensures s.stores <= CurrentSnapshot(s, key, io).0.stores
  {
    hide RunSnapshot;
  }

  lemma ReserveStores(s: State, key: Key, incoming: seq<Message>, runId: string, title: string, io: Io)
    ensures s.stores <= Reserve(s, key, incoming, runId, title, io).0.stores
  {
    hide Publish, Drop, RunSnapshot, HistoryFrom, MessagesBytes;
  }
}
