/** The engine and the desktop client together: a client that followed a session from any earlier moment
    shows exactly what a client shows that joins now. */
module LateJoiner {
  import opened Transcript
  import opened Wire
  import opened Reducer
  import opened Subscriptions
  import opened Retention
  import opened Grammar
  import opened CoordinatorSpec
  import opened RunInvariants
  import opened StateInvariants
  import opened FeedInvariants
  import opened Guarantees

  function Replay(st: EngineState, msgs: seq<WireMessage>): EngineState {
    if msgs == [] then st else ReduceServer(Replay(st, msgs[..|msgs| - 1]), msgs[|msgs| - 1])
  }

  /** The payloads that concern one session, in the order they arrived. */
  function About(sid: string, msgs: seq<WireMessage>): seq<Payload> {
    if msgs == [] then []
    else
      var p := msgs[|msgs| - 1].payload;
      About(sid, msgs[..|msgs| - 1]) + (if Subject(p) == Some(sid) then [p] else [])
  }

  function FoldView(v: SessionView, ps: seq<Payload>): SessionView {
    if ps == [] then v else PayloadView(FoldView(v, ps[..|ps| - 1]), ps[|ps| - 1])
  }

  function Payloads(us: seq<Update>): (ps: seq<Payload>)
    ensures |ps| == |us|
    ensures forall i :: 0 <= i < |us| ==> ps[i] == PayloadOf(us[i])
  {
    seq(|us|, i requires 0 <= i < |us| => PayloadOf(us[i]))
  }

  /** A stretch of one connection's traffic in one workspace, as the decoder lets it through. */
  predicate Carried(m: WireMessage, workspace: string) {
    m.workspace == workspace && !m.payload.WorkspaceReply? && Decodes(m.payload) && Subject(m.payload) != Some("")
  }

  lemma {:induction false} ReplayOnView(st: EngineState, msgs: seq<WireMessage>, workspace: string, sid: string)
    requires st.workspace == Some(workspace) && forall m <- msgs :: Carried(m, workspace)
    ensures ViewOf(Replay(st, msgs), sid) == FoldView(ViewOf(st, sid), About(sid, msgs))
    ensures Replay(st, msgs).workspace == Some(workspace)
  {
    hide ReduceServer, ViewOf, PayloadView, Decodes;
    if msgs != [] {
      var init, m := msgs[..|msgs| - 1], msgs[|msgs| - 1];
      assert Carried(m, workspace);
      ReplayOnView(st, init, workspace, sid);
      var mid := Replay(st, init);
      ReducerIsSessionLocal(mid, m, sid);
      ReducerKeepsWorkspace(mid, m);
      if Subject(m.payload) == Some(sid) {
        assert (About(sid, init) + [m.payload])[..|About(sid, init)|] == About(sid, init);
      } else {
        assert About(sid, init) + [] == About(sid, init);
      }
    }
  }

  /** A fold that starts with a snapshot does not depend on what was shown before. */
  lemma {:induction false} FoldFromSnapshot(v: SessionView, us: seq<Update>)
    requires us != [] && us[0].SnapshotUpdate?
    ensures FoldView(v, Payloads(us)) == ClientView(us)
  {
    hide PayloadView, PayloadOf;
    var init := us[..|us| - 1];
    assert Payloads(us)[..|us| - 1] == Payloads(init);
    if init == [] {
      SnapshotPayload(v, us[0]);
      SnapshotPayload(ClientView([]), us[0]);
    } else {
      FoldFromSnapshot(v, init);
    }
  }

  lemma AcceptedStartsWithSnapshot(s: State, i: nat)
    requires SystemInv(s) && i in s.feeds.registered
    ensures i in s.feeds.subs && s.feeds.subs[i].accepted != [] && s.feeds.subs[i].accepted[0].SnapshotUpdate?
  {
    hide StateInv, SubInv, Follows, FreshView;
    var sub := s.feeds.subs[i];
    assert QueueInv(sub) && Follows(sub, ExpectAt(s.runs, s.cache.terminal, sub.key), s.log.ended);
    NotUnopened(sub, s.runs, s.cache.terminal, s.log.ended);
    LegalMeans(sub.key.session, sub.accepted);
  }

  lemma NotUnopened(sub: Sub, runs: map<Key, Run>, terminal: map<Key, Snapshot>, ended: set<string>)
    requires Follows(sub, ExpectAt(runs, terminal, sub.key), ended)
    ensures sub.accepted != []
  {
    hide FreshView;
  }

  /** The session has a projection to join: a live run, or an end that failed or was canceled and is kept. */
  predicate Joinable(s: State, key: Key) {
    key in s.runs || (key in s.cache.terminal && Kept(s.cache.terminal[key]))
  }

  lemma ClientShowsFresh(ephemeral: bool, s: State, i: nat, io: Io)
    requires Occurs(ephemeral, s)
    requires i in s.feeds.registered && i in s.feeds.subs
    requires Joinable(s, s.feeds.subs[i].key)
    ensures var sub := s.feeds.subs[i];
            var now := CurrentSnapshot(s, sub.key, io).1;
            now.Ok? && ClientView(sub.accepted) == FreshView(now.value)
  {
    hide StateInv, QueueInv, FreshView, TrackOf;
    OccursHolds(ephemeral, s);
    assert Follows(s.feeds.subs[i], ExpectAt(s.runs, s.cache.terminal, s.feeds.subs[i].key), s.log.ended);
  }

  /** Late joiner equals early joiner. In every reachable state of a live run, or of one that ended failed
      or canceled with its projection kept, take a client that has drained its queue, whatever it showed
      before and however the session's messages were mixed with other sessions'. For this session it
      shows the same blocks, usage, streaming flag, run, prompts and outcome as any client that applies
      only a fresh snapshot. */
  lemma LateJoinerEqualsEarlyJoiner(ephemeral: bool, s: State, i: nat, sub: Sub, io: Io, now: Snapshot,
                                    early: EngineState, msgs: seq<WireMessage>, late: EngineState)
    requires Occurs(ephemeral, s) && i in s.feeds.registered && i in s.feeds.subs && s.feeds.subs[i] == sub
    requires sub.key.session != "" && Joinable(s, sub.key)
    requires sub.delivered == sub.accepted && About(sub.key.session, msgs) == Payloads(sub.delivered)
    requires CurrentSnapshot(s, sub.key, io).1 == Ok(now) && DataDecodes(DataOf(now))
    requires early.workspace == late.workspace == Some(sub.key.workspace)
    requires forall m <- msgs :: Carried(m, sub.key.workspace)
    ensures ViewOf(Replay(early, msgs), sub.key.session) ==
            ViewOf(ReduceServer(late, WireMessage(sub.key.workspace, SessionDataMsg(DataOf(now)))), sub.key.session)
  {
    hide ReduceServer, ViewOf, CurrentSnapshot, DataDecodes, DataOf, Replay, FoldView, ClientView, SystemInv;
    var sid := sub.key.session;
    ClientShowsFresh(ephemeral, s, i, io);
    ReplayOnView(early, msgs, sub.key.workspace, sid);
    OccursHolds(ephemeral, s);
    AcceptedStartsWithSnapshot(s, i);
    FoldFromSnapshot(ViewOf(early, sid), sub.accepted);
    assert now.sessionId == sid by { FreshSession(s, sub.key, io); }
    var m := WireMessage(sub.key.workspace, SessionDataMsg(DataOf(now)));
    FreshSubject(now);
    ReducerIsSessionLocal(late, m, sid);
  }

  lemma FreshSubject(s: Snapshot)
    ensures Subject(SessionDataMsg(DataOf(s))) == Some(s.sessionId)
    ensures forall v :: PayloadView(v, SessionDataMsg(DataOf(s))) == FreshView(s)
  {}

  lemma FreshSession(s: State, key: Key, io: Io)
    requires SystemInv(s) && CurrentSnapshot(s, key, io).1.Ok?
    ensures CurrentSnapshot(s, key, io).1.value.sessionId == key.session
  {
    hide FeedsInv, RunsInv, IdInv, ShutdownInv, CacheInv;
  }

  // ---- What the desktop decoder makes of it ----

  /** The snapshot a persistent engine sends decodes exactly when it still has its messages and all their
      roles are known; a stripped end has none, is sent as null, and is refused by the decoder. */
  lemma SnapshotDecodesIff(s: State, key: Key, io: Io)
    requires Occurs(false, s)
    requires CurrentSnapshot(s, key, io).1.Ok?
    ensures var now := CurrentSnapshot(s, key, io).1.value;
            && (DataDecodes(DataOf(now)) <==> !now.projectionUnavailable && RolesKnown(now.messages.GetOr([])))
            && (now.projectionUnavailable <==> now.messages.None?)
  {
    hide FeedsInv, IdInv, ShutdownInv, CacheInv, RunsInv, EndsInv, Projection, Faithful, OnDisk;
    OccursHolds(false, s);
    if key in s.runs { RunOf(s, key); }
    else if key in s.cache.terminal { EndOf(s, key); }
  }

  lemma EndOf(s: State, key: Key)
    requires StateInv(s) && key in s.cache.terminal
    ensures EndInv(key, s.cache.terminal[key], s.disk, s.ephemeral)
  {
    hide CacheInv, RunsInv, IdInv, ShutdownInv, EndInv;
  }

  /** Every outcome a persistent engine publishes decodes. */
  lemma OutcomeAlwaysDecodes(s: State, key: Key)
    requires Occurs(false, s)
    requires key in s.runs && s.runs[key].pc.Finishing?
    ensures Decodes(DoneMsg(s.runs[key].pc.verdict))
  {
    OutcomeIsTruthful(false, s, key);
  }

  /** Nothing that had to be stripped decodes any more. */
  lemma StrippedEndIsRefused(snap: Snapshot)
    requires SnapshotBytes(snap) > MAX_PROJECTION_BYTES
    ensures !DataDecodes(DataOf(Stripped(snap)))
  {
    assert DataOf(Stripped(snap)).messages.None?;
  }

  /** What a client can still be told of a finished run: its kept end decodes exactly when what the run leaves
      behind fits the projection budget and has known roles only. */
  lemma FinishedDecodesIff(s: State, key: Key)
    requires Occurs(false, s) && key in s.runs && s.runs[key].pc.Finishing?
    ensures var final := FinalSnapshot(key, s.runs[key]);
            var t := Finish(s, key);
            && key in t.cache.terminal
            && (DataDecodes(DataOf(t.cache.terminal[key])) <==>
                  SnapshotBytes(final) <= MAX_PROJECTION_BYTES && RolesKnown(final.messages.GetOr([])))
  {
    hide Occurs, DataDecodes, DataOf, FinalSnapshot, SystemInv, Retain, SnapshotBytes, Publish, RolesKnown;
    var final := FinalSnapshot(key, s.runs[key]);
    var t := Finish(s, key);
    OccursHolds(false, s);
    assert CacheInv(s.cache) by { SystemCache(s); }
    RetainKeeps(s.cache, key, final);
    OneStep(s, DoFinish(key));
    OccursOn(false, s, [DoFinish(key)]);
    assert t == Reach(s, [DoFinish(key)]);
    assert CurrentSnapshot(t, key, FINE).1 == Ok(t.cache.terminal[key]);
    SnapshotDecodesIff(t, key, FINE);
    if SnapshotBytes(final) > MAX_PROJECTION_BYTES { StrippedEndIsRefused(final); }
    assert final.messages.Some? && !final.projectionUnavailable by { FinalIsWhole(key, s.runs[key]); }
  }

  lemma FinalIsWhole(key: Key, r: Run)
    requires r.pc.Finishing?
    ensures FinalSnapshot(key, r).messages.Some? && !FinalSnapshot(key, r).projectionUnavailable
  {
  }

  /** A run that fails with a text of 4 MiB leaves an end that the desktop refuses. */
  lemma FinishedCannotDecode(key: Key) returns (s: State)
    requires key.session != ""
    ensures Occurs(false, s) && key in s.cache.terminal && key !in s.runs
    ensures !DataDecodes(DataOf(s.cache.terminal[key]))
  {
    hide Occurs, SystemInv;
    var text := LongText(MAX_PROJECTION_BYTES);
    s := FailedStart(key, text);
    OccursHolds(false, s);
    assert key !in s.runs by { EndsAreOver(s, key); }
    var o := Outcome(key.session, "r", Failed, false, text, "runner_creation_failed");
    StrippedEndIsRefused(Snapshot(key.session, "r", false, Some([Said("hi")]), [], None, Some(o), true, false));
  }

  lemma EndsAreOver(s: State, key: Key)
    requires SystemInv(s) && key in s.cache.terminal
    ensures key !in s.runs
  {
    hide FeedsInv, RunsInv, EndInv, IdInv, ShutdownInv, CacheInv;
  }
}
