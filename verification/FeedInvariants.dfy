/** Every step keeps every registered subscriber's feed in order and in step with the coordinator:
    what its client shows after replaying the queue is what a fresh snapshot would show. */
module FeedInvariants {
  import opened Transcript
  import opened Wire
  import opened Reducer
  import opened Subscriptions
  import opened Retention
  import opened Grammar
  import opened CoordinatorSpec
  import opened RunInvariants

  /** What the client shows for the session after the given updates. */
  function ClientView(us: seq<Update>): SessionView {
    if us == [] then SessionView([], NO_USAGE, false, None, None, None, None)
    else PayloadView(ClientView(us[..|us| - 1]), PayloadOf(us[|us| - 1]))
  }

  /** A cached end that still carries the live projection: the run failed or was canceled, and the
      snapshot was not stripped. */
  predicate Kept(s: Snapshot) {
    s.outcome.Some? && (s.outcome.value.status.Failed? || s.outcome.value.status.Canceled?) && !s.projectionUnavailable
  }

  function FreshView(s: Snapshot): SessionView { SnapshotView(DataOf(s)) }

  /** What a registered subscriber of a session must have been told, and what its client must show. */
  datatype Expect = Expect(feed: Feed, view: Option<SessionView>)

  function RunFeed(r: Run): Feed { Live(r.id, match r.pending case Some(p) => Some(p.id) case None => None) }

  function ExpectAt(runs: map<Key, Run>, terminal: map<Key, Snapshot>, key: Key): Expect {
    if key in runs then Expect(RunFeed(runs[key]), Some(FreshView(RunSnapshot(key, runs[key]))))
    else if key in terminal && Kept(terminal[key]) then Expect(Quiet, Some(FreshView(terminal[key])))
    else Expect(Quiet, None)
  }

  ghost predicate Follows(s: Sub, e: Expect, ended: set<string>) {
    && TrackOf(s.key.session, s.accepted).feed == e.feed
    && TrackOf(s.key.session, s.accepted).ended <= ended
    && (e.view.Some? ==> ClientView(s.accepted) == e.view.value)
  }

  /** What holds of a queue for ever, registered or not. */
  ghost predicate QueueInv(s: Sub) { SubInv(s) && Legal(s.key.session, s.accepted) }

  ghost predicate FeedsInv(f: Feeds, runs: map<Key, Run>, terminal: map<Key, Snapshot>, ended: set<string>) {
    && f.registered <= f.subs.Keys
    && (forall i <- f.subs :: QueueInv(f.subs[i]) && (i in f.registered <==> !f.subs[i].closed))
    && (forall i <- f.registered :: Follows(f.subs[i], ExpectAt(runs, terminal, f.subs[i].key), ended))
  }

  ghost predicate SystemInv(s: State) {
    StateInv(s) && FeedsInv(s.feeds, s.runs, s.cache.terminal, s.log.ended)
  }

  /** The weaker expectation asks for the same order and at most the same view. */
  ghost predicate Weaker(a: Expect, b: Expect) { a.feed == b.feed && (a.view == b.view || a.view.None?) }

  /** One update takes every feed that meets an expectation to one that meets the next. */
  ghost predicate Leads(session: string, e: Expect, ended: set<string>, u: Update, e': Expect, ended': set<string>) {
    && (forall t: Track :: t.feed == e.feed && t.ended <= ended ==>
          Advance(session, t, u).feed == e'.feed && Advance(session, t, u).ended <= ended')
    && (e'.view.Some? ==>
          if u.SnapshotUpdate? then FreshView(u.snapshot) == e'.view.value
          else e.view.Some? && PayloadView(e.view.value, PayloadOf(u)) == e'.view.value)
  }

  lemma FollowsNext(s: Sub, t: Sub, u: Update, e: Expect, ended: set<string>, e': Expect, ended': set<string>)
    requires Follows(s, e, ended) && Leads(s.key.session, e, ended, u, e', ended')
    requires t.key == s.key && t.accepted == s.accepted + [u]
    ensures Follows(t, e', ended')
  {
    hide PayloadView, PayloadOf, Advance;
    assert t.accepted[..|t.accepted| - 1] == s.accepted;
    var track := TrackOf(s.key.session, s.accepted);
    assert TrackOf(t.key.session, t.accepted) == Advance(s.key.session, track, u);
    if e'.view.Some? {
      assert ClientView(t.accepted) == PayloadView(ClientView(s.accepted), PayloadOf(u));
      SnapshotPayload(ClientView(s.accepted), u);
    }
  }

  lemma SnapshotPayload(v: SessionView, u: Update)
    ensures u.SnapshotUpdate? ==> PayloadView(v, PayloadOf(u)) == FreshView(u.snapshot)
  {}

  lemma FollowsWeaker(s: Sub, e: Expect, e': Expect, ended: set<string>, ended': set<string>)
    requires Follows(s, e, ended) && Weaker(e', e) && ended <= ended'
    ensures Follows(s, e', ended')
  {}

  lemma FollowsLegal(s: Sub, runs: map<Key, Run>, terminal: map<Key, Snapshot>, ended: set<string>)
    requires Follows(s, ExpectAt(runs, terminal, s.key), ended)
    ensures Legal(s.key.session, s.accepted)
  {
    hide FreshView;
  }

  /** An offered update keeps the queue, provided an accepted one keeps the order. */
  lemma EnqueueKeepsQueue(s: Sub, u: Update)
    requires QueueInv(s)
    requires Enqueued(s, u).1 ==> Legal(s.key.session, s.accepted + [u])
    ensures var (t, ok) := Enqueued(s, u);
            && QueueInv(t) && t.key == s.key && (ok ==> !s.closed && !t.closed && t.accepted == s.accepted + [u])
            && (!ok ==> t.closed && t.accepted == s.accepted)
  {
    hide SubInv, Legal;
    EnqueueKeeps(s, u);
    hide Enqueued;
  }

  /** Fan-out keeps every feed, when the update leads from the old expectation to the new one at its own
      session and every other session expects no more than before. */
  lemma PublishKeeps(f: Feeds, key: Key, u: Update, runs: map<Key, Run>, terminal: map<Key, Snapshot>,
                     ended: set<string>,
                     runs': map<Key, Run>, terminal': map<Key, Snapshot>, ended': set<string>)
    requires FeedsInv(f, runs, terminal, ended) && ended <= ended'
    requires Leads(key.session, ExpectAt(runs, terminal, key), ended, u, ExpectAt(runs', terminal', key), ended')
    requires forall k :: k != key ==> Weaker(ExpectAt(runs', terminal', k), ExpectAt(runs, terminal, k))
    ensures FeedsInv(Publish(f, key, u), runs', terminal', ended')
  {
    hide QueueInv, Follows, Leads, Weaker, ExpectAt, Enqueued, Legal;
    var g := Publish(f, key, u);
    forall i <- g.subs ensures QueueInv(g.subs[i]) && (i in g.registered <==> !g.subs[i].closed) {
      if i in Touched(f, key) {
        if Enqueued(f.subs[i], u).1 {
          PublishedFollows(f, i, u, runs, terminal, ended, runs', terminal', ended');
          FollowsLegal(Enqueued(f.subs[i], u).0, runs', terminal', ended');
          EnqueueAppends(f.subs[i], u);
        }
        EnqueueKeepsQueue(f.subs[i], u);
      }
    }
    forall i <- g.registered ensures Follows(g.subs[i], ExpectAt(runs', terminal', g.subs[i].key), ended') {
      if i in Touched(f, key) {
        PublishedFollows(f, i, u, runs, terminal, ended, runs', terminal', ended');
      } else {
        var k := f.subs[i].key;
        FollowsWeaker(f.subs[i], ExpectAt(runs, terminal, k), ExpectAt(runs', terminal', k), ended, ended');
      }
    }
  }

  lemma EnqueueAppends(s: Sub, u: Update)
    ensures var (t, ok) := Enqueued(s, u); t.key == s.key && (ok ==> t.accepted == s.accepted + [u])
  {}

  lemma PublishedFollows(f: Feeds, i: nat, u: Update, runs: map<Key, Run>, terminal: map<Key, Snapshot>,
                         ended: set<string>,
                         runs': map<Key, Run>, terminal': map<Key, Snapshot>, ended': set<string>)
    requires FeedsInv(f, runs, terminal, ended) && i in f.registered && Enqueued(f.subs[i], u).1
    requires var key := f.subs[i].key;
             Leads(key.session, ExpectAt(runs, terminal, key), ended, u, ExpectAt(runs', terminal', key), ended')
    ensures var t := Enqueued(f.subs[i], u).0; Follows(t, ExpectAt(runs', terminal', t.key), ended')
  {
    hide QueueInv, Follows, Leads, ExpectAt;
    EnqueueAppends(f.subs[i], u);
    hide Enqueued;
    var k := f.subs[i].key;
    FollowsNext(f.subs[i], Enqueued(f.subs[i], u).0, u, ExpectAt(runs, terminal, k), ended,
                ExpectAt(runs', terminal', k), ended');
  }

  lemma QuietStep(f: Feeds, runs: map<Key, Run>, terminal: map<Key, Snapshot>, ended: set<string>,
                  runs': map<Key, Run>, terminal': map<Key, Snapshot>)
    requires FeedsInv(f, runs, terminal, ended)
    requires forall k :: Weaker(ExpectAt(runs', terminal', k), ExpectAt(runs, terminal, k))
    ensures FeedsInv(f, runs', terminal', ended)
  {
    hide QueueInv, Follows, Weaker, ExpectAt;
    forall i <- f.registered ensures Follows(f.subs[i], ExpectAt(runs', terminal', f.subs[i].key), ended) {
      FollowsWeaker(f.subs[i], ExpectAt(runs, terminal, f.subs[i].key), ExpectAt(runs', terminal', f.subs[i].key),
                    ended, ended);
    }
  }

  // ---- What each published update does to the client's view ----

  /** The view of a live run: its transcript, streaming, with the open prompt. */
  lemma LiveView(key: Key, r: Run)
    ensures var base := TranscriptView(DataOf(RunSnapshot(key, r)));
            && FreshView(RunSnapshot(key, r)) ==
               PendingView(base.(streaming := true), DataOf(RunSnapshot(key, r)).pending)
            && base.run == Some(r.id) && base.ask.None? && base.perm.None? && base.outcome.None?
  {
    hide DeltasView, SnapshotBlocks;
    var d := DataOf(RunSnapshot(key, r));
    DeltasKeepIdentity(SessionView(SnapshotBlocks(d.messages), NO_USAGE, false, Some(d.runId), None, None, None),
                       d.events);
  }

  lemma DeltaCommutes(v: SessionView, d: Delta, p: Option<PendingReq>)
    ensures DeltaView(PendingView(v.(streaming := true), p), d) == PendingView(DeltaView(v, d).(streaming := true), p)
  {
    hide DeltaBlocks, AddUsage;
  }

  lemma EventLeads(key: Key, r: Run, r': Run, e: Event, ended: set<string>)
    requires e.sessionId == key.session && e.runId == r.id
    requires r'.id == r.id && r'.messages == r.messages && r'.pending == r.pending && r'.events == Absorb(r.events, e)
    ensures Leads(key.session, Expect(RunFeed(r), Some(FreshView(RunSnapshot(key, r)))), ended, EventUpdate(e),
                  Expect(RunFeed(r'), Some(FreshView(RunSnapshot(key, r')))), ended)
  {
    hide DeltasView, SnapshotBlocks, Absorb, DeltaView, DeltaOf, FreshView, TranscriptView, DeltasOf;
    var v := FreshView(RunSnapshot(key, r));
    LiveView(key, r);
    LiveView(key, r');
    var d, d' := DataOf(RunSnapshot(key, r)), DataOf(RunSnapshot(key, r'));
    var start := SessionView(SnapshotBlocks(d.messages), NO_USAGE, false, Some(d.runId), None, None, None);
    assert TranscriptView(d') == DeltaView(TranscriptView(d), DeltaOf(e)) by {
      AbsorbFoldsLike(start, r.events, e);
      TranscriptIsFold(d);
      TranscriptIsFold(d');
    }
    DeltaCommutes(TranscriptView(d), DeltaOf(e), d.pending);
    DeltaFields(e);
  }

  lemma TranscriptIsFold(d: SessionData)
    ensures TranscriptView(d) ==
            DeltasView(SessionView(SnapshotBlocks(d.messages), NO_USAGE, false, Some(d.runId), None, None, None),
                       d.events)
  {}

  lemma DeltaFields(e: Event)
    ensures DeltaOf(e).runId == e.runId && DeltaOf(e).sessionId == e.sessionId && DeltaOf(e).kind == e.kind
  {}

  lemma InteractionLeads(key: Key, r: Run, r': Run, p: Pending, ended: set<string>)
    requires p.sessionId == key.session && p.runId == r.id && r.pending.None?
    requires r'.id == r.id && r'.messages == r.messages && r'.pending == Some(p) && r'.events == r.events
    ensures Leads(key.session, Expect(RunFeed(r), Some(FreshView(RunSnapshot(key, r)))), ended, InteractionUpdate(p),
                  Expect(RunFeed(r'), Some(FreshView(RunSnapshot(key, r')))), ended)
  {
    hide DeltasView, SnapshotBlocks, FreshView, DeltasOf;
    LiveView(key, r);
    LiveView(key, r');
  }

  lemma ResolutionLeads(key: Key, r: Run, r': Run, p: Pending, ended: set<string>)
    requires p.sessionId == key.session && p.runId == r.id && r.pending == Some(p)
    requires r'.id == r.id && r'.messages == r.messages && r'.pending.None? && r'.events == r.events
    ensures Leads(key.session, Expect(RunFeed(r), Some(FreshView(RunSnapshot(key, r)))), ended, ResolvedUpdate(p),
                  Expect(RunFeed(r'), Some(FreshView(RunSnapshot(key, r')))), ended)
  {
    hide DeltasView, SnapshotBlocks, FreshView, DeltasOf;
    LiveView(key, r);
    LiveView(key, r');
  }

  lemma OutcomeLeads(key: Key, r: Run, ended: set<string>)
    requires r.pc.Finishing? && r.pc.verdict.sessionId == key.session && r.pc.verdict.runId == r.id
    ensures var end := Stripped(FinalSnapshot(key, r));
            Leads(key.session, Expect(RunFeed(r), Some(FreshView(RunSnapshot(key, r)))), ended,
                  OutcomeUpdate(r.pc.verdict),
                  Expect(Quiet, if Kept(end) then Some(FreshView(end)) else None), ended + {r.id})
  {
    hide DeltasView, SnapshotBlocks, DeltasOf, SnapshotBytes;
    LiveView(key, r);
    var end := Stripped(FinalSnapshot(key, r));
    if Kept(end) {
      assert end == RunSnapshot(key, r).(running := false, pending := None, outcome := Some(r.pc.verdict),
                                         unsavedAvailable := true);
      assert TranscriptView(DataOf(end)) == TranscriptView(DataOf(RunSnapshot(key, r)));
    }
  }

  lemma AnnounceLeads(key: Key, r: Run, requestId: string, feed: Feed, ended: set<string>)
    requires feed == Quiet || feed == Unopened || feed == RunFeed(r)
    requires r.id !in ended
    ensures forall view :: Leads(key.session, Expect(feed, view), ended, SnapshotUpdate(requestId, RunSnapshot(key, r)),
                                 Expect(RunFeed(r), Some(FreshView(RunSnapshot(key, r)))), ended)
  {
    hide FreshView;
  }

  lemma IdleLeads(key: Key, snap: Snapshot, requestId: string, feed: Feed, ended: set<string>)
    requires feed == Quiet || feed == Unopened
    requires snap.sessionId == key.session && !snap.running
    ensures forall view :: Leads(key.session, Expect(feed, view), ended, SnapshotUpdate(requestId, snap),
                                 Expect(Quiet, Some(FreshView(snap))), ended)
  {
    hide FreshView;
  }

  lemma LeadsWeaker(session: string, e: Expect, ended: set<string>, u: Update, a: Expect, b: Expect,
                    ended': set<string>)
    requires Leads(session, e, ended, u, a, ended') && Weaker(b, a)
    ensures Leads(session, e, ended, u, b, ended')
  {
    hide Advance, FreshView, PayloadView;
  }
}
