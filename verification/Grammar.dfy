/** The order in which one subscriber may be told things. */
module Grammar {
  import opened Transcript

  /** What the subscriber has been told so far: nothing, no run, or a run and its open prompt. */
  datatype Feed = Unopened | Quiet | Live(run: string, asking: Option<string>) | Broken

  /** The feed together with the runs whose outcome has been told. */
  datatype Track = Track(feed: Feed, ended: set<string>)

  function AskingOf(s: Snapshot): Option<string> {
    match s.pending case Some(p) => Some(p.id) case None => None
  }

  function Advance(session: string, t: Track, u: Update): Track {
    match u
    case SnapshotUpdate(_, s) =>
      if s.sessionId != session || t.feed.Broken? then t.(feed := Broken)
      else if s.running then
        if s.runId in t.ended || (t.feed.Live? && t.feed != Live(s.runId, AskingOf(s))) then t.(feed := Broken)
        else t.(feed := Live(s.runId, AskingOf(s)))
      else if t.feed.Live? then t.(feed := Broken)
      else t.(feed := Quiet)
    case EventUpdate(e) =>
      if t.feed.Live? && e.runId == t.feed.run && e.sessionId == session then t else t.(feed := Broken)
    case InteractionUpdate(p) =>
      if t.feed == Live(p.runId, None) && p.sessionId == session then t.(feed := Live(p.runId, Some(p.id)))
      else t.(feed := Broken)
    case ResolvedUpdate(p) =>
      if t.feed == Live(p.runId, Some(p.id)) && p.sessionId == session then t.(feed := Live(p.runId, None))
      else t.(feed := Broken)
    case OutcomeUpdate(o) =>
      if t.feed.Live? && o.runId == t.feed.run && o.sessionId == session then Track(Quiet, t.ended + {o.runId})
      else t.(feed := Broken)
  }

  function TrackOf(session: string, us: seq<Update>): Track {
    if us == [] then Track(Unopened, {}) else Advance(session, TrackOf(session, us[..|us| - 1]), us[|us| - 1])
  }

  ghost predicate Legal(session: string, us: seq<Update>) { !TrackOf(session, us).feed.Broken? }

  // ---- What a legal order means, update by update ----

  /** The run an update speaks for, when it is not a snapshot. */
  function SpeaksFor(u: Update): Option<string> {
    match u
    case SnapshotUpdate(_, _) => None
    case EventUpdate(e) => Some(e.runId)
    case InteractionUpdate(p) => Some(p.runId)
    case ResolvedUpdate(p) => Some(p.runId)
    case OutcomeUpdate(o) => Some(o.runId)
  }

  predicate Announces(u: Update, run: string) { u.SnapshotUpdate? && u.snapshot.running && u.snapshot.runId == run }

  /** Neither an outcome nor a snapshot of anything but the live run. */
  predicate Continues(u: Update, run: string) { !u.OutcomeUpdate? && (u.SnapshotUpdate? ==> Announces(u, run)) }

  ghost predicate AnnouncedAt(us: seq<Update>, i: nat, run: string, j: nat) {
    j < i <= |us| && Announces(us[j], run) && forall m :: j < m < i ==> Continues(us[m], run)
  }

  lemma {:induction false} PrefixLegal(session: string, us: seq<Update>, i: nat)
    requires Legal(session, us) && i <= |us|
    ensures Legal(session, us[..i])
    decreases |us|
  {
    if i == |us| {
      assert us[..i] == us;
    } else {
      PrefixLegal(session, us[..|us| - 1], i);
      assert us[..|us| - 1][..i] == us[..i];
    }
  }

  lemma {:induction false} LiveIsAnnounced(session: string, us: seq<Update>, run: string)
    returns (j: nat)
    requires TrackOf(session, us).feed.Live? && TrackOf(session, us).feed.run == run
    ensures AnnouncedAt(us, |us|, run, j)
  {
    var n := |us| - 1;
    var init, u := us[..n], us[n];
    if Announces(u, run) {
      j := n;
    } else {
      j := LiveIsAnnounced(session, init, run);
      assert forall m :: j < m < n ==> us[m] == init[m];
    }
  }

  lemma {:induction false} EndedAreTold(session: string, us: seq<Update>, i: nat)
    requires Legal(session, us) && i < |us| && us[i].OutcomeUpdate?
    ensures us[i].outcome.runId in TrackOf(session, us).ended
    decreases |us|
  {
    if i < |us| - 1 {
      PrefixLegal(session, us, |us| - 1);
      EndedAreTold(session, us[..|us| - 1], i);
    }
  }

  lemma {:induction false} LiveIsNotEnded(session: string, us: seq<Update>)
    requires Legal(session, us) && TrackOf(session, us).feed.Live?
    ensures TrackOf(session, us).feed.run !in TrackOf(session, us).ended
  {
    if us != [] {
      PrefixLegal(session, us, |us| - 1);
      if TrackOf(session, us[..|us| - 1]).feed.Live? { LiveIsNotEnded(session, us[..|us| - 1]); }
    }
  }

  /** Between the announcement of a run and the present its outcome was told, or it is still the live one. */
  lemma {:induction false} AnnouncedEndsOrLives(session: string, us: seq<Update>, i: nat, run: string)
    returns (m: nat)
    requires Legal(session, us) && i < |us| && Announces(us[i], run)
    ensures (TrackOf(session, us).feed.Live? && TrackOf(session, us).feed.run == run)
            || (i < m < |us| && us[m].OutcomeUpdate? && us[m].outcome.runId == run)
    decreases |us|
  {
    var n := |us| - 1;
    StepBefore(session, us, n);
    m := n;
    if i < n {
      PrefixLegal(session, us, n);
      var k := AnnouncedEndsOrLives(session, us[..n], i, run);
      if !(TrackOf(session, us[..n]).feed.Live? && TrackOf(session, us[..n]).feed.run == run) { m := k; }
      assert us[..n + 1] == us;
    } else {
      assert us[..n + 1] == us;
    }
  }

  /** A legal order starts with a snapshot; everything said for a run follows a snapshot that names the
      run as running, with no outcome and no snapshot of another run in between; no run is given two
      outcomes or announced again after its outcome; and a run is announced after another only when the
      other's outcome has been told in between. */
  lemma LegalMeans(session: string, us: seq<Update>)
    requires Legal(session, us)
    ensures us != [] ==> us[0].SnapshotUpdate?
    ensures forall i :: 0 <= i < |us| && SpeaksFor(us[i]).Some? ==>
              exists j: nat :: AnnouncedAt(us, i, SpeaksFor(us[i]).value, j)
    ensures forall i, j :: 0 <= i < j < |us| && us[i].OutcomeUpdate? ==>
              !Announces(us[j], us[i].outcome.runId) && SpeaksFor(us[j]) != Some(us[i].outcome.runId)
    ensures forall i, j, a, b :: 0 <= i < j < |us| && Announces(us[i], a) && Announces(us[j], b) && a != b ==>
              exists m :: i < m < j && us[m].OutcomeUpdate? && us[m].outcome.runId == a
  {
    if us != [] {
      PrefixLegal(session, us, 1);
      assert us[..1][..0] == [];
    }
    forall i | 0 <= i < |us| && SpeaksFor(us[i]).Some?
      ensures exists j: nat :: AnnouncedAt(us, i, SpeaksFor(us[i]).value, j)
    {
      StepBefore(session, us, i);
      var j := LiveIsAnnounced(session, us[..i], SpeaksFor(us[i]).value);
      assert AnnouncedAt(us, i, SpeaksFor(us[i]).value, j);
    }
    forall i, j | 0 <= i < j < |us| && us[i].OutcomeUpdate?
      ensures !Announces(us[j], us[i].outcome.runId) && SpeaksFor(us[j]) != Some(us[i].outcome.runId)
    {
      StepBefore(session, us, j);
      PrefixLegal(session, us, j);
      EndedAreTold(session, us[..j], i);
      if SpeaksFor(us[j]).Some? { LiveIsNotEnded(session, us[..j]); }
    }
    forall i, j, a, b | 0 <= i < j < |us| && Announces(us[i], a) && Announces(us[j], b) && a != b
      ensures exists m :: i < m < j && us[m].OutcomeUpdate? && us[m].outcome.runId == a
    {
      StepBefore(session, us, j);
      PrefixLegal(session, us, j);
      var m := AnnouncedEndsOrLives(session, us[..j], i, a);
      assert us[..j][m] == us[m];
    }
  }

  lemma StepBefore(session: string, us: seq<Update>, i: nat)
    requires Legal(session, us) && i < |us|
    ensures var t := TrackOf(session, us[..i]);
            && !Advance(session, t, us[i]).feed.Broken?
            && (SpeaksFor(us[i]).Some? ==> t.feed.Live? && t.feed.run == SpeaksFor(us[i]).value)
  {
    PrefixLegal(session, us, i + 1);
    assert us[..i + 1][..i] == us[..i];
  }
}
