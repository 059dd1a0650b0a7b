/** What every step of the coordinator keeps about runs, the store and the cache. */
module RunInvariants {
  import opened Transcript
  import opened Retention
  import opened Service
  import opened CoordinatorSpec

  // ---- One run ----

  /** The messages this run's own commit has put into the store, once it has. */
  function CommittedMessages(r: Run): Option<seq<Message>> {
    match r.pc
    case Deciding(Some(produced), NoError) => if r.phase.Persisting? then Some(WithoutSystem(produced)) else None
    case Judging(Some(produced), NoError, _, _) => if r.phase.Persisting? then Some(WithoutSystem(produced)) else None
    case Finishing(Some(produced), o) => if o.persisted then Some(WithoutSystem(produced)) else None
    case _ => None
  }

  /** The stored record is the one loaded at reservation until the run's own commit, and from then on
      that record with exactly the filtered result in it. An ephemeral engine never commits, and its one
      memory may be changed from another workspace. */
  ghost predicate OnDisk(key: Key, r: Run, disk: map<Key, Record>, ephemeral: bool) {
    !ephemeral ==>
    && key in disk
    && disk[key] == (match CommittedMessages(r)
                     case Some(ms) => r.record.(messages := ms)
                     case None => r.record)
  }

  ghost predicate Stamps(key: Key, r: Run) {
    && r.id != ""
    && (forall e <- r.raw :: e.sessionId == key.session && e.runId == r.id)
    && (forall e <- r.events :: e.sessionId == key.session && e.runId == r.id)
    && (r.pending.Some? ==> r.pending.value.sessionId == key.session && r.pending.value.runId == r.id)
  }

  /** The counter is exact and within 4 MiB, and the projection is the joining of exactly the published
      events. */
  ghost predicate Projection(r: Run) {
    && r.spent == MessagesBytes(r.messages) + EventsBytes(r.raw)
    && r.spent <= MAX_PROJECTION_BYTES
    && r.events == Coalesce(r.raw)
  }

  ghost predicate Faithful(r: Run) {
    && Subsequence(HistoryFrom(r.record.messages), r.messages)
    && (match r.pc
        case Returned(result) => Subsequence(r.messages, result)
        case Gate(result) => Subsequence(r.messages, result)
        case Saving(result) => Subsequence(r.messages, result)
        case _ => true)
  }

  predicate ValidAnswer(prompt: Prompt, answer: Answer) {
    && SameKind(prompt, answer)
    && (answer.AskAnswer? && prompt.Ask? ==> -1 <= answer.selected < |prompt.options|)
  }

  ghost predicate Outcomes(key: Key, r: Run, ephemeral: bool, o: Outcome, produced: Option<seq<Message>>) {
    && o.sessionId == key.session && o.runId == r.id
    && (o.status.Succeeded? || o.status.PersistenceFailed? ==> produced.Some?)
    && (r.phase.Persisting? ==>
          !ephemeral && ((o.status.Succeeded? && o.persisted) || (o.status.PersistenceFailed? && !o.persisted)))
    && (!r.phase.Persisting? ==>
          !o.persisted && (o.status.Failed? || (o.status.Canceled? && r.canceled)
                           || (o.status.Succeeded? && ephemeral)))
  }

  ghost predicate Judgeable(r: Run, ephemeral: bool, produced: Option<seq<Message>>, err: ExecError) {
    && (r.phase.Persisting? ==> !ephemeral && produced.Some? && !err.OtherError?)
    && (!r.phase.Persisting? ==> !err.SaveError? && (err.NoError? ==> ephemeral && produced.Some?))
  }

  /** A prompt is open exactly while its asker waits for it, or was left behind by a cancel. */
  ghost predicate Control(key: Key, r: Run, ephemeral: bool) {
    && (r.limited ==> r.canceled)
    && (r.phase.Persisting? ==> !r.canceled && r.pending.None?)
    && match r.pc
       case Claimed => r.phase.Preparing? && r.pending.None? && !r.limited
       case Executing => !r.phase.Persisting? && (r.pending.Some? ==> r.canceled)
       case Blocked(p) =>
         && !r.phase.Persisting? && p.runId == r.id
         && ((r.pending == Some(p) && r.mailbox.None?)
             || (r.pending.None? && r.mailbox.Some? && r.mailbox.value.interactionId == p.id
                 && ValidAnswer(p.prompt, r.mailbox.value.answer)))
       case Returned(_) => !r.phase.Persisting? && (r.pending.Some? ==> r.canceled)
       case Gate(_) => !r.phase.Persisting? && !ephemeral && (r.pending.Some? ==> r.canceled)
       case Saving(_) => r.phase.Persisting? && !ephemeral
       case Deciding(produced, err) => Judgeable(r, ephemeral, produced, err) && (r.pending.Some? ==> r.canceled)
       case Judging(produced, err, limit, persisting) =>
         && Judgeable(r, ephemeral, produced, err) && (r.pending.Some? ==> r.canceled)
         && limit == r.limited && persisting == r.phase.Persisting?
       case Finishing(produced, o) =>
         && Outcomes(key, r, ephemeral, o, produced) && (r.pending.Some? ==> r.canceled)
         && (r.limited ==> o.status.Failed? && o.code == "projection_limit")
  }

  ghost predicate RunInv(key: Key, r: Run, disk: map<Key, Record>, ephemeral: bool) {
    && Stamps(key, r) && Projection(r) && Faithful(r) && Control(key, r, ephemeral) && OnDisk(key, r, disk, ephemeral)
  }

  // ---- The cache and the whole state ----

  /** A cached end says what happened: it is scoped to its run, and a persisted success that is still
      whole holds the very messages the store holds. */
  ghost predicate EndInv(key: Key, snap: Snapshot, disk: map<Key, Record>, ephemeral: bool) {
    && snap.sessionId == key.session && snap.runId != "" && !snap.running && snap.pending.None? && snap.outcome.Some?
    && var o := snap.outcome.value;
       && o.sessionId == key.session && o.runId == snap.runId
       && (forall e <- snap.events :: e.sessionId == key.session && e.runId == snap.runId)
       && (snap.projectionUnavailable <==> snap.messages.None?)
       && (o.status.Succeeded? ==> o.persisted == !ephemeral)
       && (o.persisted ==> o.status.Succeeded?)
       && (o.persisted && snap.messages.Some? ==>
             !ephemeral && key in disk && disk[key].messages == snap.messages.value && snap.events == [])
  }

  ghost predicate IdInv(runs: map<Key, Run>, log: Log) {
    && (forall k <- runs :: k.session != "" && runs[k].id in log.used && runs[k].id !in log.ended)
    && (forall k, k' | k in runs && k' in runs && k != k' :: runs[k].id != runs[k'].id)
    && (forall k <- runs :: runs[k].pending.Some? ==>
          runs[k].pending.value.id in log.used && runs[k].pending.value.id !in log.answered)
    && (forall k, k' | k in runs && k' in runs && k != k' && runs[k].pending.Some? && runs[k'].pending.Some? ::
          runs[k].pending.value.id != runs[k'].pending.value.id)
    && log.ended <= log.used && log.answered <= log.used
  }

  ghost predicate RunsInv(runs: map<Key, Run>, disk: map<Key, Record>, ephemeral: bool) {
    forall k <- runs :: RunInv(k, runs[k], disk, ephemeral)
  }

  ghost predicate EndsInv(terminal: map<Key, Snapshot>, live: set<Key>, disk: map<Key, Record>, ephemeral: bool) {
    forall k <- terminal :: k !in live && EndInv(k, terminal[k], disk, ephemeral)
  }

  /** One shutdown caller still waits for every active run, and past the waiting there is none. */
  ghost predicate CallerInv(pc: ShutdownPc, ids: set<string>, lists: nat, registered: set<nat>) {
    match pc
    case Draining(waiting) => ids <= waiting
    case Listing => ids == {}
    case Closing => ids == {} && lists == 0
    case Drained => ids == {} && lists == 0 && registered == {}
    case TimedOut => true
  }

  ghost predicate ShutdownInv(shutdowns: map<nat, ShutdownPc>, stopped: bool, ids: set<string>, lists: nat,
                              registered: set<nat>) {
    forall c <- shutdowns :: stopped && CallerInv(shutdowns[c], ids, lists, registered)
  }

  ghost predicate StateInv(s: State) {
    && CacheInv(s.cache)
    && IdInv(s.runs, s.log)
    && RunsInv(s.runs, s.disk, s.ephemeral)
    && EndsInv(s.cache.terminal, s.runs.Keys, s.disk, s.ephemeral)
    && ShutdownInv(s.shutdowns, s.stopped, RunIds(s.runs), s.lists, s.feeds.registered)
  }

  // ---- Steps of one run ----

  lemma AppendKeepsProjection(r: Run, e: Event)
    requires Projection(r) && Fits(r, e)
    ensures Projection(r.(spent := r.spent + EventBytes(e), events := Absorb(r.events, e), raw := r.raw + [e]))
  {
    var raw := r.raw + [e];
    assert raw[..|raw| - 1] == r.raw;
  }

  lemma AbsorbKeepsStamps(events: seq<Event>, e: Event, session: string, run: string)
    requires forall x <- events :: x.sessionId == session && x.runId == run
    requires e.sessionId == session && e.runId == run
    ensures forall x <- Absorb(events, e) :: x.sessionId == session && x.runId == run
  {}

  lemma CreateRunnerKeeps(key: Key, r: Run, disk: map<Key, Record>, ephemeral: bool, ok: bool, text: string)
    requires RunInv(key, r, disk, ephemeral) && r.pc.Claimed?
    ensures RunInv(key, CreateRunner(key, r, ok, text), disk, ephemeral)
  {}

  lemma AppendRunKeeps(key: Key, r: Run, disk: map<Key, Record>, ephemeral: bool, e: Event)
    requires RunInv(key, r, disk, ephemeral) && (r.pc.Executing? || r.pc.Blocked?)
    requires e.sessionId == key.session && e.runId == r.id
    ensures Fits(r, e) ==>
              RunInv(key, r.(spent := r.spent + EventBytes(e), events := Absorb(r.events, e), raw := r.raw + [e]),
                     disk, ephemeral)
    ensures RunInv(key, r.(limited := true, canceled := true), disk, ephemeral)
  {
    if Fits(r, e) {
      AppendKeepsProjection(r, e);
      AbsorbKeepsStamps(r.events, e, key.session, r.id);
    }
  }

  lemma WakeKeeps(key: Key, r: Run, disk: map<Key, Record>, ephemeral: bool, byCancel: bool)
    requires RunInv(key, r, disk, ephemeral) && r.pc.Blocked?
    ensures RunInv(key, Wake(r, byCancel), disk, ephemeral)
  {}

  lemma ReturnKeeps(key: Key, r: Run, disk: map<Key, Record>, ephemeral: bool,
                    result: Option<seq<Message>>, failure: Option<string>)
    requires RunInv(key, r, disk, ephemeral) && r.pc.Executing?
    requires result.Some? && failure.None? ==> Subsequence(r.messages, result.value)
    ensures RunInv(key, RunnerReturns(r, result, failure), disk, ephemeral)
  {}

  lemma CheckContextKeeps(key: Key, r: Run, disk: map<Key, Record>, ephemeral: bool)
    requires RunInv(key, r, disk, ephemeral) && r.pc.Returned?
    ensures RunInv(key, CheckContext(r, ephemeral), disk, ephemeral)
  {}

  lemma EnterPersistKeeps(key: Key, r: Run, disk: map<Key, Record>, ephemeral: bool)
    requires RunInv(key, r, disk, ephemeral) && r.pc.Gate?
    ensures RunInv(key, EnterPersist(r), disk, ephemeral)
  {}

  lemma ReadFlagsKeeps(key: Key, r: Run, disk: map<Key, Record>, ephemeral: bool)
    requires RunInv(key, r, disk, ephemeral) && r.pc.Deciding?
    ensures RunInv(key, ReadFlags(r), disk, ephemeral)
  {}

  lemma JudgeKeeps(key: Key, r: Run, disk: map<Key, Record>, ephemeral: bool)
    requires RunInv(key, r, disk, ephemeral) && r.pc.Judging?
    ensures RunInv(key, Judge(key, r, ephemeral), disk, ephemeral)
  {}

  lemma CancelKeeps(key: Key, r: Run, disk: map<Key, Record>, ephemeral: bool)
    requires RunInv(key, r, disk, ephemeral) && !r.phase.Persisting?
    ensures RunInv(key, r.(canceled := true), disk, ephemeral)
  {}
}
