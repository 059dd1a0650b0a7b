/** The run coordinator as a state machine: internal/chat/coordinator.go and the commit sequence of
    internal/chat/service.go.

    Every block under the coordinator's mutex, and every step a run's goroutine takes between two such
    blocks, is one function on `State`. What the model cannot see (the runner, the store's I/O, the
    order in which goroutines are scheduled) is a parameter of the step. */
module CoordinatorSpec {
  import opened Transcript
  import opened Subscriptions
  import opened Retention
  import opened Service

  datatype Phase = Preparing | Running | Waiting | Persisting

  datatype Answer =
    | PermissionAnswer(approved: bool)
    | AskAnswer(selected: int, answer: string, choice: string)

  /** A reply as it lies in the run's response channel, with the interaction it was addressed to. */
  datatype Reply = Reply(interactionId: string, answer: Answer)

  datatype ExecError = NoError | SaveError(text: string) | OtherError(text: string)

  /** Where the goroutine of ExecuteTurn stands. */
  datatype Pc =
    | Claimed
    | Executing
    | Blocked(asked: Pending)
    | Returned(result: seq<Message>)
    | Gate(result: seq<Message>)
    | Saving(result: seq<Message>)
    | Deciding(produced: Option<seq<Message>>, err: ExecError)
    | Judging(produced: Option<seq<Message>>, err: ExecError, sawLimit: bool, sawPersisting: bool)
    | Finishing(produced: Option<seq<Message>>, verdict: Outcome)

  /** `raw` records every event the run has published, in order. */
  datatype Run = Run(id: string, messages: seq<Message>, record: Record, events: seq<Event>,
                     pending: Option<Pending>, mailbox: Option<Reply>, phase: Phase, canceled: bool,
                     spent: nat, limited: bool, raw: seq<Event>, pc: Pc)

  datatype Feeds = Feeds(subs: map<nat, Sub>, registered: set<nat>)

  /** A shutdown caller: waiting for the captured runs, then for the list workers, then closing. */
  datatype ShutdownPc = Draining(runs: set<string>) | Listing | Closing | Drained | TimedOut

  /** Ids ever handed out, runs that ended, interactions that were answered. */
  datatype Log = Log(used: set<string>, ended: set<string>, answered: set<string>)

  datatype State = State(ephemeral: bool, runs: map<Key, Run>, cache: Cache, feeds: Feeds,
                         disk: map<Key, Record>, stores: set<string>, stopped: bool, lists: nat,
                         shutdowns: map<nat, ShutdownPc>, log: Log)

  datatype Error =
    | EmptyChat | EngineStopped | SessionBusy | LeaseDenied | LoadFailed | NotFound | SaveFailed
    | BadSession | ProjectionLimit | RunNotFound | StaleInteraction | BadSelection | SlowQueue

  datatype Result<+T> = Ok(value: T) | Err(error: Error)

  /** What the store does when it is asked: the lease, reading, writing. */
  datatype Io = Io(leaseOk: bool, loadOk: bool, writeOk: bool)

  const INITIAL_LOG := Log({}, {}, {})

  function Initial(ephemeral: bool): State {
    State(ephemeral, map[], EMPTY_CACHE, Feeds(map[], {}), map[], {}, false, 0, map[], INITIAL_LOG)
  }

  const LIMIT_TEXT := "run projection exceeded 4 MiB; start a shorter turn"

  // ---- Delivery ----

  function Touched(f: Feeds, key: Key): set<nat> {
    set i | i in f.registered && i in f.subs && f.subs[i].key == key
  }

  /** Fans one update out to every registered queue of a session; a full queue is dropped. */
  function Publish(f: Feeds, key: Key, u: Update): Feeds {
    Feeds(map i | i in f.subs :: if i in Touched(f, key) then Enqueued(f.subs[i], u).0 else f.subs[i],
          set i | i in f.registered && (i in Touched(f, key) ==> Enqueued(f.subs[i], u).1))
  }

  function RunSnapshot(key: Key, r: Run): Snapshot {
    Snapshot(key.session, r.id, true, Some(r.messages), r.events, r.pending, None, false, false)
  }

  function OpenStore(s: State, workspace: string): set<string> {
    if s.ephemeral then s.stores else s.stores + {workspace}
  }

  /** Where a session's record is kept: every workspace has its own store, except that an ephemeral engine
      has one memory, addressed by the id alone. */
  function At(ephemeral: bool, key: Key): Key { if ephemeral then Key("", key.session) else key }

  function StoredMessages(s: State, key: Key): seq<Message> {
    if At(s.ephemeral, key) in s.disk then s.disk[At(s.ephemeral, key)].messages else []
  }

  /** The snapshot a subscriber would get now: the live run, else the cached end, else the store. */
  function CurrentSnapshot(s: State, key: Key, io: Io): (r: (State, Result<Snapshot>)) {
    if key in s.runs then (s, Ok(RunSnapshot(key, s.runs[key])))
    else if key in s.cache.terminal then (s, Ok(s.cache.terminal[key]))
    else
      var s := s.(stores := OpenStore(s, key.workspace));
      if !io.leaseOk then (s, Err(LeaseDenied))
      else if key.session == "" then (s, Err(BadSession))
      else if !io.loadOk then (s, Err(LoadFailed))
      else (s, Ok(Snapshot(key.session, "", false, Some(StoredMessages(s, key)),
                           [], None, None, false, false)))
  }

  // ---- Reservation ----

  function NewRun(key: Key, runId: string, record: Record, messages: seq<Message>): Run {
    Run(runId, messages, record, [], None, None, Preparing, false, MessagesBytes(messages), false, [], Claimed)
  }

  function Admit(s: State, key: Key, run: Run): State {
    var runs := s.runs[key := run];
    s.(runs := runs, cache := Drop(s.cache, key),
       feeds := Publish(s.feeds, key, SnapshotUpdate("", RunSnapshot(key, run))),
       log := s.log.(used := s.log.used + {run.id}))
  }

  /** ReserveTurn. A session that does not exist yet is written before the history is measured. */
  function Reserve(s: State, key: Key, incoming: seq<Message>, runId: string, title: string, io: Io)
    : (r: (State, Result<string>))
  {
    if incoming == [] then (s, Err(EmptyChat))
    else if s.stopped then (s, Err(EngineStopped))
    else if key in s.runs then (s, Err(SessionBusy))
    else
      var s := s.(stores := OpenStore(s, key.workspace));
      if !io.leaseOk then (s, Err(LeaseDenied))
      else if !io.loadOk then (s, Err(LoadFailed))
      else if At(s.ephemeral, key) !in s.disk && !io.writeOk then (s, Err(SaveFailed))
      else
        var at := At(s.ephemeral, key);
        var s := if at in s.disk then s else s.(disk := s.disk[at := Record(key.session, title, [])]);
        var messages := HistoryFrom(s.disk[at].messages) + incoming;
        if MessagesBytes(messages) > MAX_PROJECTION_BYTES then (s, Err(ProjectionLimit))
        else (Admit(s, key, NewRun(key, runId, s.disk[at], messages)), Ok(runId))
  }

  // ---- One run's own steps ----

  function WithRun(s: State, key: Key, run: Run): State {
    s.(runs := s.runs[key := run])
  }

  function CreateRunner(key: Key, r: Run, ok: bool, text: string): Run {
    if ok then r.(phase := Running, pc := Executing)
    else r.(pc := Finishing(None, Outcome(key.session, r.id, Failed, false, text, "runner_creation_failed")))
  }

  function Stamped(key: Key, r: Run, e: Event): Event { e.(sessionId := key.session, runId := r.id) }

  predicate Fits(r: Run, e: Event) { r.spent + EventBytes(e) <= MAX_PROJECTION_BYTES }

  /** appendAndBroadcastEvent, for an event already stamped with its session and run. */
  function Append(s: State, key: Key, e: Event): State
    requires key in s.runs
  {
    var r := s.runs[key];
    if r.limited then s
    else if !Fits(r, e) then WithRun(s, key, r.(limited := true, canceled := true))
    else
      var s := WithRun(s, key, r.(spent := r.spent + EventBytes(e), events := Absorb(r.events, e), raw := r.raw + [e]));
      s.(feeds := Publish(s.feeds, key, EventUpdate(e)))
  }

  /** The locked part of waitInteraction. */
  function Interact(s: State, key: Key, id: string, prompt: Prompt): State
    requires key in s.runs
  {
    var r := s.runs[key];
    if r.canceled then s
    else
      var p := Pending(id, key.session, r.id, prompt);
      var s := WithRun(s, key, r.(phase := Waiting, pending := Some(p), mailbox := None, pc := Blocked(p)));
      s.(feeds := Publish(s.feeds, key, InteractionUpdate(p)), log := s.log.(used := s.log.used + {id}))
  }

  predicate SameKind(prompt: Prompt, answer: Answer) {
    prompt.Permission? <==> answer.PermissionAnswer?
  }

  predicate Stale(s: State, key: Key, runId: string, id: string, answer: Answer) {
    key !in s.runs || s.runs[key].id != runId || s.runs[key].pending == None
    || s.runs[key].pending.value.id != id || !SameKind(s.runs[key].pending.value.prompt, answer)
    || s.runs[key].canceled
  }

  /** The first half of an accepted reply: the interaction is consumed and its resolution published. */
  function Resolve(s: State, key: Key): State
    requires key in s.runs && s.runs[key].pending.Some?
  {
    var p := s.runs[key].pending.value;
    WithRun(s, key, s.runs[key].(pending := None, phase := Running))
      .(feeds := Publish(s.feeds, key, ResolvedUpdate(p)), log := s.log.(answered := s.log.answered + {p.id}))
  }

  /** The second half: the answer goes into the waiter's channel. */
  function HandOver(s: State, key: Key, id: string, answer: Answer): State
    requires key in s.runs
  {
    WithRun(s, key, s.runs[key].(mailbox := Some(Reply(id, answer))))
  }

  /** reply. Both halves are under the coordinator's mutex, in this order. */
  function Answered(s: State, key: Key, runId: string, id: string, answer: Answer): (r: (State, Result<()>)) {
    if Stale(s, key, runId, id, answer) then (s, Err(StaleInteraction))
    else
      var p := s.runs[key].pending.value;
      if answer.AskAnswer? && (answer.selected < -1 || answer.selected >= |p.prompt.options|) then
        (s, Err(BadSelection))
      else
        (HandOver(Resolve(s, key), key, id, answer), Ok(()))
  }

  /** The runner's goroutine leaves the wait: with the answer, or because the run was canceled. */
  function Wake(r: Run, byCancel: bool): Run {
    if byCancel then (if r.canceled then r.(pc := Executing) else r)
    else if r.mailbox.Some? then r.(mailbox := None, pc := Executing)
    else r
  }

  /** RunWithHistory returns: a failure, no result, or a result. */
  function RunnerReturns(r: Run, result: Option<seq<Message>>, failure: Option<string>): Run {
    if failure.Some? then r.(pc := Deciding(result, OtherError(failure.value)))
    else if result.None? then r.(pc := Deciding(None, OtherError("runner returned no result")))
    else r.(pc := Returned(result.value))
  }

  function CheckContext(r: Run, ephemeral: bool): Run
    requires r.pc.Returned?
  {
    if r.canceled then r.(pc := Deciding(Some(r.pc.result), OtherError("context canceled")))
    else if ephemeral then r.(pc := Deciding(Some(r.pc.result), NoError))
    else r.(pc := Gate(r.pc.result))
  }

  /** OnPersist: the last moment at which a cancel is honoured. */
  function EnterPersist(r: Run): Run
    requires r.pc.Gate?
  {
    if r.canceled then r.(pc := Deciding(Some(r.pc.result), OtherError("context canceled")))
    else r.(phase := Persisting, pc := Saving(r.pc.result))
  }

  /** Store.Save of the finished turn. A failing save leaves the old record. */
  function Commit(s: State, key: Key, ok: bool, text: string): State
    requires key in s.runs && s.runs[key].pc.Saving?
  {
    var r := s.runs[key];
    if ok then
      WithRun(s, key, r.(pc := Deciding(Some(r.pc.result), NoError)))
        .(disk := s.disk[At(s.ephemeral, key) := r.record.(messages := WithoutSystem(r.pc.result))])
    else
      WithRun(s, key, r.(pc := Deciding(Some(r.pc.result), SaveError("persistence failed: " + text))))
  }

  function ReadFlags(r: Run): Run
    requires r.pc.Deciding?
  {
    r.(pc := Judging(r.pc.produced, r.pc.err, r.limited, r.phase.Persisting?))
  }

  /** The outcome switch at the end of ExecuteTurn; the run's context is read here, outside the lock. */
  function Verdict(key: Key, r: Run, ephemeral: bool): Outcome
    requires r.pc.Judging?
  {
    if r.pc.sawLimit then Outcome(key.session, r.id, Failed, false, LIMIT_TEXT, "projection_limit")
    else if r.pc.err.SaveError? then
      Outcome(key.session, r.id, PersistenceFailed, false, r.pc.err.text, "persistence_failed")
    else if !r.pc.sawPersisting && r.canceled then
      Outcome(key.session, r.id, Canceled, false, "run canceled", "canceled")
    else if r.pc.err.OtherError? then Outcome(key.session, r.id, Failed, false, r.pc.err.text, "execution_failed")
    else Outcome(key.session, r.id, Succeeded, !ephemeral, "", "")
  }

  function Judge(key: Key, r: Run, ephemeral: bool): Run
    requires r.pc.Judging?
  {
    r.(pc := Finishing(r.pc.produced, Verdict(key, r, ephemeral)))
  }

  function FinalSnapshot(key: Key, r: Run): Snapshot
    requires r.pc.Finishing?
  {
    var o := r.pc.verdict;
    var snap := RunSnapshot(key, r).(running := false, pending := None, outcome := Some(o),
                                     unsavedAvailable := !o.status.Succeeded?);
    if r.pc.produced.Some? && (o.status.Succeeded? || o.status.PersistenceFailed?) then
      snap.(messages := Some(WithoutSystem(r.pc.produced.value)), events := [])
    else snap
  }

  function Finish(s: State, key: Key): State
    requires key in s.runs && s.runs[key].pc.Finishing?
  {
    var r := s.runs[key];
    s.(runs := s.runs - {key}, cache := Retain(s.cache, key, FinalSnapshot(key, r)),
       feeds := Publish(s.feeds, key, OutcomeUpdate(r.pc.verdict)),
       log := s.log.(ended := s.log.ended + {r.id}))
  }

  function Cancel(s: State, key: Key, runId: string): (r: (State, Result<()>)) {
    if key !in s.runs || runId == "" || s.runs[key].id != runId then (s, Err(RunNotFound))
    else if s.runs[key].phase.Persisting? then (s, Ok(()))
    else (WithRun(s, key, s.runs[key].(canceled := true)), Ok(()))
  }

  // ---- Subscriptions ----

  function AddSub(f: Feeds, id: nat, key: Key, u: Update): (r: (Feeds, bool)) {
    var (sub, ok) := Enqueued(NewSub(key), u);
    (Feeds(f.subs[id := sub], if ok then f.registered + {id} else f.registered), ok)
  }

  function Subscribe(s: State, key: Key, requestId: string, id: nat, io: Io): (r: (State, Result<nat>)) {
    if s.stopped then (s, Err(EngineStopped))
    else
      var (s, snap) := CurrentSnapshot(s, key, io);
      if snap.Err? then (s, Err(snap.error))
      else
        var (feeds, ok) := AddSub(s.feeds, id, key, SnapshotUpdate(requestId, snap.value));
        (s.(feeds := feeds), if ok then Ok(id) else Err(SlowQueue))
  }

  /** One registered queue takes an update and is dropped when it cannot. */
  function Offer(f: Feeds, id: nat, u: Update): (r: (Feeds, bool))
    requires id in f.subs
  {
    var (sub, ok) := Enqueued(f.subs[id], u);
    (Feeds(f.subs[id := sub], if ok then f.registered else f.registered - {id}), ok)
  }

  function Resnapshot(s: State, id: nat, requestId: string, io: Io): (r: (State, Result<()>)) {
    if id !in s.feeds.registered || id !in s.feeds.subs then (s, Err(SlowQueue))
    else
      var (s, snap) := CurrentSnapshot(s, s.feeds.subs[id].key, io);
      if snap.Err? then (s, Err(snap.error))
      else
        var (feeds, ok) := Offer(s.feeds, id, SnapshotUpdate(requestId, snap.value));
        (s.(feeds := feeds), if ok then Ok(()) else Err(SlowQueue))
  }

  function Unsubscribe(f: Feeds, id: nat): Feeds {
    if id in f.subs then Feeds(f.subs[id := Shut(f.subs[id])], f.registered - {id}) else f
  }

  function ReaderStep(f: Feeds, id: nat, receive: bool): Feeds {
    if id !in f.subs then f
    else f.(subs := f.subs[id := if receive then Received(f.subs[id]) else Settled(f.subs[id]).0])
  }

  // ---- Store mutations and listings ----

  datatype Mutation = Create(title: string) | Delete | Rename(title: string)

  function Mutate(s: State, key: Key, m: Mutation, io: Io): (r: (State, Result<()>)) {
    if s.stopped then (s, Err(EngineStopped))
    else if key in s.runs then (s, Err(SessionBusy))
    else
      var s := s.(stores := OpenStore(s, key.workspace));
      if !io.leaseOk then (s, Err(LeaseDenied))
      else if key.session == "" then (s, Err(BadSession))
      else
        var at := At(s.ephemeral, key);
        match m
        case Create(title) =>
          if !io.writeOk then (s, Err(SaveFailed))
          else (s.(disk := s.disk[at := Record(key.session, title, [])], cache := Drop(s.cache, key)), Ok(()))
        case Delete =>
          if !io.writeOk then (s, Err(SaveFailed))
          else (s.(disk := s.disk - {at}, cache := Drop(s.cache, key)), Ok(()))
        case Rename(title) =>
          if !io.loadOk then (s, Err(LoadFailed))
          else if at !in s.disk then (s, Err(NotFound))
          else if !io.writeOk then (s, Err(SaveFailed))
          else (s.(disk := s.disk[at := s.disk[at].(title := title)]), Ok(()))
  }

  function ListBegin(s: State, workspace: string): (r: (State, Result<()>)) {
    if s.stopped then (s, Err(EngineStopped))
    else (s.(stores := OpenStore(s, workspace), lists := s.lists + 1), Ok(()))
  }

  // ---- Shutdown ----

  function RunIds(runs: map<Key, Run>): set<string> { set k | k in runs :: runs[k].id }

  function CancelAll(runs: map<Key, Run>): map<Key, Run> {
    map k | k in runs :: if runs[k].phase.Persisting? then runs[k] else runs[k].(canceled := true)
  }

  function ShutdownBegin(s: State, caller: nat): State {
    s.(stopped := true, runs := CancelAll(s.runs),
       shutdowns := s.shutdowns[caller := Draining(RunIds(s.runs))])
  }

  /** One more captured run is seen to be done, or the list workers are, or time runs out. */
  function ShutdownRun(s: State, caller: nat, runId: string): State
    requires caller in s.shutdowns && s.shutdowns[caller].Draining?
  {
    if runId in s.log.ended then
      s.(shutdowns := s.shutdowns[caller := Draining(s.shutdowns[caller].runs - {runId})])
    else s
  }

  function ShutdownLists(s: State, caller: nat): State
    requires caller in s.shutdowns
  {
    match s.shutdowns[caller]
    case Draining(runs) => if runs == {} then s.(shutdowns := s.shutdowns[caller := Listing]) else s
    case Listing => if s.lists == 0 then s.(shutdowns := s.shutdowns[caller := Closing]) else s
    case _ => s
  }

  function ShutdownTimeout(s: State, caller: nat): State
    requires caller in s.shutdowns
  {
    if s.shutdowns[caller].Draining? || s.shutdowns[caller].Listing? then
      s.(shutdowns := s.shutdowns[caller := TimedOut])
    else s
  }

  function CloseAll(f: Feeds): Feeds {
    Feeds(map i | i in f.subs :: if i in f.registered then Shut(f.subs[i]) else f.subs[i], {})
  }

  function ShutdownClose(s: State, caller: nat): State
    requires caller in s.shutdowns && s.shutdowns[caller].Closing?
  {
    s.(feeds := CloseAll(s.feeds), stores := {}, shutdowns := s.shutdowns[caller := Drained])
  }

  // ---- Every step there is ----

  datatype Action =
    | DoReserve(key: Key, incoming: seq<Message>, runId: string, title: string, io: Io)
    | DoCreateRunner(key: Key, ok: bool, text: string)
    | DoEmit(key: Key, event: Event)
    | DoInteract(key: Key, id: string, prompt: Prompt)
    | DoReply(key: Key, runId: string, id: string, answer: Answer)
    | DoWake(key: Key, byCancel: bool)
    | DoReturn(key: Key, result: Option<seq<Message>>, failure: Option<string>)
    | DoCheckContext(key: Key)
    | DoEnterPersist(key: Key)
    | DoCommit(key: Key, ok: bool, text: string)
    | DoReadFlags(key: Key)
    | DoJudge(key: Key)
    | DoFinish(key: Key)
    | DoCancel(key: Key, runId: string)
    | DoSubscribe(key: Key, requestId: string, sub: nat, io: Io)
    | DoResnapshot(sub: nat, requestId: string, io: Io)
    | DoUnsubscribe(sub: nat)
    | DoReader(sub: nat, receive: bool)
    | DoSnapshot(key: Key, io: Io)
    | DoMutate(key: Key, mutation: Mutation, io: Io)
    | DoListBegin(workspace: string)
    | DoListEnd
    | DoShutdownBegin(caller: nat)
    | DoShutdownRun(caller: nat, runId: string)
    | DoShutdownLists(caller: nat)
    | DoShutdownTimeout(caller: nat)
    | DoShutdownClose(caller: nat)

  /** When a step may be taken. A runner emits and asks only while it executes, asks one thing at a time,
      and returns a history that contains the one it was given; new ids are new. */
  predicate Enabled(s: State, a: Action) {
    match a
    case DoReserve(key, _, runId, _, _) => key.session != "" && runId != "" && runId !in s.log.used
    case DoCreateRunner(key, _, _) => key in s.runs && s.runs[key].pc.Claimed?
    case DoEmit(key, _) => key in s.runs && (s.runs[key].pc.Executing? || s.runs[key].pc.Blocked?)
    case DoInteract(key, id, _) => key in s.runs && s.runs[key].pc.Executing? && id != "" && id !in s.log.used
    case DoWake(key, _) => key in s.runs && s.runs[key].pc.Blocked?
    case DoReturn(key, result, failure) =>
      key in s.runs && s.runs[key].pc.Executing?
      && (result.Some? && failure.None? ==> Subsequence(s.runs[key].messages, result.value))
    case DoCheckContext(key) => key in s.runs && s.runs[key].pc.Returned?
    case DoEnterPersist(key) => key in s.runs && s.runs[key].pc.Gate?
    case DoCommit(key, _, _) => key in s.runs && s.runs[key].pc.Saving?
    case DoReadFlags(key) => key in s.runs && s.runs[key].pc.Deciding?
    case DoJudge(key) => key in s.runs && s.runs[key].pc.Judging?
    case DoFinish(key) => key in s.runs && s.runs[key].pc.Finishing?
    case DoSubscribe(_, _, sub, _) => sub !in s.feeds.subs
    case DoListEnd => s.lists > 0
    case DoShutdownBegin(caller) => caller !in s.shutdowns
    case DoShutdownRun(caller, _) => caller in s.shutdowns && s.shutdowns[caller].Draining?
    case DoShutdownLists(caller) => caller in s.shutdowns
    case DoShutdownTimeout(caller) => caller in s.shutdowns
    case DoShutdownClose(caller) => caller in s.shutdowns && s.shutdowns[caller].Closing?
    case _ => true
  }

  function Perform(s: State, a: Action): State
    requires Enabled(s, a)
  {
    match a
    case DoReserve(key, incoming, runId, title, io) => Reserve(s, key, incoming, runId, title, io).0
    case DoCreateRunner(key, ok, text) => WithRun(s, key, CreateRunner(key, s.runs[key], ok, text))
    case DoEmit(key, e) => Append(s, key, Stamped(key, s.runs[key], e))
    case DoInteract(key, id, prompt) => Interact(s, key, id, prompt)
    case DoReply(key, runId, id, answer) => Answered(s, key, runId, id, answer).0
    case DoWake(key, byCancel) => WithRun(s, key, Wake(s.runs[key], byCancel))
    case DoReturn(key, result, failure) => WithRun(s, key, RunnerReturns(s.runs[key], result, failure))
    case DoCheckContext(key) => WithRun(s, key, CheckContext(s.runs[key], s.ephemeral))
    case DoEnterPersist(key) => WithRun(s, key, EnterPersist(s.runs[key]))
    case DoCommit(key, ok, text) => Commit(s, key, ok, text)
    case DoReadFlags(key) => WithRun(s, key, ReadFlags(s.runs[key]))
    case DoJudge(key) => WithRun(s, key, Judge(key, s.runs[key], s.ephemeral))
    case DoFinish(key) => Finish(s, key)
    case DoCancel(key, runId) => Cancel(s, key, runId).0
    case DoSubscribe(key, requestId, sub, io) => Subscribe(s, key, requestId, sub, io).0
    case DoResnapshot(sub, requestId, io) => Resnapshot(s, sub, requestId, io).0
    case DoUnsubscribe(sub) => s.(feeds := Unsubscribe(s.feeds, sub))
    case DoReader(sub, receive) => s.(feeds := ReaderStep(s.feeds, sub, receive))
    case DoSnapshot(key, io) => CurrentSnapshot(s, key, io).0
    case DoMutate(key, m, io) => Mutate(s, key, m, io).0
    case DoListBegin(workspace) => ListBegin(s, workspace).0
    case DoListEnd => s.(lists := s.lists - 1)
    case DoShutdownBegin(caller) => ShutdownBegin(s, caller)
    case DoShutdownRun(caller, runId) => ShutdownRun(s, caller, runId)
    case DoShutdownLists(caller) => ShutdownLists(s, caller)
    case DoShutdownTimeout(caller) => ShutdownTimeout(s, caller)
    case DoShutdownClose(caller) => ShutdownClose(s, caller)
  }

  function Step(s: State, a: Action): State { if Enabled(s, a) then Perform(s, a) else s }

  /** The state after any sequence of steps; a step that is not enabled where it stands does nothing. */
  function Reach(s: State, actions: seq<Action>): State {
    if actions == [] then s else Step(Reach(s, actions[..|actions| - 1]), actions[|actions| - 1])
  }

  /** The second state is the first one at some later moment of a run. */
  ghost predicate Later(s: State, t: State) { exists actions :: Reach(s, actions) == t }

  /** The state is reached in some run of an engine. */
  ghost predicate Occurs(ephemeral: bool, s: State) { Later(Initial(ephemeral), s) }

  lemma StepOccurs(ephemeral: bool, s: State, a: Action)
    requires Occurs(ephemeral, s)
    ensures Occurs(ephemeral, Step(s, a))
  {
    hide Step;
    var actions :| Reach(Initial(ephemeral), actions) == s;
    var more := actions + [a];
    assert more[..|more| - 1] == actions;
    assert Reach(Initial(ephemeral), more) == Step(s, a);
  }

  /** Whatever an enabled step makes of a state that occurs in a run occurs in a run. */
  lemma PerformOccurs(ephemeral: bool, s: State, a: Action, t: State)
    requires Occurs(ephemeral, s) && Enabled(s, a) && Perform(s, a) == t
    ensures Occurs(ephemeral, t)
  {
    hide Perform, Occurs, Enabled;
    StepOccurs(ephemeral, s, a);
  }
}
