/** The desktop client's state: apps/electron/lib/engineState.ts. */
module Reducer {
  import opened Transcript
  import opened Wire

  datatype BlockRole = SystemBlock | UserBlock | AssistantBlock | ReasonBlock | ToolBlock | ErrorBlock

  datatype Block = Block(role: BlockRole, content: string, meta: Option<string>, args: Option<string>)

  datatype SessionUsage = SessionUsage(prompt: nat, completion: nat, total: nat)

  const NO_USAGE := SessionUsage(0, 0, 0)

  /** `streaming` is the set of keys whose recorded value is true. */
  datatype EngineState = EngineState(
    status: string, workspace: Option<string>, sessions: seq<string>,
    blocks: map<string, seq<Block>>, streaming: set<string>, usage: map<string, SessionUsage>,
    asks: map<string, AskReq>, perms: map<string, PermissionReq>,
    runIds: map<string, string>, outcomes: map<string, Outcome>,
    activeId: Option<string>, allowAll: bool, refreshList: nat, error: Option<string>)

  const INITIAL := EngineState("disconnected", None, [], map[], {}, map[], map[], map[], map[], map[],
                               None, false, 0, None)

  datatype Action =
    | Reset
    | SetStatus(status: string)
    | SetActive(id: Option<string>)
    | SetError(message: Option<string>)
    | Server(msg: WireMessage)

  function OptString(s: string): Option<string> { if s == "" then None else Some(s) }

  function Lookup<V>(m: map<string, V>, k: string): Option<V> { if k in m then Some(m[k]) else None }

  // ---- Blocks ----

  function BlocksOf(st: EngineState, sid: string): seq<Block> { if sid in st.blocks then st.blocks[sid] else [] }

  function AppendBlock(cur: seq<Block>, b: Block): seq<Block> {
    var n := |cur|;
    if n > 0 && cur[n - 1].role == b.role && cur[n - 1].meta == b.meta then
      cur[..n - 1] + [cur[n - 1].(content := cur[n - 1].content + b.content)]
    else
      cur + [b]
  }

  predicate UnfinishedTool(cur: seq<Block>, toolName: Option<string>) {
    |cur| > 0 && var last := cur[|cur| - 1]; last.role == ToolBlock && last.meta == toolName && last.args == None
  }

  function AppendToolArgs(cur: seq<Block>, d: Delta): seq<Block> {
    var n := |cur|;
    if UnfinishedTool(cur, OptString(d.toolName)) then
      cur[..n - 1] + [cur[n - 1].(content := cur[n - 1].content + d.toolArgs)]
    else
      cur + [Block(ToolBlock, d.toolArgs, OptString(d.toolName), None)]
  }

  function CompleteTool(cur: seq<Block>, d: Delta): seq<Block> {
    var n := |cur|;
    if d.toolName != "" && UnfinishedTool(cur, OptString(d.toolName)) then
      cur[..n - 1] + [Block(ToolBlock, d.toolResult, Some(d.toolName), Some(cur[n - 1].content))]
    else
      cur + [Block(ToolBlock, d.toolResult, if d.toolName != "" then Some(d.toolName + " →") else None, None)]
  }

  function UsageOf(st: EngineState, sid: string): SessionUsage { if sid in st.usage then st.usage[sid] else NO_USAGE }

  function AddUsage(u: SessionUsage, d: Delta): SessionUsage {
    SessionUsage(u.prompt + d.promptTokens, u.completion + d.completionTokens,
                 u.total + (if d.totalTokens != 0 then d.totalTokens else d.promptTokens + d.completionTokens))
  }

  // ---- Per-session updates ----

  /** Leaves out a session's entry; the empty id is passed over, as in clearInteractions. */
  function Cleared<V>(m: map<string, V>, sid: string): map<string, V> { if sid == "" then m else m - {sid} }

  function Streaming(st: EngineState, sid: string, on: bool): set<string> {
    if sid == "" then st.streaming else if on then st.streaming + {sid} else st.streaming - {sid}
  }

  predicate CountsUsage(d: Delta) {
    && (d.kind.GenerationEvent? || d.kind.DoneEvent?)
    && (d.totalTokens != 0 || d.promptTokens != 0 || d.completionTokens != 0)
  }

  predicate TouchesBlocks(kind: EventKind) {
    kind.TextEvent? || kind.ReasoningEvent? || kind.ToolStartEvent? || kind.ToolResultEvent? || kind.ErrorEvent?
  }

  /** What one delta does to a transcript. */
  function DeltaBlocks(cur: seq<Block>, d: Delta): seq<Block> {
    match d.kind
    case TextEvent => AppendBlock(cur, Block(AssistantBlock, d.text, None, None))
    case ReasoningEvent => AppendBlock(cur, Block(ReasonBlock, d.reasoning, None, None))
    case ToolStartEvent => AppendToolArgs(cur, d)
    case ToolResultEvent => CompleteTool(cur, d)
    case ErrorEvent => AppendBlock(cur, Block(ErrorBlock, d.text, None, None))
    case _ => cur
  }

  /** The handler table of applyDelta: blocks for the five transcript kinds, token counts for generation
      and done, and the streaming flag for a kind the table does not know. */
  function ApplyDelta(st: EngineState, sid: string, d: Delta): EngineState {
    if sid == "" then st
    else st.(blocks := if TouchesBlocks(d.kind) then st.blocks[sid := DeltaBlocks(BlocksOf(st, sid), d)] else st.blocks,
             usage := if CountsUsage(d) then st.usage[sid := AddUsage(UsageOf(st, sid), d)] else st.usage,
             streaming := if d.kind.OtherEvent? then st.streaming + {sid} else st.streaming)
  }

  function ApplyDeltas(st: EngineState, sid: string, ds: seq<Delta>): EngineState {
    if ds == [] then st
    else ApplyDelta(ApplyDeltas(st, sid, ds[..|ds| - 1]), sid, ds[|ds| - 1])
  }

  function StatusText(s: Status): string {
    match s
    case Succeeded => "succeeded"
    case Failed => "failed"
    case Canceled => "canceled"
    case PersistenceFailed => "persistence_failed"
  }

  function OutcomeBlocks(o: Outcome): seq<Block> {
    if o.status.Succeeded? then []
    else [Block(ErrorBlock, if o.status.PersistenceFailed? then "History was not saved. " + o.error
                            else if o.error != "" then o.error else StatusText(o.status), None, None)]
  }

  function ApplyOutcome(st: EngineState, o: Outcome): EngineState {
    var sid := o.sessionId;
    st.(asks := Cleared(st.asks, sid), perms := Cleared(st.perms, sid), streaming := Streaming(st, sid, false),
        outcomes := st.outcomes[sid := o],
        blocks := if o.status.Succeeded? then st.blocks
                  else st.blocks[sid := BlocksOf(st, sid) + OutcomeBlocks(o)])
  }

  // ---- Snapshots ----

  function ArgsOfCalls(calls: seq<ToolCall>, args: map<string, string>): map<string, string> {
    if calls == [] then args
    else ArgsOfCalls(calls[..|calls| - 1], args)[calls[|calls| - 1].id := calls[|calls| - 1].arguments]
  }

  function CollectToolArgs(messages: seq<Message>): map<string, string> {
    if messages == [] then map[]
    else ArgsOfCalls(messages[|messages| - 1].toolCalls, CollectToolArgs(messages[..|messages| - 1]))
  }

  predicate IsDisplayable(m: Message) {
    m.role != SystemRole && !(m.role == AssistantRole && m.content == "" && m.toolCalls != [])
  }

  function MessageToBlock(m: Message, args: map<string, string>): Block {
    match m.role
    case ToolRole => Block(ToolBlock, m.content, OptString(m.name), Lookup(args, m.toolCallId))
    case UserRole => Block(UserBlock, m.content, None, None)
    case _ => Block(AssistantBlock, m.content, None, None)
  }

  function DisplayBlocks(messages: seq<Message>, args: map<string, string>): seq<Block> {
    if messages == [] then []
    else
      var m := messages[|messages| - 1];
      DisplayBlocks(messages[..|messages| - 1], args) + (if IsDisplayable(m) then [MessageToBlock(m, args)] else [])
  }

  function SnapshotBlocks(messages: Option<seq<Message>>): seq<Block> {
    match messages
    case Some(ms) => DisplayBlocks(ms, CollectToolArgs(ms))
    case None => []
  }

  const UNAVAILABLE := Block(ErrorBlock, "Unsaved output is no longer available.", None, None)

  /** First half of applySnapshot: the session starts over from the snapshot's messages. */
  function OpenSnapshot(st: EngineState, p: SessionData): EngineState {
    var sid := p.id;
    st.(activeId := if st.activeId.Some? then st.activeId else Some(sid),
        runIds := st.runIds[sid := p.runId], usage := st.usage[sid := NO_USAGE], outcomes := st.outcomes - {sid},
        asks := Cleared(st.asks, sid), perms := Cleared(st.perms, sid),
        blocks := st.blocks[sid := SnapshotBlocks(p.messages)])
  }

  /** After the events are replayed: the streaming flag and the waiting prompt. */
  function MarkSnapshot(st: EngineState, p: SessionData): EngineState {
    var sid := p.id;
    st.(streaming := Streaming(st, sid, p.running),
        asks := if p.pending.Some? && p.pending.value.PendingAsk? then st.asks[sid := p.pending.value.ask] else st.asks,
        perms := if p.pending.Some? && p.pending.value.PendingPermission? then st.perms[sid := p.pending.value.perm]
                 else st.perms)
  }

  function ApplySnapshot(st: EngineState, p: SessionData): EngineState {
    var sid := p.id;
    var next := MarkSnapshot(ApplyDeltas(OpenSnapshot(st, p), sid, p.events), p);
    var next := if p.outcome.Some? then ApplyOutcome(next, p.outcome.value) else next;
    next.(blocks := if p.projectionUnavailable then next.blocks[sid := BlocksOf(next, sid) + [UNAVAILABLE]]
                    else next.blocks)
  }

  // ---- The reducer ----

  predicate IsLiveRun(st: EngineState, sid: string, runId: string) {
    Lookup(st.runIds, sid) == Some(runId) && sid in st.streaming
  }

  predicate IsCurrentInteraction(st: EngineState, sid: string, iid: string) {
    (sid in st.asks && st.asks[sid].interactionId == iid) || (sid in st.perms && st.perms[sid].interactionId == iid)
  }

  function DeleteSession(st: EngineState, sid: string): EngineState {
    st.(
      asks := Cleared(st.asks, sid), perms := Cleared(st.perms, sid),
      activeId := if st.activeId == Some(sid) then None else st.activeId,
      blocks := st.blocks - {sid}, usage := st.usage - {sid}, streaming := st.streaming - {sid},
      runIds := st.runIds - {sid}, outcomes := st.outcomes - {sid})
  }

  function Handle(st: EngineState, p: Payload): EngineState {
    match p
    case SettingsReply(allowAll) => st.(allowAll := allowAll)
    case InteractionDone(sid, run, iid) =>
      if Lookup(st.runIds, sid) != Some(run) || !IsCurrentInteraction(st, sid, iid) then st
      else st.(asks := Cleared(st.asks, sid), perms := Cleared(st.perms, sid))
    case DeltaMsg(d) => if IsLiveRun(st, d.sessionId, d.runId) then ApplyDelta(st, d.sessionId, d) else st
    case DoneMsg(o) =>
      if Lookup(st.runIds, o.sessionId) != Some(o.runId) then st
      else ApplyOutcome(st, o).(refreshList := st.refreshList + 1)
    case ErrorMsg(e) => st.(error := Some(e))
    case SessionListMsg(sessions) => st.(sessions := sessions)
    case SessionDataMsg(d) => ApplySnapshot(st, d)
    case SessionCreated(id) => st.(activeId := Some(id))
    case SessionDeleted(id) => DeleteSession(st, id)
    case AskMsg(a) => if IsLiveRun(st, a.sessionId, a.runId) then st.(asks := st.asks[a.sessionId := a]) else st
    case PermissionMsg(r) =>
      if IsLiveRun(st, r.sessionId, r.runId) then st.(perms := st.perms[r.sessionId := r]) else st
    case _ => st
  }

  function ReduceServer(st: EngineState, msg: WireMessage): EngineState {
    match msg.payload
    case AuthReply => st
    case WorkspaceReply(ws) =>
      if Some(ws) == st.workspace then st else INITIAL.(status := st.status, workspace := Some(ws))
    case _ => if Some(msg.workspace) != st.workspace then st else Handle(st, msg.payload)
  }

  function Reduce(st: EngineState, a: Action): EngineState {
    match a
    case Reset => INITIAL
    case SetStatus(s) => st.(status := s)
    case SetActive(id) => st.(activeId := id)
    case SetError(m) => st.(error := m)
    case Server(msg) => ReduceServer(st, msg)
  }

  function ReduceAll(st: EngineState, actions: seq<Action>): EngineState {
    if actions == [] then st else Reduce(ReduceAll(st, actions[..|actions| - 1]), actions[|actions| - 1])
  }

  // ---- Messages and the sessions they speak about ----

  /** The session a payload speaks about. */
  function Subject(p: Payload): Option<string> {
    match p
    case SessionDataMsg(d) => Some(d.id)
    case DeltaMsg(d) => Some(d.sessionId)
    case DoneMsg(o) => Some(o.sessionId)
    case AskMsg(a) => Some(a.sessionId)
    case PermissionMsg(r) => Some(r.sessionId)
    case InteractionDone(sid, _, _) => Some(sid)
    case SessionDeleted(id) => Some(id)
    case _ => None
  }

  predicate Admissible(a: Action) {
    a.Server? ==> Decodes(a.msg.payload) && Subject(a.msg.payload) != Some("")
  }

  lemma {:induction false} ApplyDeltasFrame(st: EngineState, sid: string, ds: seq<Delta>)
    ensures var t := ApplyDeltas(st, sid, ds);
            && t.workspace == st.workspace
            && t.asks == st.asks && t.perms == st.perms && t.runIds == st.runIds && t.outcomes == st.outcomes
            && (t.streaming == st.streaming || t.streaming == st.streaming + {sid})
  {
    if ds != [] {
      ApplyDeltasFrame(st, sid, ds[..|ds| - 1]);
    }
  }

  // ---- One session's part of the state ----

  datatype SessionView = SessionView(blocks: seq<Block>, usage: SessionUsage, streaming: bool,
                                     run: Option<string>, ask: Option<AskReq>, perm: Option<PermissionReq>,
                                     outcome: Option<Outcome>)

  function ViewOf(st: EngineState, sid: string): SessionView {
    SessionView(BlocksOf(st, sid), UsageOf(st, sid), sid in st.streaming,
                Lookup(st.runIds, sid), Lookup(st.asks, sid), Lookup(st.perms, sid), Lookup(st.outcomes, sid))
  }

  function DeltaView(v: SessionView, d: Delta): SessionView {
    v.(blocks := DeltaBlocks(v.blocks, d),
       usage := if CountsUsage(d) then AddUsage(v.usage, d) else v.usage,
       streaming := v.streaming || d.kind.OtherEvent?)
  }

  function DeltasView(v: SessionView, ds: seq<Delta>): SessionView {
    if ds == [] then v else DeltaView(DeltasView(v, ds[..|ds| - 1]), ds[|ds| - 1])
  }

  function OutcomeView(v: SessionView, o: Outcome): SessionView {
    v.(ask := None, perm := None, streaming := false, outcome := Some(o), blocks := v.blocks + OutcomeBlocks(o))
  }

  function PendingView(v: SessionView, p: Option<PendingReq>): SessionView {
    match p
    case Some(PendingAsk(a)) => v.(ask := Some(a))
    case Some(PendingPermission(r)) => v.(perm := Some(r))
    case None => v
  }

  /** The transcript part of a snapshot: its messages followed by its events. */
  function TranscriptView(p: SessionData): SessionView {
    DeltasView(SessionView(SnapshotBlocks(p.messages), NO_USAGE, false, Some(p.runId), None, None, None), p.events)
  }

  function SnapshotView(p: SessionData): SessionView {
    var v := PendingView(TranscriptView(p).(streaming := p.running), p.pending);
    var v := if p.outcome.Some? then OutcomeView(v, p.outcome.value) else v;
    if p.projectionUnavailable then v.(blocks := v.blocks + [UNAVAILABLE]) else v
  }

  function PayloadView(v: SessionView, p: Payload): SessionView {
    match p
    case SessionDataMsg(d) => SnapshotView(d)
    case DeltaMsg(d) => if v.run == Some(d.runId) && v.streaming then DeltaView(v, d) else v
    case DoneMsg(o) => if v.run == Some(o.runId) then OutcomeView(v, o) else v
    case AskMsg(a) => if v.run == Some(a.runId) && v.streaming then v.(ask := Some(a)) else v
    case PermissionMsg(r) => if v.run == Some(r.runId) && v.streaming then v.(perm := Some(r)) else v
    case InteractionDone(_, run, iid) =>
      if v.run == Some(run) && ((v.ask.Some? && v.ask.value.interactionId == iid)
                                || (v.perm.Some? && v.perm.value.interactionId == iid))
      then v.(ask := None, perm := None) else v
    case SessionDeleted(_) => SessionView([], NO_USAGE, false, None, None, None, None)
    case _ => v
  }

  lemma DeltaOnView(st: EngineState, sid: string, d: Delta)
    requires sid != ""
    ensures ViewOf(ApplyDelta(st, sid, d), sid) == DeltaView(ViewOf(st, sid), d)
  {}

  lemma {:induction false} DeltasOnView(st: EngineState, sid: string, ds: seq<Delta>)
    requires sid != ""
    ensures ViewOf(ApplyDeltas(st, sid, ds), sid) == DeltasView(ViewOf(st, sid), ds)
  {
    if ds != [] {
      DeltasOnView(st, sid, ds[..|ds| - 1]);
      DeltaOnView(ApplyDeltas(st, sid, ds[..|ds| - 1]), sid, ds[|ds| - 1]);
    }
  }

  /** Streaming is an output of the deltas, never an input. */
  lemma {:induction false} DeltasIgnoreStreaming(v: SessionView, on: bool, ds: seq<Delta>)
    ensures DeltasView(v.(streaming := on), ds).(streaming := true) == DeltasView(v, ds).(streaming := true)
    ensures DeltasView(v.(streaming := on), ds).(streaming := false) == DeltasView(v, ds).(streaming := false)
  {
    if ds != [] { DeltasIgnoreStreaming(v, on, ds[..|ds| - 1]); }
  }

  lemma SnapshotOnView(st: EngineState, p: SessionData)
    requires p.id != "" && (p.outcome.Some? ==> p.outcome.value.sessionId == p.id)
    ensures ViewOf(ApplySnapshot(st, p), p.id) == SnapshotView(p)
  {
    var sid := p.id;
    var open := OpenSnapshot(st, p);
    var base := SessionView(SnapshotBlocks(p.messages), NO_USAGE, false, Some(p.runId), None, None, None);
    assert ViewOf(open, sid) == base.(streaming := sid in st.streaming);
    DeltasOnView(open, sid, p.events);
    DeltasIgnoreStreaming(base, sid in st.streaming, p.events);
    var replayed := ApplyDeltas(open, sid, p.events);
    MarkOnView(replayed, p);
    if p.outcome.Some? {
      OutcomeOnView(MarkSnapshot(replayed, p), p.outcome.value);
    }
  }

  lemma MarkOnView(st: EngineState, p: SessionData)
    requires p.id != ""
    ensures ViewOf(MarkSnapshot(st, p), p.id) == PendingView(ViewOf(st, p.id).(streaming := p.running), p.pending)
  {}

  lemma OutcomeOnView(st: EngineState, o: Outcome)
    requires o.sessionId != ""
    ensures ViewOf(ApplyOutcome(st, o), o.sessionId) == OutcomeView(ViewOf(st, o.sessionId), o)
  {}

  lemma {:induction false} DeltasElsewhere(st: EngineState, at: string, ds: seq<Delta>, sid: string)
    requires at != sid
    ensures ViewOf(ApplyDeltas(st, at, ds), sid) == ViewOf(st, sid)
  {
    if ds != [] { DeltasElsewhere(st, at, ds[..|ds| - 1], sid); }
  }

  lemma SnapshotElsewhere(st: EngineState, p: SessionData, sid: string)
    requires p.id != sid && (p.outcome.Some? ==> p.outcome.value.sessionId == p.id)
    ensures ViewOf(ApplySnapshot(st, p), sid) == ViewOf(st, sid)
  {
    var open := OpenSnapshot(st, p);
    assert ViewOf(open, sid) == ViewOf(st, sid);
    DeltasElsewhere(open, p.id, p.events, sid);
    var marked := MarkSnapshot(ApplyDeltas(open, p.id, p.events), p);
    assert ViewOf(marked, sid) == ViewOf(st, sid);
    if p.outcome.Some? {
      assert ViewOf(ApplyOutcome(marked, p.outcome.value), sid) == ViewOf(marked, sid);
    }
  }

  lemma SnapshotWorkspace(st: EngineState, p: SessionData)
    ensures ApplySnapshot(st, p).workspace == st.workspace
  {
    ApplyDeltasFrame(OpenSnapshot(st, p), p.id, p.events);
  }

  lemma LiveDeltaOnView(st: EngineState, d: Delta, sid: string)
    requires d.sessionId != ""
    ensures ViewOf(Handle(st, DeltaMsg(d)), sid) ==
            if d.sessionId == sid then PayloadView(ViewOf(st, sid), DeltaMsg(d)) else ViewOf(st, sid)
  {
    if d.sessionId == sid { DeltaOnView(st, sid, d); }
    hide DeltaBlocks, AddUsage;
  }

  lemma LivePromptOnView(st: EngineState, p: Payload, sid: string)
    requires (p.AskMsg? || p.PermissionMsg?) && Subject(p) != Some("")
    ensures ViewOf(Handle(st, p), sid) ==
            if Subject(p) == Some(sid) then PayloadView(ViewOf(st, sid), p) else ViewOf(st, sid)
  {
    if p.AskMsg? {} else {}
  }

  lemma DoneOnView(st: EngineState, o: Outcome, sid: string)
    requires o.sessionId != ""
    ensures ViewOf(Handle(st, DoneMsg(o)), sid) ==
            if o.sessionId == sid then PayloadView(ViewOf(st, sid), DoneMsg(o)) else ViewOf(st, sid)
  {
    assert ViewOf(ApplyOutcome(st, o), sid) ==
           if o.sessionId == sid then OutcomeView(ViewOf(st, sid), o) else ViewOf(st, sid);
  }

  lemma ResolvedOnView(st: EngineState, p: Payload, sid: string)
    requires p.InteractionDone? && p.sessionId != ""
    ensures ViewOf(Handle(st, p), sid) ==
            if p.sessionId == sid then PayloadView(ViewOf(st, sid), p) else ViewOf(st, sid)
  {}

  lemma DeletedOnView(st: EngineState, at: string, sid: string)
    requires at != ""
    ensures ViewOf(DeleteSession(st, at), sid) ==
            if at == sid then SessionView([], NO_USAGE, false, None, None, None, None) else ViewOf(st, sid)
  {}

  lemma SnapshotOnEveryView(st: EngineState, d: SessionData, sid: string)
    requires d.id != "" && DataDecodes(d)
    ensures ViewOf(ApplySnapshot(st, d), sid) == if d.id == sid then SnapshotView(d) else ViewOf(st, sid)
  {
    if d.id == sid { SnapshotOnView(st, d); } else { SnapshotElsewhere(st, d, sid); }
  }

  lemma GlobalOnView(st: EngineState, p: Payload, sid: string)
    requires Subject(p) == None
    ensures ViewOf(Handle(st, p), sid) == ViewOf(st, sid) && Handle(st, p).workspace == st.workspace
  {}

  lemma HandleIsSessionLocal(st: EngineState, p: Payload, sid: string)
    requires Decodes(p) && Subject(p) != Some("")
    ensures ViewOf(Handle(st, p), sid) ==
            if Subject(p) == Some(sid) then PayloadView(ViewOf(st, sid), p) else ViewOf(st, sid)
  {
    if p.SessionDataMsg? { SnapshotOnEveryView(st, p.data, sid); }
    else if p.DeltaMsg? { LiveDeltaOnView(st, p.delta, sid); }
    else if p.AskMsg? || p.PermissionMsg? { LivePromptOnView(st, p, sid); }
    else if p.DoneMsg? { DoneOnView(st, p.outcome, sid); }
    else if p.InteractionDone? { ResolvedOnView(st, p, sid); }
    else if p.SessionDeleted? { DeletedOnView(st, p.id, sid); }
    else { GlobalOnView(st, p, sid); }
  }

  lemma ReduceServerHandles(st: EngineState, msg: WireMessage)
    requires st.workspace == Some(msg.workspace) && !msg.payload.WorkspaceReply?
    ensures msg.payload.AuthReply? || ReduceServer(st, msg) == Handle(st, msg.payload)
    ensures msg.payload.AuthReply? ==> ReduceServer(st, msg) == st
  {}

  /** The reducer acts on the session a message names exactly as `PayloadView` acts on that session's
      part of the state, and leaves every other session's part as it was. */
  lemma ReducerIsSessionLocal(st: EngineState, msg: WireMessage, sid: string)
    requires st.workspace == Some(msg.workspace) && !msg.payload.WorkspaceReply?
    requires Decodes(msg.payload) && Subject(msg.payload) != Some("")
    ensures ViewOf(ReduceServer(st, msg), sid) ==
            if Subject(msg.payload) == Some(sid) then PayloadView(ViewOf(st, sid), msg.payload) else ViewOf(st, sid)
  {
    ReduceServerHandles(st, msg);
    if !msg.payload.AuthReply? { HandleIsSessionLocal(st, msg.payload, sid); }
  }

  lemma HandleKeepsWorkspace(st: EngineState, p: Payload)
    ensures Handle(st, p).workspace == st.workspace
  {
    if p.SessionDataMsg? { SnapshotWorkspace(st, p.data); }
    else if p.DeltaMsg? { }
    else if p.AskMsg? || p.PermissionMsg? { }
    else if p.DoneMsg? { assert ApplyOutcome(st, p.outcome).workspace == st.workspace; }
    else if p.InteractionDone? { }
    else if p.SessionDeleted? { }
    else { GlobalOnView(st, p, ""); }
  }

  lemma ReducerKeepsWorkspace(st: EngineState, msg: WireMessage)
    requires !msg.payload.WorkspaceReply?
    ensures ReduceServer(st, msg).workspace == st.workspace
  {
    if st.workspace == Some(msg.workspace) {
      ReduceServerHandles(st, msg);
      HandleKeepsWorkspace(st, msg.payload);
    }
  }

  // ---- What every run of the reducer keeps ----

  /** A prompt on screen belongs to a streaming session and to its recorded run, a recorded outcome
      means the session is not streaming, and a streaming session has a run id. */
  ghost predicate ConsistentView(v: SessionView) {
    && (v.ask.Some? ==> v.streaming && v.run == Some(v.ask.value.runId))
    && (v.perm.Some? ==> v.streaming && v.run == Some(v.perm.value.runId))
    && (v.outcome.Some? ==> !v.streaming)
    && (v.streaming ==> v.run.Some? && v.run.value != "")
  }

  ghost predicate Consistent(st: EngineState) {
    forall sid: string :: ConsistentView(ViewOf(st, sid))
  }

  lemma {:induction false} DeltasKeepIdentity(v: SessionView, ds: seq<Delta>)
    ensures var w := DeltasView(v, ds); w.run == v.run && w.ask == v.ask && w.perm == v.perm && w.outcome == v.outcome
  {
    if ds != [] { DeltasKeepIdentity(v, ds[..|ds| - 1]); }
  }

  lemma PayloadKeepsConsistent(v: SessionView, p: Payload)
    requires ConsistentView(v) && Decodes(p)
    ensures ConsistentView(PayloadView(v, p))
  {
    if p.SessionDataMsg? {
      var d := p.data;
      DeltasKeepIdentity(SessionView(SnapshotBlocks(d.messages), NO_USAGE, false, Some(d.runId), None, None, None),
                         d.events);
      var marked := PendingView(TranscriptView(d).(streaming := d.running), d.pending);
      assert ConsistentView(marked);
    }
  }

  lemma ReduceKeepsConsistent(st: EngineState, a: Action)
    requires Consistent(st) && Admissible(a)
    ensures Consistent(Reduce(st, a))
  {
    forall sid: string ensures ConsistentView(ViewOf(Reduce(st, a), sid)) {
      assert ConsistentView(ViewOf(st, sid));
      if a.Server? && Some(a.msg.workspace) == st.workspace && !a.msg.payload.WorkspaceReply? {
        ReducerIsSessionLocal(st, a.msg, sid);
        PayloadKeepsConsistent(ViewOf(st, sid), a.msg.payload);
      } else {
        OtherwiseOnView(st, a, sid);
      }
    }
  }

  lemma OtherwiseOnView(st: EngineState, a: Action, sid: string)
    requires !(a.Server? && Some(a.msg.workspace) == st.workspace && !a.msg.payload.WorkspaceReply?)
    ensures ViewOf(Reduce(st, a), sid) == ViewOf(st, sid)
            || ViewOf(Reduce(st, a), sid) == SessionView([], NO_USAGE, false, None, None, None, None)
  {}

  /** Over every sequence of decoded messages and local actions the state stays consistent. */
  lemma {:induction false} PromptsBelongToLiveRuns(actions: seq<Action>)
    requires forall a <- actions :: Admissible(a)
    ensures Consistent(ReduceAll(INITIAL, actions))
  {
    if actions != [] {
      PromptsBelongToLiveRuns(actions[..|actions| - 1]);
      ReduceKeepsConsistent(ReduceAll(INITIAL, actions[..|actions| - 1]), actions[|actions| - 1]);
    }
  }

  /** The workspace is the present one and the message speaks for the session's live run: for the end of a
      run or of a prompt its recorded run, otherwise a recorded run that still streams. */
  predicate SpeaksForLiveRun(st: EngineState, msg: WireMessage) {
    && Some(msg.workspace) == st.workspace
    && match msg.payload
       case DeltaMsg(d) => IsLiveRun(st, d.sessionId, d.runId)
       case AskMsg(a) => IsLiveRun(st, a.sessionId, a.runId)
       case PermissionMsg(r) => IsLiveRun(st, r.sessionId, r.runId)
       case DoneMsg(o) => Lookup(st.runIds, o.sessionId) == Some(o.runId)
       case InteractionDone(sid, run, iid) => Lookup(st.runIds, sid) == Some(run) && IsCurrentInteraction(st, sid, iid)
       case _ => true
  }

  /** The delta carries a fragment, a tool result or token counts. */
  predicate CarriesSomething(d: Delta) {
    match d.kind
    case TextEvent => d.text != ""
    case ReasoningEvent => d.reasoning != ""
    case ToolStartEvent => d.toolArgs != ""
    case ToolResultEvent => true
    case ErrorEvent => d.text != ""
    case _ => CountsUsage(d)
  }

  /** The message says something the state does not hold already. */
  predicate SaysSomething(st: EngineState, p: Payload) {
    match p
    case DeltaMsg(d) => CarriesSomething(d)
    case AskMsg(a) => Lookup(st.asks, a.sessionId) != Some(a)
    case PermissionMsg(r) => Lookup(st.perms, r.sessionId) != Some(r)
    case DoneMsg(_) => true
    case InteractionDone(_, _, _) => true
    case _ => false
  }

  lemma FragmentShows(cur: seq<Block>, role: BlockRole, text: string)
    requires text != ""
    ensures AppendBlock(cur, Block(role, text, None, None)) != cur
  {
    var n := |cur|;
    var next := AppendBlock(cur, Block(role, text, None, None));
    if |next| == n { assert |next[n - 1].content| > |cur[n - 1].content|; }
  }

  lemma ToolShows(cur: seq<Block>, d: Delta)
    ensures d.toolArgs != "" ==> AppendToolArgs(cur, d) != cur
    ensures CompleteTool(cur, d) != cur
  {
    var n := |cur|;
    var next := AppendToolArgs(cur, d);
    if |next| == n && d.toolArgs != "" { assert |next[n - 1].content| > |cur[n - 1].content|; }
    var done := CompleteTool(cur, d);
    if |done| == n { assert done[n - 1].args != cur[n - 1].args; }
  }

  lemma BlocksShow(cur: seq<Block>, d: Delta)
    requires TouchesBlocks(d.kind) && CarriesSomething(d)
    ensures DeltaBlocks(cur, d) != cur
  {
    hide AppendBlock, AppendToolArgs, CompleteTool;
    match d.kind
    case TextEvent => FragmentShows(cur, AssistantBlock, d.text);
    case ReasoningEvent => FragmentShows(cur, ReasonBlock, d.reasoning);
    case ToolStartEvent => ToolShows(cur, d);
    case ToolResultEvent => ToolShows(cur, d);
    case ErrorEvent => FragmentShows(cur, ErrorBlock, d.text);
  }

  lemma DeltaShows(st: EngineState, d: Delta)
    requires d.sessionId != "" && IsLiveRun(st, d.sessionId, d.runId) && CarriesSomething(d)
    ensures Handle(st, DeltaMsg(d)) != st
  {
    DeltaOnView(st, d.sessionId, d);
    if TouchesBlocks(d.kind) { BlocksShow(BlocksOf(st, d.sessionId), d); }
    hide DeltaBlocks, CarriesSomething, ApplyDelta;
  }

  /** A message from another workspace, and a live one (a delta, a prompt, the end of a prompt or of a run) of
      another run or of a run that no longer streams, changes nothing at all; and a live one that says
      something new is dropped for no other reason. */
  lemma LiveMessageDroppedIff(st: EngineState, msg: WireMessage)
    requires !msg.payload.WorkspaceReply? && Subject(msg.payload) != Some("")
    ensures !SpeaksForLiveRun(st, msg) ==> ReduceServer(st, msg) == st
    ensures SaysSomething(st, msg.payload) ==> (ReduceServer(st, msg) == st <==> !SpeaksForLiveRun(st, msg))
  {
    hide ReduceServer, SpeaksForLiveRun, SaysSomething;
    if !SpeaksForLiveRun(st, msg) { UnspokenIsInert(st, msg); }
    if SaysSomething(st, msg.payload) && SpeaksForLiveRun(st, msg) { SpokenShows(st, msg); }
  }

  lemma UnspokenIsInert(st: EngineState, msg: WireMessage)
    requires !msg.payload.WorkspaceReply? && !SpeaksForLiveRun(st, msg)
    ensures ReduceServer(st, msg) == st
  {
    hide ApplyDelta, ApplyOutcome, ApplySnapshot, DeleteSession;
  }

  lemma SpokenShows(st: EngineState, msg: WireMessage)
    requires !msg.payload.WorkspaceReply? && Subject(msg.payload) != Some("")
    requires SaysSomething(st, msg.payload) && SpeaksForLiveRun(st, msg)
    ensures ReduceServer(st, msg) != st
  {
    hide ReduceServer, Handle;
    ReduceServerHandles(st, msg);
    match msg.payload
    case DeltaMsg(d) => DeltaShows(st, d);
    case AskMsg(_) => PromptShows(st, msg);
    case PermissionMsg(_) => PromptShows(st, msg);
    case DoneMsg(o) => OutcomeShows(st, o);
    case InteractionDone(sid, run, iid) => ResolutionShows(st, sid, run, iid);
  }

  lemma PromptShows(st: EngineState, msg: WireMessage)
    requires msg.payload.AskMsg? || msg.payload.PermissionMsg?
    requires SaysSomething(st, msg.payload) && SpeaksForLiveRun(st, msg)
    ensures Handle(st, msg.payload) != st
  {
    var next := Handle(st, msg.payload);
    if msg.payload.AskMsg? { assert Lookup(next.asks, msg.payload.ask.sessionId) == Some(msg.payload.ask); }
    else { assert Lookup(next.perms, msg.payload.perm.sessionId) == Some(msg.payload.perm); }
  }

  lemma ResolutionShows(st: EngineState, sid: string, run: string, iid: string)
    requires sid != "" && Lookup(st.runIds, sid) == Some(run) && IsCurrentInteraction(st, sid, iid)
    ensures Handle(st, InteractionDone(sid, run, iid)) != st
  {
    assert !IsCurrentInteraction(Handle(st, InteractionDone(sid, run, iid)), sid, iid);
  }

  lemma OutcomeShows(st: EngineState, o: Outcome)
    requires Lookup(st.runIds, o.sessionId) == Some(o.runId)
    ensures Handle(st, DoneMsg(o)) != st
  {
    hide ApplyOutcome;
    OutcomeKeepsCount(st, o);
  }

  lemma OutcomeKeepsCount(st: EngineState, o: Outcome)
    ensures ApplyOutcome(st, o).refreshList == st.refreshList
  {}

  // ---- Joined events fold like raw events ----

  lemma DeltasOfSnoc(events: seq<Event>, e: Event)
    ensures DeltasOf(events + [e]) == DeltasOf(events) + [DeltaOf(e)]
  {}

  lemma DeltasViewSnoc(v: SessionView, ds: seq<Delta>, d: Delta)
    ensures DeltasView(v, ds + [d]) == DeltaView(DeltasView(v, ds), d)
  {
    assert (ds + [d])[..|ds|] == ds;
  }

  lemma AbsorbFoldsLike(v: SessionView, events: seq<Event>, e: Event)
    ensures DeltasView(v, DeltasOf(Absorb(events, e))) == DeltaView(DeltasView(v, DeltasOf(events)), DeltaOf(e))
  {
    var n := |events|;
    if n > 0 && Joins(events[n - 1], e) {
      var init, last := events[..n - 1], events[n - 1];
      var joined := last.(text := last.text + e.text, reasoning := last.reasoning + e.reasoning);
      assert events == init + [last];
      DeltasOfSnoc(init, last);
      DeltasOfSnoc(init, joined);
      DeltasViewSnoc(v, DeltasOf(init), DeltaOf(last));
      DeltasViewSnoc(v, DeltasOf(init), DeltaOf(joined));
      JoinFoldsLike(DeltasView(v, DeltasOf(init)), last, joined, e);
    } else {
      DeltasOfSnoc(events, e);
      DeltasViewSnoc(v, DeltasOf(events), DeltaOf(e));
    }
  }

  /** A text or reasoning delta does nothing but append its fragment. */
  lemma FragmentOnView(v: SessionView, e: Event)
    requires e.kind.TextEvent? || e.kind.ReasoningEvent?
    ensures DeltaView(v, DeltaOf(e)) == v.(blocks := AppendBlock(v.blocks, Fragment(e)))
  {
    hide AppendBlock, AppendToolArgs, CompleteTool;
  }

  function Fragment(e: Event): Block {
    if e.kind.TextEvent? then Block(AssistantBlock, e.text, None, None) else Block(ReasonBlock, e.reasoning, None, None)
  }

  lemma JoinFoldsLike(v: SessionView, last: Event, joined: Event, e: Event)
    requires Joins(last, e)
    requires joined == last.(text := last.text + e.text, reasoning := last.reasoning + e.reasoning)
    ensures DeltaView(v, DeltaOf(joined)) == DeltaView(DeltaView(v, DeltaOf(last)), DeltaOf(e))
  {
    hide DeltaView, DeltaOf, AppendBlock;
    FragmentOnView(v, joined);
    FragmentOnView(v, last);
    FragmentOnView(DeltaView(v, DeltaOf(last)), e);
    AppendTwice(v.blocks, Fragment(e).role, Fragment(last).content, Fragment(e).content);
  }

  lemma AppendTwice(cur: seq<Block>, role: BlockRole, a: string, b: string)
    ensures AppendBlock(AppendBlock(cur, Block(role, a, None, None)), Block(role, b, None, None))
            == AppendBlock(cur, Block(role, a + b, None, None))
  {
    var n := |cur|;
    var once := AppendBlock(cur, Block(role, a, None, None));
    if n > 0 && cur[n - 1].role == role && cur[n - 1].meta == None {
      assert once[..n - 1] == cur[..n - 1];
      assert (cur[n - 1].content + a) + b == cur[n - 1].content + (a + b);
    } else {
      assert once[..n] == cur;
    }
  }

  /** The client's fold over the server's joined projection equals its fold over the raw stream, from
      any starting view. Server and client join by different rules; this is where they meet. */
  lemma {:induction false} ProjectionFoldsLikeStream(v: SessionView, raw: seq<Event>)
    ensures DeltasView(v, DeltasOf(Coalesce(raw))) == DeltasView(v, DeltasOf(raw))
  {
    if raw != [] {
      var init, e := raw[..|raw| - 1], raw[|raw| - 1];
      ProjectionFoldsLikeStream(v, init);
      AbsorbFoldsLike(v, Coalesce(init), e);
      assert DeltasOf(raw)[..|raw| - 1] == DeltasOf(init);
    } else {
      assert DeltasOf(Coalesce(raw)) == DeltasOf(raw);
    }
  }
}
