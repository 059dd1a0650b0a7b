/** What crosses the socket: the payloads of pkg/engine/runs.go and the decoder of
    apps/electron/lib/protocol.ts. An empty string or a zero count stands for a field that the
    encoder omits and the decoder reads as undefined. */
module Wire {
  import opened Transcript

  datatype Delta = Delta(runId: string, sessionId: string, kind: EventKind, text: string, reasoning: string,
                         toolName: string, toolCallId: string, toolArgs: string, toolResult: string,
                         finishReason: string, promptTokens: nat, completionTokens: nat, totalTokens: nat)

  datatype AskReq = AskReq(runId: string, interactionId: string, sessionId: string,
                           question: string, options: seq<string>)

  datatype PermissionReq = PermissionReq(runId: string, interactionId: string, sessionId: string,
                                         tool: string, filePath: string, preview: string, command: string)

  datatype PendingReq = PendingAsk(ask: AskReq) | PendingPermission(perm: PermissionReq)

  datatype SessionData = SessionData(id: string, runId: string, running: bool, messages: Option<seq<Message>>,
                                     events: seq<Delta>, pending: Option<PendingReq>, outcome: Option<Outcome>,
                                     unsavedAvailable: bool, projectionUnavailable: bool)

  datatype Payload =
    | AuthReply
    | WorkspaceReply(workspace: string)
    | SessionDataMsg(data: SessionData)
    | DeltaMsg(delta: Delta)
    | DoneMsg(outcome: Outcome)
    | AskMsg(ask: AskReq)
    | PermissionMsg(perm: PermissionReq)
    | InteractionDone(sessionId: string, runId: string, interactionId: string)
    | SessionListMsg(sessions: seq<string>)
    | SessionCreated(id: string)
    | SessionDeleted(id: string)
    | SettingsReply(allowAll: bool)
    | ErrorMsg(error: string)
    | OtherMsg

  datatype WireMessage = WireMessage(workspace: string, payload: Payload)

  function DeltaOf(e: Event): Delta {
    var u := if e.usage.Some? then e.usage.value else Usage(0, 0, 0);
    Delta(e.runId, e.sessionId, e.kind, e.text, e.reasoning, e.toolName, e.toolCallId, e.toolArgs, e.toolResult,
          e.finishReason, u.prompt, u.completion, u.total)
  }

  function DeltasOf(events: seq<Event>): (ds: seq<Delta>)
    ensures |ds| == |events|
    ensures forall i :: 0 <= i < |ds| ==> ds[i] == DeltaOf(events[i])
  {
    seq(|events|, i requires 0 <= i < |events| => DeltaOf(events[i]))
  }

  function RequestOf(p: Pending): PendingReq {
    match p.prompt
    case Permission(tool, path, preview, command) =>
      PendingPermission(PermissionReq(p.runId, p.id, p.sessionId, tool, path, preview, command))
    case Ask(question, options) => PendingAsk(AskReq(p.runId, p.id, p.sessionId, question, options))
  }

  function DataOf(s: Snapshot): SessionData {
    SessionData(s.sessionId, s.runId, s.running, s.messages, DeltasOf(s.events),
                (match s.pending case Some(p) => Some(RequestOf(p)) case None => None),
                s.outcome, s.unsavedAvailable, s.projectionUnavailable)
  }

  /** The frame a forwarder makes of one queued update. */
  function PayloadOf(u: Update): Payload {
    match u
    case SnapshotUpdate(_, s) => SessionDataMsg(DataOf(s))
    case EventUpdate(e) => DeltaMsg(DeltaOf(e))
    case InteractionUpdate(p) => (match RequestOf(p)
                                  case PendingAsk(a) => AskMsg(a)
                                  case PendingPermission(r) => PermissionMsg(r))
    case ResolvedUpdate(p) => InteractionDone(p.sessionId, p.runId, p.id)
    case OutcomeUpdate(o) => DoneMsg(o)
  }

  // ---- The decoder's acceptance rules ----

  predicate OutcomeDecodes(o: Outcome) { o.status.Succeeded? ==> o.persisted }

  predicate RequestDecodes(r: PendingReq, d: SessionData) {
    match r
    case PendingAsk(a) => a.sessionId == d.id && a.runId == d.runId
    case PendingPermission(p) => p.sessionId == d.id && p.runId == d.runId
  }

  predicate RolesKnown(messages: seq<Message>) {
    forall m <- messages :: !m.role.OtherRole?
  }

  predicate DataDecodes(d: SessionData) {
    && (d.running ==> d.runId != "")
    && d.messages.Some? && RolesKnown(d.messages.value)
    && (forall e <- d.events :: e.sessionId == d.id && e.runId == d.runId)
    && (d.outcome.Some? ==>
          && OutcomeDecodes(d.outcome.value)
          && d.outcome.value.sessionId == d.id && d.outcome.value.runId == d.runId)
    && (d.pending.Some? ==> d.running && RequestDecodes(d.pending.value, d))
  }

  predicate Decodes(p: Payload) {
    match p
    case SessionDataMsg(d) => DataDecodes(d)
    case DoneMsg(o) => OutcomeDecodes(o)
    case _ => true
  }

  /** A success that was not persisted is refused, and so is a snapshot without messages, with one of a role that is
      not known, or of a run without an id, and one with an event, an outcome or a prompt of
      another session or run, or with a prompt of a run that is over. */
  lemma DecoderIsStrict(d: SessionData, o: Outcome)
    ensures o.status.Succeeded? && !o.persisted ==> !Decodes(DoneMsg(o))
    ensures d.messages.None? || (d.running && d.runId == "") ==> !Decodes(SessionDataMsg(d))
    ensures d.messages.Some? && (exists m <- d.messages.value :: m.role.OtherRole?) ==> !Decodes(SessionDataMsg(d))
    ensures (exists e <- d.events :: e.sessionId != d.id || e.runId != d.runId) ==> !Decodes(SessionDataMsg(d))
    ensures d.outcome.Some? && (d.outcome.value.sessionId, d.outcome.value.runId) != (d.id, d.runId) ==>
              !Decodes(SessionDataMsg(d))
    ensures d.pending.Some? && (!d.running || match d.pending.value
                                              case PendingAsk(a) => (a.sessionId, a.runId) != (d.id, d.runId)
                                              case PendingPermission(p) =>
                                                (p.sessionId, p.runId) != (d.id, d.runId)) ==>
              !Decodes(SessionDataMsg(d))
  {
  }

  // ---- Nothing is lost on the way ----

  /** The event a delta stands for. */
  function EventFrom(d: Delta): Event {
    Event(d.sessionId, d.runId, d.kind, d.text, d.reasoning, d.toolName, d.toolCallId, d.toolArgs, d.toolResult,
          d.finishReason,
          if d.promptTokens == 0 && d.completionTokens == 0 && d.totalTokens == 0 then None
          else Some(Usage(d.promptTokens, d.completionTokens, d.totalTokens)))
  }

  function PendingFrom(r: PendingReq): Pending {
    match r
    case PendingAsk(a) => Pending(a.interactionId, a.sessionId, a.runId, Ask(a.question, a.options))
    case PendingPermission(p) =>
      Pending(p.interactionId, p.sessionId, p.runId, Permission(p.tool, p.filePath, p.preview, p.command))
  }

  function EventsFrom(ds: seq<Delta>): (events: seq<Event>)
    ensures |events| == |ds|
    ensures forall i :: 0 <= i < |ds| ==> events[i] == EventFrom(ds[i])
  {
    seq(|ds|, i requires 0 <= i < |ds| => EventFrom(ds[i]))
  }

  function SnapshotFrom(d: SessionData): Snapshot {
    Snapshot(d.id, d.runId, d.running, d.messages, EventsFrom(d.events),
             if d.pending.Some? then Some(PendingFrom(d.pending.value)) else None,
             d.outcome, d.unsavedAvailable, d.projectionUnavailable)
  }

  /** An update as its receiver could write it down again. */
  predicate Conveys(p: Payload, u: Update) {
    match u
    case SnapshotUpdate(_, s) =>
      p.SessionDataMsg? && |p.data.events| == |s.events|
      && SnapshotFrom(p.data) == s.(events := PlainEvents(s.events))
    case EventUpdate(e) => p.DeltaMsg? && EventFrom(p.delta) == Plain(e)
    case InteractionUpdate(q) =>
      || (p.AskMsg? && PendingFrom(PendingAsk(p.ask)) == q)
      || (p.PermissionMsg? && PendingFrom(PendingPermission(p.perm)) == q)
    case ResolvedUpdate(q) =>
      p.InteractionDone? && (p.sessionId, p.runId, p.interactionId) == (q.sessionId, q.runId, q.id)
    case OutcomeUpdate(o) => p.DoneMsg? && p.outcome == o
  }

  /** A report of no tokens is no report. */
  function Plain(e: Event): Event { if e.usage == Some(Usage(0, 0, 0)) then e.(usage := None) else e }

  function PlainEvents(events: seq<Event>): (plain: seq<Event>)
    ensures |plain| == |events|
    ensures forall i :: 0 <= i < |events| ==> plain[i] == Plain(events[i])
  {
    seq(|events|, i requires 0 <= i < |events| => Plain(events[i]))
  }

  /** What a forwarder sends says everything its update says, and of the same kind: all of an event but a report
      of no tokens, all of a snapshot, a prompt and an outcome, and which prompt was resolved. */
  lemma WireLosesNothing(u: Update)
    ensures Conveys(PayloadOf(u), u)
  {
    if u.SnapshotUpdate? {
      var s := u.snapshot;
      forall i | 0 <= i < |s.events| ensures EventFrom(DeltaOf(s.events[i])) == Plain(s.events[i]) {
        DeltaLosesNothing(s.events[i]);
      }
      assert EventsFrom(DeltasOf(s.events)) == PlainEvents(s.events);
    } else if u.EventUpdate? {
      DeltaLosesNothing(u.event);
    }
  }

  lemma DeltaLosesNothing(e: Event)
    ensures EventFrom(DeltaOf(e)) == Plain(e)
  {
  }
}
