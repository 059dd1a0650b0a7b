/** The values that travel between the runner, the coordinator, the store and the clients:
    chat messages, stream events, interactions, outcomes, snapshots and updates, together with
    the encoded sizes that the byte budgets are stated in. */
module Transcript {

  datatype Option<+T> = None | Some(value: T) {
    function GetOr(default: T): T { match this case Some(v) => v case None => default }
  }

  datatype Role = SystemRole | UserRole | AssistantRole | ToolRole | OtherRole(name: string)

  datatype ToolCall = ToolCall(id: string, name: string, arguments: string)

  datatype Message = Message(role: Role, content: string, reasoning: string,
                             toolCalls: seq<ToolCall>, toolCallId: string, name: string)

  datatype EventKind =
    | TextEvent | ReasoningEvent | ToolStartEvent | ToolResultEvent
    | ErrorEvent | GenerationEvent | DoneEvent | OtherEvent(name: string)

  datatype Usage = Usage(prompt: nat, completion: nat, total: nat)

  datatype Event = Event(sessionId: string, runId: string, kind: EventKind, text: string, reasoning: string,
                         toolName: string, toolCallId: string, toolArgs: string, toolResult: string,
                         finishReason: string, usage: Option<Usage>)

  datatype Status = Succeeded | Failed | Canceled | PersistenceFailed

  datatype Outcome = Outcome(sessionId: string, runId: string, status: Status, persisted: bool,
                             error: string, code: string)

  /** What the user is asked. The constructor plays the part of the interaction's kind. */
  datatype Prompt =
    | Permission(tool: string, filePath: string, preview: string, command: string)
    | Ask(question: string, options: seq<string>)

  datatype Pending = Pending(id: string, sessionId: string, runId: string, prompt: Prompt)

  /** `messages` is None where the engine holds a nil slice, which is encoded as null and not as []. */
  datatype Snapshot = Snapshot(sessionId: string, runId: string, running: bool, messages: Option<seq<Message>>,
                               events: seq<Event>, pending: Option<Pending>, outcome: Option<Outcome>,
                               unsavedAvailable: bool, projectionUnavailable: bool)

  datatype Update =
    | SnapshotUpdate(requestId: string, snapshot: Snapshot)
    | EventUpdate(event: Event)
    | InteractionUpdate(pending: Pending)
    | ResolvedUpdate(pending: Pending)
    | OutcomeUpdate(outcome: Outcome)

  datatype Record = Record(id: string, title: string, messages: seq<Message>)

  /** A session is addressed by its canonical workspace and its id. */
  datatype Key = Key(workspace: string, session: string)

  // ---- Encoded sizes: a fixed frame around each value plus the length of its fields ----

  const MESSAGE_FRAME: nat := 24
  const CALL_FRAME: nat := 64
  const EVENT_FRAME: nat := 160
  const USAGE_FRAME: nat := 96
  const OUTCOME_FRAME: nat := 96
  const PROMPT_FRAME: nat := 96
  const SNAPSHOT_FRAME: nat := 160
  const UPDATE_FRAME: nat := 96

  function CallsBytes(calls: seq<ToolCall>): nat {
    if calls == [] then 0
    else var c := calls[|calls| - 1];
         CallsBytes(calls[..|calls| - 1]) + CALL_FRAME + |c.id| + |c.name| + |c.arguments|
  }

  /** The known names are part of the frame, another one counts by its length. */
  function RoleBytes(r: Role): nat { match r case OtherRole(name) => |name| case _ => 0 }

  function KindBytes(k: EventKind): nat { match k case OtherEvent(name) => |name| case _ => 0 }

  function MessageBytes(m: Message): nat {
    MESSAGE_FRAME + RoleBytes(m.role) + |m.content| + |m.reasoning| + CallsBytes(m.toolCalls) + |m.toolCallId|
    + |m.name|
  }

  function MessagesBytes(messages: seq<Message>): nat {
    if messages == [] then 2
    else MessagesBytes(messages[..|messages| - 1]) + MessageBytes(messages[|messages| - 1])
  }

  function EventBytes(e: Event): nat {
    EVENT_FRAME + KindBytes(e.kind) + |e.sessionId| + |e.runId| + |e.text| + |e.reasoning| + |e.toolName|
    + |e.toolCallId| + |e.toolArgs| + |e.toolResult| + |e.finishReason| + (if e.usage.Some? then USAGE_FRAME else 0)
  }

  function EventsBytes(events: seq<Event>): nat {
    if events == [] then 0
    else EventsBytes(events[..|events| - 1]) + EventBytes(events[|events| - 1])
  }

  function OptionsBytes(options: seq<string>): nat {
    if options == [] then 0 else OptionsBytes(options[..|options| - 1]) + 3 + |options[|options| - 1]|
  }

  function PendingBytes(p: Pending): nat {
    PROMPT_FRAME + |p.id| + |p.sessionId| + |p.runId| +
    match p.prompt
    case Permission(tool, path, preview, command) => |tool| + |path| + |preview| + |command|
    case Ask(question, options) => |question| + OptionsBytes(options)
  }

  function OutcomeBytes(o: Outcome): nat {
    OUTCOME_FRAME + |o.sessionId| + |o.runId| + |o.error| + |o.code|
  }

  function SnapshotBytes(s: Snapshot): nat {
    SNAPSHOT_FRAME + |s.sessionId| + |s.runId|
    + (match s.messages case Some(ms) => MessagesBytes(ms) case None => 4)
    + EventsBytes(s.events)
    + (match s.pending case Some(p) => PendingBytes(p) case None => 0)
    + (match s.outcome case Some(o) => OutcomeBytes(o) case None => 0)
  }

  function UpdateBytes(u: Update): nat {
    UPDATE_FRAME +
    match u
    case SnapshotUpdate(id, s) => |id| + SnapshotBytes(s)
    case EventUpdate(e) => EventBytes(e)
    case InteractionUpdate(p) => PendingBytes(p)
    case ResolvedUpdate(p) => PendingBytes(p)
    case OutcomeUpdate(o) => OutcomeBytes(o)
  }

  /** Every character of every field counts, and every entry of every list. */
  lemma EverythingCounts(e: Event, m: Message, call: ToolCall, o: Outcome, x: string)
    ensures EventBytes(e.(text := e.text + x)) == EventBytes(e.(reasoning := e.reasoning + x))
            == EventBytes(e.(toolName := e.toolName + x)) == EventBytes(e.(toolCallId := e.toolCallId + x))
            == EventBytes(e.(toolArgs := e.toolArgs + x)) == EventBytes(e.(toolResult := e.toolResult + x))
            == EventBytes(e.(finishReason := e.finishReason + x)) == EventBytes(e) + |x|
    ensures MessageBytes(m.(content := m.content + x)) == MessageBytes(m.(reasoning := m.reasoning + x))
            == MessageBytes(m.(toolCallId := m.toolCallId + x)) == MessageBytes(m.(name := m.name + x))
            == MessageBytes(m) + |x|
    ensures MessageBytes(m.(toolCalls := m.toolCalls + [call])) >=
            MessageBytes(m) + |call.id| + |call.name| + |call.arguments|
    ensures OutcomeBytes(o.(error := o.error + x)) == OutcomeBytes(o) + |x|
  {
    hide CallsBytes;
    MoreCalls(m.toolCalls, call);
  }

  lemma MoreCalls(calls: seq<ToolCall>, call: ToolCall)
    ensures CallsBytes(calls + [call]) >= CallsBytes(calls) + |call.id| + |call.name| + |call.arguments|
  {
    assert (calls + [call])[..|calls|] == calls;
  }

  /** Everything in a snapshot counts, and everything in an update. */
  lemma EveryPartCounts(e: Event, m: Message, s: Snapshot, p: Pending, o: Outcome, x: string)
    ensures s.messages.Some? ==>
              SnapshotBytes(s.(messages := Some(s.messages.value + [m]))) == SnapshotBytes(s) + MessageBytes(m)
    ensures SnapshotBytes(s.(events := s.events + [e])) == SnapshotBytes(s) + EventBytes(e)
    ensures s.pending.None? ==> SnapshotBytes(s.(pending := Some(p))) == SnapshotBytes(s) + PendingBytes(p)
    ensures s.outcome.None? ==> SnapshotBytes(s.(outcome := Some(o))) == SnapshotBytes(s) + OutcomeBytes(o)
    ensures UpdateBytes(EventUpdate(e)) > EventBytes(e) && UpdateBytes(SnapshotUpdate(x, s)) >= SnapshotBytes(s) + |x|
    ensures UpdateBytes(InteractionUpdate(p)) > PendingBytes(p) && UpdateBytes(OutcomeUpdate(o)) > OutcomeBytes(o)
  {
    hide PendingBytes, MessageBytes, EventBytes, OutcomeBytes;
    assert (s.events + [e])[..|s.events|] == s.events;
    if s.messages.Some? { assert (s.messages.value + [m])[..|s.messages.value|] == s.messages.value; }
  }

  /** What a user is asked counts with everything that is shown. */
  lemma PromptCounts(p: Pending)
    ensures match p.prompt
            case Permission(tool, path, preview, command) =>
              PendingBytes(p) >= |p.id| + |tool| + |path| + |preview| + |command|
            case Ask(question, options) =>
              PendingBytes(p) >= |p.id| + |question| + OptionsBytes(options)
              && forall o <- options :: OptionsBytes(options) >= |o|
  {
    if p.prompt.Ask? {
      forall o <- p.prompt.options ensures OptionsBytes(p.prompt.options) >= |o| { OptionCounts(p.prompt.options, o); }
    }
  }

  lemma {:induction false} OptionCounts(options: seq<string>, o: string)
    requires o in options
    ensures OptionsBytes(options) >= |o|
  {
    if o != options[|options| - 1] {
      assert options == options[..|options| - 1] + [options[|options| - 1]];
      OptionCounts(options[..|options| - 1], o);
    }
  }

  // ---- The live projection of a run: its events with neighbouring fragments joined ----

  predicate Joins(last: Event, e: Event) {
    (e.kind.TextEvent? || e.kind.ReasoningEvent?) && last.kind == e.kind
  }

  /** One accepted event enters the projection: a text or reasoning fragment that follows one of its
      own kind is joined to it, everything else becomes a new entry. */
  function Absorb(events: seq<Event>, e: Event): seq<Event> {
    var n := |events|;
    if n > 0 && Joins(events[n - 1], e) then
      events[..n - 1] + [events[n - 1].(text := events[n - 1].text + e.text,
                                        reasoning := events[n - 1].reasoning + e.reasoning)]
    else
      events + [e]
  }

  /** The projection of a whole stream of raw events. */
  function Coalesce(raw: seq<Event>): seq<Event> {
    if raw == [] then [] else Absorb(Coalesce(raw[..|raw| - 1]), raw[|raw| - 1])
  }

  /** Joining never makes the projection larger than the raw events it stands for. */
  lemma {:induction false} CoalesceShrinks(raw: seq<Event>)
    ensures EventsBytes(Coalesce(raw)) <= EventsBytes(raw)
  {
    if raw != [] {
      var init, e := raw[..|raw| - 1], raw[|raw| - 1];
      CoalesceShrinks(init);
      var events := Coalesce(init);
      var n := |events|;
      if n > 0 && Joins(events[n - 1], e) {
        var merged := Absorb(events, e);
        assert merged[..|merged| - 1] == events[..n - 1];
      } else {
        assert (events + [e])[..n] == events;
      }
    }
  }

  /** Two neighbours that say more of the same. */
  predicate Continue(a: Event, b: Event) { a.kind == b.kind && (b.kind.TextEvent? || b.kind.ReasoningEvent?) }

  ghost predicate Tight(events: seq<Event>) { forall i :: 0 < i < |events| ==> !Continue(events[i - 1], events[i]) }

  lemma AbsorbIsTight(events: seq<Event>, e: Event)
    requires Tight(events)
    ensures Tight(Absorb(events, e))
    ensures var next := Absorb(events, e);
            && |events| <= |next| <= |events| + 1 && next != [] && next[|next| - 1].kind == e.kind
            && (!e.kind.TextEvent? && !e.kind.ReasoningEvent? ==> next[|next| - 1] == e)
            && forall i :: 0 <= i < |events| && !events[i].kind.TextEvent? && !events[i].kind.ReasoningEvent? ==>
                 next[i] == events[i]
  {
  }

  /** Joining leaves no two neighbours that could still be joined, and what is not text or reasoning is kept
      as it is. */
  lemma {:induction false} CoalesceIsTight(raw: seq<Event>, x: Event)
    ensures Tight(Coalesce(raw)) && |Coalesce(raw)| <= |raw|
    ensures x in raw && !x.kind.TextEvent? && !x.kind.ReasoningEvent? ==> x in Coalesce(raw)
  {
    hide Absorb, Tight;
    if raw == [] {
      assert Tight([]) by { NothingIsTight(); }
    } else {
      var init, e := raw[..|raw| - 1], raw[|raw| - 1];
      CoalesceIsTight(init, x);
      AbsorbIsTight(Coalesce(init), e);
      assert raw == init + [e];
    }
  }

  lemma NothingIsTight()
    ensures Tight([])
  {
  }

  // ---- Order-preserving containment of histories ----

  /** `a` is obtained from `b` by leaving elements out. */
  predicate Subsequence<T(==)>(a: seq<T>, b: seq<T>)
    decreases |b|
  {
    a == [] ||
    (b != [] && ((a[|a| - 1] == b[|b| - 1] && Subsequence(a[..|a| - 1], b[..|b| - 1]))
                 || Subsequence(a, b[..|b| - 1])))
  }

  /** The places of the one sequence in the other, in increasing order. */
  ghost predicate Places<T>(a: seq<T>, b: seq<T>, at: seq<nat>) {
    && |at| == |a|
    && (forall i :: 0 <= i < |at| ==> at[i] < |b| && b[at[i]] == a[i])
    && (forall i, j :: 0 <= i < j < |at| ==> at[i] < at[j])
  }

  lemma {:induction false} SubsequencePlaces<T>(a: seq<T>, b: seq<T>) returns (at: seq<nat>)
    requires Subsequence(a, b)
    ensures Places(a, b, at)
    decreases |b|
  {
    at := [];
    if a != [] {
      var a', b' := a[..|a| - 1], b[..|b| - 1];
      if a[|a| - 1] == b[|b| - 1] && Subsequence(a', b') {
        at := SubsequencePlaces(a', b');
        at := at + [|b| - 1];
      } else {
        at := SubsequencePlaces(a, b');
      }
    }
  }

  lemma {:induction false} PlacesSubsequence<T>(a: seq<T>, b: seq<T>, at: seq<nat>)
    requires Places(a, b, at)
    ensures Subsequence(a, b)
    decreases |b|
  {
    if a != [] {
      var n := |a| - 1;
      if at[n] == |b| - 1 { PlacesSubsequence(a[..n], b[..|b| - 1], at[..n]); }
      else { PlacesSubsequence(a, b[..|b| - 1], at); }
    }
  }

  /** Leaving elements out is keeping the others in their order. */
  lemma SubsequenceMeans<T>(a: seq<T>, b: seq<T>)
    ensures Subsequence(a, b) <==> exists at :: Places(a, b, at)
  {
    if Subsequence(a, b) { var at := SubsequencePlaces(a, b); }
    if at :| Places(a, b, at) { PlacesSubsequence(a, b, at); }
  }

  lemma {:induction false} SubsequenceRefl<T>(a: seq<T>)
    ensures Subsequence(a, a)
    decreases |a|
  {
    if a != [] { SubsequenceRefl(a[..|a| - 1]); }
  }

  lemma {:induction false} SubsequenceShorter<T>(a: seq<T>, b: seq<T>)
    requires a != [] && Subsequence(a, b)
    ensures Subsequence(a[..|a| - 1], b)
    decreases |b|
  {
    if a[|a| - 1] == b[|b| - 1] && Subsequence(a[..|a| - 1], b[..|b| - 1]) {
      if |a| > 1 {
        assert Subsequence(a[..|a| - 1], b[..|b| - 1]);
      }
    } else {
      SubsequenceShorter(a, b[..|b| - 1]);
    }
  }

  lemma {:induction false} SubsequenceTrans<T>(a: seq<T>, b: seq<T>, c: seq<T>)
    requires Subsequence(a, b) && Subsequence(b, c)
    ensures Subsequence(a, c)
    decreases |c|
  {
    if a != [] {
      var c' := c[..|c| - 1];
      if b[|b| - 1] == c[|c| - 1] && Subsequence(b[..|b| - 1], c') {
        if a[|a| - 1] == b[|b| - 1] && Subsequence(a[..|a| - 1], b[..|b| - 1]) {
          SubsequenceTrans(a[..|a| - 1], b[..|b| - 1], c');
        } else {
          SubsequenceTrans(a, b[..|b| - 1], c');
        }
      } else {
        SubsequenceTrans(a, b, c');
      }
    }
  }

  lemma {:induction false} SubsequenceAppend<T>(a: seq<T>, b: seq<T>, tail: seq<T>)
    requires Subsequence(a, b)
    ensures Subsequence(a, b + tail)
    decreases |tail|
  {
    if tail == [] {
      assert b + tail == b;
    } else {
      SubsequenceAppend(a, b, tail[..|tail| - 1]);
      assert (b + tail)[..|b + tail| - 1] == b + tail[..|tail| - 1];
    }
  }

  lemma SubsequenceSnoc<T>(a: seq<T>, b: seq<T>, x: T)
    requires Subsequence(a, b)
    ensures Subsequence(a + [x], b + [x])
  {
    assert (a + [x])[..|a|] == a && (b + [x])[..|b|] == b;
  }

  lemma {:induction false} SubsequenceConcat<T>(a: seq<T>, b: seq<T>, c: seq<T>, d: seq<T>)
    requires Subsequence(a, b) && Subsequence(c, d)
    ensures Subsequence(a + c, b + d)
    decreases |d|
  {
    if c == [] {
      assert a + c == a;
      SubsequenceAppend(a, b, d);
    } else {
      var c', d' := c[..|c| - 1], d[..|d| - 1];
      assert (a + c)[..|a + c| - 1] == a + c' && (b + d)[..|b + d| - 1] == b + d';
      if c[|c| - 1] == d[|d| - 1] && Subsequence(c', d') {
        SubsequenceConcat(a, b, c', d');
      } else {
        SubsequenceConcat(a, b, c, d');
      }
    }
  }
}
