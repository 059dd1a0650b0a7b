/** What the desktop shows, read off the blocks themselves: which block each message of a snapshot becomes,
    and what a stream of deltas adds to them. */
module Rendering {
  import opened Transcript
  import opened Wire
  import opened Reducer

  // ---- The messages of a snapshot ----

  /** Every tool call of a history, in order. */
  function Calls(history: seq<Message>): seq<ToolCall> {
    if history == [] then [] else Calls(history[..|history| - 1]) + history[|history| - 1].toolCalls
  }

  /** The arguments of the last call with this id, if there is one. */
  ghost predicate LastArguments(calls: seq<ToolCall>, id: string, args: Option<string>) {
    match args
    case None => forall k :: 0 <= k < |calls| ==> calls[k].id != id
    case Some(text) =>
      exists k :: 0 <= k < |calls| && calls[k].id == id && calls[k].arguments == text
                  && forall n :: k < n < |calls| ==> calls[n].id != id
  }

  /** System messages are not shown, and neither are assistant messages that only call tools. */
  predicate Unseen(m: Message) {
    m.role == SystemRole || (m.role == AssistantRole && m.content == "" && |m.toolCalls| > 0)
  }

  /** The block shows what the message says, in the place of who says it; a tool's answer with the tool's name
      and the arguments it was last called with under that id. */
  ghost predicate Shows(b: Block, m: Message, calls: seq<ToolCall>) {
    && b.content == m.content
    && (b.role == UserBlock <==> m.role == UserRole)
    && (b.role == ToolBlock <==> m.role == ToolRole)
    && (m.role != UserRole && m.role != ToolRole ==> b.role == AssistantBlock)
    && (if m.role == ToolRole then
          b.meta == (if m.name == "" then None else Some(m.name)) && LastArguments(calls, m.toolCallId, b.args)
        else b.meta.None? && b.args.None?)
  }

  /** The blocks show the messages, each of them that is seen once and in order. */
  ghost predicate Renders(messages: seq<Message>, blocks: seq<Block>, calls: seq<ToolCall>)
    decreases |messages|
  {
    if messages == [] then blocks == []
    else
      var init, m := messages[..|messages| - 1], messages[|messages| - 1];
      if Unseen(m) then Renders(init, blocks, calls)
      else
        && blocks != [] && Shows(blocks[|blocks| - 1], m, calls)
        && Renders(init, blocks[..|blocks| - 1], calls)
  }

  lemma {:induction false} CallsCollected(calls: seq<ToolCall>, before: seq<ToolCall>, args: map<string, string>,
                                          id: string)
    requires LastArguments(before, id, Lookup(args, id))
    ensures LastArguments(before + calls, id, Lookup(ArgsOfCalls(calls, args), id))
    decreases |calls|
  {
    if calls == [] {
      assert before + calls == before;
    } else {
      var init, c := calls[..|calls| - 1], calls[|calls| - 1];
      CallsCollected(init, before, args, id);
      var all := before + calls;
      assert all == before + init + [c];
      var known := Lookup(ArgsOfCalls(init, args), id);
      if c.id == id {
        assert all[|all| - 1] == c;
      } else if known.Some? {
        var k :| 0 <= k < |before + init| && (before + init)[k].id == id && (before + init)[k].arguments == known.value
                 && forall n :: k < n < |before + init| ==> (before + init)[n].id != id;
        assert all[k] == (before + init)[k];
      }
    }
  }

  lemma {:induction false} ArgumentsCollected(history: seq<Message>, id: string)
    ensures LastArguments(Calls(history), id, Lookup(CollectToolArgs(history), id))
  {
    if history != [] {
      var init, m := history[..|history| - 1], history[|history| - 1];
      ArgumentsCollected(init, id);
      CallsCollected(m.toolCalls, Calls(init), CollectToolArgs(init), id);
    }
  }

  lemma {:induction false} MessagesRender(messages: seq<Message>, history: seq<Message>)
    ensures Renders(messages, DisplayBlocks(messages, CollectToolArgs(history)), Calls(history))
    decreases |messages|
  {
    hide LastArguments, CollectToolArgs, Calls;
    if messages != [] {
      var init, m := messages[..|messages| - 1], messages[|messages| - 1];
      MessagesRender(init, history);
      ArgumentsCollected(history, m.toolCallId);
      var shown := DisplayBlocks(init, CollectToolArgs(history));
      assert shown + [] == shown;
      if !Unseen(m) {
        var all := DisplayBlocks(messages, CollectToolArgs(history));
        assert all[..|all| - 1] == shown;
      }
    }
  }

  /** A snapshot shows its messages, each as the block it should be, with nothing left of what was shown before;
      it streams when the run does, with the run's open prompt. */
  lemma SnapshotIsShown(st: EngineState, msg: WireMessage)
    requires st.workspace == Some(msg.workspace) && msg.payload.SessionDataMsg?
    requires var d := msg.payload.data;
             DataDecodes(d) && d.id != "" && d.events == [] && d.outcome.None? && !d.projectionUnavailable
    ensures var d := msg.payload.data;
            var v := ViewOf(ReduceServer(st, msg), d.id);
            && Renders(d.messages.value, v.blocks, Calls(d.messages.value))
            && v.usage == SessionUsage(0, 0, 0) && v.run == Some(d.runId) && v.outcome.None?
            && v.streaming == d.running
            && v.ask == (if d.pending.Some? && d.pending.value.PendingAsk? then Some(d.pending.value.ask) else None)
            && v.perm == (if d.pending.Some? && d.pending.value.PendingPermission? then Some(d.pending.value.perm)
                          else None)
  {
    hide ViewOf, ReduceServer, Renders, DataDecodes, CollectToolArgs, DisplayBlocks;
    var d := msg.payload.data;
    HasMessages(d);
    ReducerIsSessionLocal(st, msg, d.id);
    MessagesRender(d.messages.value, d.messages.value);
  }

  lemma HasMessages(d: SessionData)
    requires DataDecodes(d)
    ensures d.messages.Some?
  {
  }

  /** The end of a run is shown: it no longer streams and asks nothing, a success adds no block, and anything
      else adds one error block that carries the outcome's text. */
  lemma OutcomeIsShown(st: EngineState, msg: WireMessage)
    requires st.workspace == Some(msg.workspace) && msg.payload.DoneMsg? && OutcomeDecodes(msg.payload.outcome)
    requires var o := msg.payload.outcome; o.sessionId != "" && Lookup(st.runIds, o.sessionId) == Some(o.runId)
    ensures var o := msg.payload.outcome;
            var before, v := ViewOf(st, o.sessionId), ViewOf(ReduceServer(st, msg), o.sessionId);
            && !v.streaming && v.ask.None? && v.perm.None? && v.outcome == Some(o)
            && v.run == before.run && v.usage == before.usage
            && (o.status.Succeeded? ==> v.blocks == before.blocks)
            && (!o.status.Succeeded? ==>
                  && |v.blocks| == |before.blocks| + 1 && before.blocks <= v.blocks
                  && var last := v.blocks[|before.blocks|];
                     && last.role == ErrorBlock && last.meta.None? && last.args.None? && last.content != ""
                     && (o.status.PersistenceFailed? ==> last.content == "History was not saved. " + o.error)
                     && (!o.status.PersistenceFailed? && o.error != "" ==> last.content == o.error)
                     && (o.status.Failed? && o.error == "" ==> last.content == "failed")
                     && (o.status.Canceled? && o.error == "" ==> last.content == "canceled"))
  {
    hide ViewOf, ReduceServer;
    ReducerIsSessionLocal(st, msg, msg.payload.outcome.sessionId);
    RunOfView(st, msg.payload.outcome.sessionId);
  }

  lemma RunOfView(st: EngineState, sid: string)
    ensures ViewOf(st, sid).run == Lookup(st.runIds, sid)
  {
  }

  // ---- A stream of deltas ----

  /** Everything the blocks of one role say: for a tool what it was called with, and what it answered. */
  function Spoken(blocks: seq<Block>, role: BlockRole): string {
    if blocks == [] then ""
    else
      var b := blocks[|blocks| - 1];
      Spoken(blocks[..|blocks| - 1], role) + if b.role == role then b.args.GetOr("") + b.content else ""
  }

  /** What a delta says, and in whose place. */
  function Word(d: Delta, role: BlockRole): string {
    match role
    case AssistantBlock => if d.kind.TextEvent? then d.text else ""
    case ReasonBlock => if d.kind.ReasoningEvent? then d.reasoning else ""
    case ErrorBlock => if d.kind.ErrorEvent? then d.text else ""
    case ToolBlock =>
      if d.kind.ToolStartEvent? then d.toolArgs else if d.kind.ToolResultEvent? then d.toolResult else ""
    case _ => ""
  }

  function Words(ds: seq<Delta>, role: BlockRole): string {
    if ds == [] then "" else Words(ds[..|ds| - 1], role) + Word(ds[|ds| - 1], role)
  }

  /** The tokens a delta reports, which only the end of a generation and of a run do. */
  function Tokens(d: Delta): SessionUsage {
    if !d.kind.GenerationEvent? && !d.kind.DoneEvent? then SessionUsage(0, 0, 0)
    else SessionUsage(d.promptTokens, d.completionTokens,
                      if d.totalTokens == 0 then d.promptTokens + d.completionTokens else d.totalTokens)
  }

  function Plus(a: SessionUsage, b: SessionUsage): SessionUsage {
    SessionUsage(a.prompt + b.prompt, a.completion + b.completion, a.total + b.total)
  }

  function AllTokens(ds: seq<Delta>): SessionUsage {
    if ds == [] then SessionUsage(0, 0, 0) else Plus(AllTokens(ds[..|ds| - 1]), Tokens(ds[|ds| - 1]))
  }

  lemma SpokenSnoc(blocks: seq<Block>, b: Block, role: BlockRole)
    ensures Spoken(blocks + [b], role) ==
            Spoken(blocks, role) + if b.role == role then b.args.GetOr("") + b.content else ""
  {
    assert (blocks + [b])[..|blocks|] == blocks;
  }

  /** Only the last block may change, and at most one is added after it. */
  predicate OnlyEndChanges(a: seq<Block>, b: seq<Block>) {
    |a| <= |b| <= |a| + 1 && (forall i :: 0 <= i < |a| - 1 ==> b[i] == a[i]) && (|b| > |a| ==> a <= b)
  }

  function Said(b: Block): string { b.args.GetOr("") + b.content }

  lemma BlockAdded(cur: seq<Block>, b: Block, role: BlockRole)
    ensures Spoken(cur + [b], role) == Spoken(cur, role) + if b.role == role then Said(b) else ""
    ensures OnlyEndChanges(cur, cur + [b])
  {
    SpokenSnoc(cur, b, role);
  }

  lemma BlockGrows(cur: seq<Block>, b: Block, word: string, role: BlockRole)
    requires cur != [] && b.role == cur[|cur| - 1].role && Said(b) == Said(cur[|cur| - 1]) + word
    ensures Spoken(cur[..|cur| - 1] + [b], role) == Spoken(cur, role) + if b.role == role then word else ""
    ensures OnlyEndChanges(cur, cur[..|cur| - 1] + [b])
  {
    hide Said;
    var init, last := cur[..|cur| - 1], cur[|cur| - 1];
    assert cur == init + [last];
    BlockAdded(init, last, role);
    BlockAdded(init, b, role);
    if b.role == role { assert Spoken(init, role) + (Said(last) + word) == Spoken(init, role) + Said(last) + word; }
    else { assert Spoken(init, role) + "" == Spoken(init, role) == Spoken(init, role) + "" + ""; }
  }

  lemma FragmentSpeaks(cur: seq<Block>, b: Block, role: BlockRole)
    requires b.args.None?
    ensures Spoken(AppendBlock(cur, b), role) == Spoken(cur, role) + if b.role == role then b.content else ""
    ensures OnlyEndChanges(cur, AppendBlock(cur, b))
  {
    hide Spoken, OnlyEndChanges;
    BlockAdded(cur, b, role);
    assert "" + b.content == b.content;
    if cur != [] && cur[|cur| - 1].role == b.role && cur[|cur| - 1].meta == b.meta {
      var last := cur[|cur| - 1];
      assert last.args.GetOr("") + (last.content + b.content) == last.args.GetOr("") + last.content + b.content;
      BlockGrows(cur, last.(content := last.content + b.content), b.content, role);
    }
  }

  lemma ToolSpeaks(cur: seq<Block>, d: Delta, role: BlockRole)
    ensures Spoken(AppendToolArgs(cur, d), role) == Spoken(cur, role) + if role == ToolBlock then d.toolArgs else ""
    ensures Spoken(CompleteTool(cur, d), role) == Spoken(cur, role) + if role == ToolBlock then d.toolResult else ""
    ensures OnlyEndChanges(cur, AppendToolArgs(cur, d)) && OnlyEndChanges(cur, CompleteTool(cur, d))
  {
    hide Spoken, OnlyEndChanges;
    var started := Block(ToolBlock, d.toolArgs, OptString(d.toolName), None);
    BlockAdded(cur, started, role);
    assert "" + d.toolArgs == d.toolArgs && "" + d.toolResult == d.toolResult;
    var meta := if d.toolName != "" then Some(d.toolName + " →") else None;
    BlockAdded(cur, Block(ToolBlock, d.toolResult, meta, None), role);
    if UnfinishedTool(cur, OptString(d.toolName)) {
      var last := cur[|cur| - 1];
      assert "" + (last.content + d.toolArgs) == ("" + last.content) + d.toolArgs;
      BlockGrows(cur, last.(content := last.content + d.toolArgs), d.toolArgs, role);
      assert last.content + d.toolResult == ("" + last.content) + d.toolResult;
      BlockGrows(cur, Block(ToolBlock, d.toolResult, Some(d.toolName), Some(last.content)), d.toolResult, role);
    }
  }

  lemma DeltaSpeaks(cur: seq<Block>, d: Delta, role: BlockRole)
    ensures Spoken(DeltaBlocks(cur, d), role) == Spoken(cur, role) + Word(d, role)
    ensures OnlyEndChanges(cur, DeltaBlocks(cur, d))
  {
    hide Spoken, AppendBlock, AppendToolArgs, CompleteTool;
    match d.kind
    case TextEvent => FragmentSpeaks(cur, Block(AssistantBlock, d.text, None, None), role);
    case ReasoningEvent => FragmentSpeaks(cur, Block(ReasonBlock, d.reasoning, None, None), role);
    case ToolStartEvent => ToolSpeaks(cur, d, role);
    case ToolResultEvent => ToolSpeaks(cur, d, role);
    case ErrorEvent => FragmentSpeaks(cur, Block(ErrorBlock, d.text, None, None), role);
    case _ => assert Spoken(cur, role) + "" == Spoken(cur, role);
  }

  lemma DeltaCounts(v: SessionView, d: Delta)
    ensures var w := DeltaView(v, d);
            && w.blocks == DeltaBlocks(v.blocks, d) && w.usage == Plus(v.usage, Tokens(d))
            && (w.run, w.ask, w.perm, w.outcome) == (v.run, v.ask, v.perm, v.outcome)
            && (w.streaming <==> v.streaming || d.kind.OtherEvent?)
  {
    hide DeltaBlocks;
  }

  lemma {:induction false} StreamSpeaks(v: SessionView, ds: seq<Delta>, role: BlockRole)
    ensures Spoken(DeltasView(v, ds).blocks, role) == Spoken(v.blocks, role) + Words(ds, role)
  {
    hide Spoken, Word, DeltaView;
    if ds == [] {
      assert Spoken(v.blocks, role) + "" == Spoken(v.blocks, role);
    } else {
      var init, d := ds[..|ds| - 1], ds[|ds| - 1];
      StreamSpeaks(v, init, role);
      var m := DeltasView(v, init);
      DeltaSpeaks(m.blocks, d, role);
      DeltaCounts(m, d);
      var said, before, word := Spoken(v.blocks, role), Words(init, role), Word(d, role);
      assert said + before + word == said + (before + word);
    }
  }

  lemma {:induction false} StreamCounts(v: SessionView, ds: seq<Delta>)
    ensures var w := DeltasView(v, ds);
            && w.usage == Plus(v.usage, AllTokens(ds))
            && (w.run, w.ask, w.perm, w.outcome) == (v.run, v.ask, v.perm, v.outcome)
            && (w.streaming <==> v.streaming || exists d <- ds :: d.kind.OtherEvent?)
  {
    hide DeltaView, Tokens;
    if ds != [] {
      var init, d := ds[..|ds| - 1], ds[|ds| - 1];
      StreamCounts(v, init);
      DeltaCounts(DeltasView(v, init), d);
      assert ds == init + [d];
    }
  }

  /** A stream adds to what each role says exactly what it says for that role, in order, and to the usage
      exactly the tokens it reports; who is asked what, the run and its outcome stay. */
  lemma StreamIsShown(v: SessionView, ds: seq<Delta>, role: BlockRole)
    ensures var w := DeltasView(v, ds);
            && Spoken(w.blocks, role) == Spoken(v.blocks, role) + Words(ds, role)
            && w.usage == Plus(v.usage, AllTokens(ds))
            && (w.run, w.ask, w.perm, w.outcome) == (v.run, v.ask, v.perm, v.outcome)
            && (w.streaming <==> v.streaming || exists d <- ds :: d.kind.OtherEvent?)
  {
    StreamSpeaks(v, ds, role);
    StreamCounts(v, ds);
  }

  /** What the end of a run says to the reader. */
  function LastWords(o: Option<Outcome>): string {
    if o.None? || o.value.status.Succeeded? then ""
    else if o.value.status.PersistenceFailed? then "History was not saved. " + o.value.error
    else if o.value.error != "" then o.value.error
    else if o.value.status.Canceled? then "canceled" else "failed"
  }

  function Notice(d: SessionData): string {
    if d.projectionUnavailable then "Unsaved output is no longer available." else ""
  }

  lemma OutcomeSpeaks(v: SessionView, o: Outcome, role: BlockRole)
    ensures Spoken(OutcomeView(v, o).blocks, role) ==
            Spoken(v.blocks, role) + if role == ErrorBlock then LastWords(Some(o)) else ""
  {
    hide Spoken;
    assert Spoken(v.blocks, role) + "" == Spoken(v.blocks, role);
    if o.status.Succeeded? {
      assert v.blocks + [] == v.blocks;
    } else {
      BlockAdded(v.blocks, OutcomeBlocks(o)[0], role);
      assert "" + LastWords(Some(o)) == LastWords(Some(o));
    }
  }

  /** What a snapshot comes to say. */
  lemma SnapshotSpeaks(d: SessionData, role: BlockRole)
    ensures Spoken(SnapshotView(d).blocks, role) ==
            Spoken(SnapshotBlocks(d.messages), role) + Words(d.events, role)
            + (if role == ErrorBlock then LastWords(d.outcome) else "") + (if role == ErrorBlock then Notice(d) else "")
  {
    hide Spoken, DeltasView, SnapshotBlocks, OutcomeView, Words, LastWords;
    var start := SessionView(SnapshotBlocks(d.messages), NO_USAGE, false, Some(d.runId), None, None, None);
    StreamSpeaks(start, d.events, role);
    var v := PendingView(TranscriptView(d).(streaming := d.running), d.pending);
    assert v.blocks == DeltasView(start, d.events).blocks;
    var told := if d.outcome.Some? then OutcomeView(v, d.outcome.value) else v;
    if d.outcome.Some? { OutcomeSpeaks(v, d.outcome.value, role); } else { NoLastWords(); }
    assert Spoken(v.blocks, role) + "" == Spoken(v.blocks, role);
    assert Spoken(told.blocks, role) + "" == Spoken(told.blocks, role);
    if d.projectionUnavailable {
      BlockAdded(told.blocks, UNAVAILABLE, role);
      assert "" + Notice(d) == Notice(d);
    }
  }

  lemma NoLastWords()
    ensures LastWords(None) == ""
  {
  }

  lemma SnapshotCounts(d: SessionData)
    ensures var v := SnapshotView(d);
            && v.usage == AllTokens(d.events) && v.run == Some(d.runId) && v.outcome == d.outcome
            && (v.streaming <==> d.running && d.outcome.None?)
  {
    hide DeltasView, SnapshotBlocks, AllTokens;
    StreamCounts(SessionView(SnapshotBlocks(d.messages), NO_USAGE, false, Some(d.runId), None, None, None), d.events);
  }

  /** Any snapshot that decodes: first the blocks of its messages, then what its events say, then what its outcome
      says, and last the notice that something is gone, role by role; its usage is what its events report. */
  lemma WholeSnapshotIsShown(st: EngineState, msg: WireMessage, role: BlockRole) returns (first: seq<Block>)
    requires st.workspace == Some(msg.workspace) && msg.payload.SessionDataMsg?
    requires DataDecodes(msg.payload.data) && msg.payload.data.id != ""
    ensures var d := msg.payload.data;
            var v := ViewOf(ReduceServer(st, msg), d.id);
            && Renders(d.messages.value, first, Calls(d.messages.value))
            && Spoken(v.blocks, role) ==
               Spoken(first, role) + Words(d.events, role)
               + (if role == ErrorBlock then LastWords(d.outcome) else "")
               + (if role == ErrorBlock then Notice(d) else "")
            && v.usage == AllTokens(d.events) && v.run == Some(d.runId) && v.outcome == d.outcome
            && (v.streaming <==> d.running && d.outcome.None?)
  {
    hide ViewOf, ReduceServer, Renders, DataDecodes, CollectToolArgs, DisplayBlocks, SnapshotView, Spoken;
    var d := msg.payload.data;
    HasMessages(d);
    ReducerIsSessionLocal(st, msg, d.id);
    MessagesRender(d.messages.value, d.messages.value);
    first := SnapshotBlocks(d.messages);
    SnapshotSpeaks(d, role);
    SnapshotCounts(d);
  }

  predicate IsPiece(d: Delta, name: string) { d.kind.ToolStartEvent? && d.toolName == name }

  /** A tool's call streamed in pieces and then its answer are one block: the answer, the tool's name, and the
      whole of what it was called with. */
  lemma ToolCallIsOneBlock(v: SessionView, pieces: seq<Delta>, answer: Delta)
    requires pieces != [] && answer.kind.ToolResultEvent? && answer.toolName != ""
    requires forall d <- pieces :: IsPiece(d, answer.toolName)
    requires v.blocks != [] ==>
               var b := v.blocks[|v.blocks| - 1]; b.role != ToolBlock || b.meta != Some(answer.toolName) || b.args.Some?
    ensures DeltasView(v, pieces + [answer]).blocks ==
            v.blocks + [Block(ToolBlock, answer.toolResult, Some(answer.toolName), Some(Words(pieces, ToolBlock)))]
  {
    hide DeltaView, DeltasView, Words, CompleteTool, AppendToolArgs;
    PiecesGather(v, pieces, answer.toolName);
    DeltasViewSnoc(v, pieces, answer);
    DeltaCounts(DeltasView(v, pieces), answer);
    ToolEnd(v.blocks, Block(ToolBlock, Words(pieces, ToolBlock), Some(answer.toolName), None), answer);
  }

  /** The end of a transcript is a tool that has not answered yet. */
  lemma ToolEnd(cur: seq<Block>, b: Block, d: Delta)
    requires b.role == ToolBlock && b.meta == Some(d.toolName) && b.args.None? && d.toolName != ""
    ensures AppendToolArgs(cur + [b], d) == cur + [b.(content := b.content + d.toolArgs)]
    ensures CompleteTool(cur + [b], d) == cur + [Block(ToolBlock, d.toolResult, Some(d.toolName), Some(b.content))]
  {
    assert (cur + [b])[..|cur|] == cur;
  }

  lemma ToolStarts(cur: seq<Block>, d: Delta)
    requires d.toolName != "" && !UnfinishedTool(cur, Some(d.toolName))
    ensures AppendToolArgs(cur, d) == cur + [Block(ToolBlock, d.toolArgs, Some(d.toolName), None)]
  {
  }

  lemma {:induction false} PiecesGather(v: SessionView, pieces: seq<Delta>, name: string)
    requires pieces != [] && name != "" && forall d <- pieces :: IsPiece(d, name)
    requires !UnfinishedTool(v.blocks, Some(name))
    ensures DeltasView(v, pieces).blocks == v.blocks + [Block(ToolBlock, Words(pieces, ToolBlock), Some(name), None)]
  {
    hide DeltaView, UnfinishedTool, AppendToolArgs;
    var init, d := pieces[..|pieces| - 1], pieces[|pieces| - 1];
    assert d in pieces && IsPiece(d, name);
    DeltaCounts(DeltasView(v, init), d);
    if init == [] {
      ToolStarts(v.blocks, d);
      assert Words(init, ToolBlock) == "" && "" + d.toolArgs == d.toolArgs;
    } else {
      PiecesGather(v, init, name);
      ToolEnd(v.blocks, Block(ToolBlock, Words(init, ToolBlock), Some(name), None), d);
    }
  }

  /** A piece of a call, or an answer, that no unfinished block of its tool precedes starts a block of its own: the
      answer's is marked as an answer, and neither says what the tool was called with. */
  lemma LoneToolIsShown(v: SessionView, d: Delta)
    requires d.kind.ToolStartEvent? || d.kind.ToolResultEvent?
    requires v.blocks != [] ==>
               var b := v.blocks[|v.blocks| - 1];
               b.role != ToolBlock || b.args.Some? || b.meta != (if d.toolName == "" then None else Some(d.toolName))
    ensures var blocks := DeltaView(v, d).blocks;
            && |blocks| == |v.blocks| + 1 && v.blocks <= blocks
            && var b := blocks[|v.blocks|];
               && b.role == ToolBlock && b.args.None?
               && (d.kind.ToolStartEvent? ==>
                     b.content == d.toolArgs && b.meta == if d.toolName == "" then None else Some(d.toolName))
               && (d.kind.ToolResultEvent? ==>
                     b.content == d.toolResult
                     && b.meta == if d.toolName == "" then None else Some(d.toolName + " →"))
  {
  }

  // ---- What is not of one session ----

  /** The settings, the list, the error and the choice of a session each follow their own messages and no
      others; a snapshot chooses its session only when none is chosen, and a deletion gives up the choice of
      what is deleted. */
  lemma GlobalsFollow(st: EngineState, msg: WireMessage)
    requires st.workspace == Some(msg.workspace) && !msg.payload.WorkspaceReply?
    ensures var p, t := msg.payload, ReduceServer(st, msg);
            && t.status == st.status
            && t.allowAll == (if p.SettingsReply? then p.allowAll else st.allowAll)
            && t.sessions == (if p.SessionListMsg? then p.sessions else st.sessions)
            && t.error == (if p.ErrorMsg? then Some(p.error) else st.error)
            && t.refreshList == st.refreshList
               + (if p.DoneMsg? && Lookup(st.runIds, p.outcome.sessionId) == Some(p.outcome.runId) then 1 else 0)
            && t.activeId == (match p
                              case SessionCreated(id) => Some(id)
                              case SessionDeleted(id) => if st.activeId == Some(id) then None else st.activeId
                              case SessionDataMsg(d) => if st.activeId.None? then Some(d.id) else st.activeId
                              case _ => st.activeId)
  {
    hide ReduceServer;
    ReduceServerHandles(st, msg);
    hide ApplySnapshot, ApplyOutcome, ApplyDelta, IsLiveRun, IsCurrentInteraction;
    if msg.payload.SessionDataMsg? { SnapshotGlobals(st, msg.payload.data); }
    else if msg.payload.DoneMsg? { OutcomeGlobals(st, msg.payload.outcome); }
    else if msg.payload.DeltaMsg? { DeltaGlobals(st, msg.payload.delta.sessionId, msg.payload.delta); }
    else if msg.payload.AuthReply? {}
    else { OtherGlobals(st, msg.payload); }
  }

  lemma OtherGlobals(st: EngineState, p: Payload)
    requires !p.SessionDataMsg? && !p.DoneMsg? && !p.DeltaMsg?
    ensures var t := Handle(st, p);
            && t.status == st.status
            && t.allowAll == (if p.SettingsReply? then p.allowAll else st.allowAll)
            && t.sessions == (if p.SessionListMsg? then p.sessions else st.sessions)
            && t.error == (if p.ErrorMsg? then Some(p.error) else st.error)
            && t.refreshList == st.refreshList
            && t.activeId == (match p
                              case SessionCreated(id) => Some(id)
                              case SessionDeleted(id) => if st.activeId == Some(id) then None else st.activeId
                              case _ => st.activeId)
  {
    hide IsLiveRun, IsCurrentInteraction, Cleared;
  }

  predicate SameGlobals(a: EngineState, b: EngineState) {
    (a.status, a.allowAll, a.sessions, a.error, a.refreshList, a.activeId)
    == (b.status, b.allowAll, b.sessions, b.error, b.refreshList, b.activeId)
  }

  lemma DeltaGlobals(st: EngineState, sid: string, d: Delta)
    ensures SameGlobals(ApplyDelta(st, sid, d), st)
  {
    hide DeltaBlocks;
  }

  lemma {:induction false} DeltasGlobals(st: EngineState, sid: string, ds: seq<Delta>)
    ensures SameGlobals(ApplyDeltas(st, sid, ds), st)
  {
    hide ApplyDelta;
    if ds != [] {
      DeltasGlobals(st, sid, ds[..|ds| - 1]);
      DeltaGlobals(ApplyDeltas(st, sid, ds[..|ds| - 1]), sid, ds[|ds| - 1]);
    }
  }

  lemma OutcomeGlobals(st: EngineState, o: Outcome)
    ensures SameGlobals(ApplyOutcome(st, o), st)
  {
  }

  lemma SnapshotGlobals(st: EngineState, p: SessionData)
    ensures var chosen := if st.activeId.None? then Some(p.id) else st.activeId;
            SameGlobals(ApplySnapshot(st, p), st.(activeId := chosen))
  {
    hide SnapshotBlocks, ApplyOutcome, ApplyDeltas;
    var replayed := ApplyDeltas(OpenSnapshot(st, p), p.id, p.events);
    DeltasGlobals(OpenSnapshot(st, p), p.id, p.events);
    if p.outcome.Some? { OutcomeGlobals(MarkSnapshot(replayed, p), p.outcome.value); }
  }

  /** What the desktop does by itself changes its own field and no session; a reset forgets everything. */
  lemma LocalsFollow(st: EngineState, a: Action, sid: string)
    requires !a.Server?
    ensures var t := Reduce(st, a);
            match a
            case Reset => ViewOf(t, sid) == SessionView([], SessionUsage(0, 0, 0), false, None, None, None, None)
                          && t.workspace.None? && t.activeId.None? && t.error.None? && t.sessions == []
            case SetStatus(status) => SameGlobals(t, st.(status := status)) && ViewOf(t, sid) == ViewOf(st, sid)
            case SetActive(id) => SameGlobals(t, st.(activeId := id)) && ViewOf(t, sid) == ViewOf(st, sid)
            case SetError(message) => SameGlobals(t, st.(error := message)) && ViewOf(t, sid) == ViewOf(st, sid)
            case Server(_) => true
  {
  }

  /** Another workspace starts with nothing of the last one: no session shows anything, and only the state of
      the connection is left; the present workspace named again changes nothing. */
  lemma WorkspaceStartsEmpty(st: EngineState, msg: WireMessage, sid: string)
    requires msg.payload.WorkspaceReply?
    ensures var ws, t := msg.payload.workspace, ReduceServer(st, msg);
            if st.workspace == Some(ws) then t == st
            else
              && t.workspace == Some(ws) && t.status == st.status
              && t.sessions == [] && t.activeId.None? && t.error.None?
              && ViewOf(t, sid) == SessionView([], SessionUsage(0, 0, 0), false, None, None, None, None)
  {
  }
}
