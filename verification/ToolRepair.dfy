/** Repair of tool calls that were never answered, and the history an agent run hands back:
    pkg/agent/agent.go. */
module ToolRepair {
  import opened Transcript

  function Placeholder(id: string): Message {
    Message(ToolRole, "(tool call cancelled)", "", [], id, "")
  }

  /** The call ids an entry of the history waits for. An empty id cannot be answered and is not waited for. */
  function CallIds(m: Message): set<string> {
    if m.role != AssistantRole then {}
    else set i: nat | i < |m.toolCalls| && m.toolCalls[i].id != "" :: m.toolCalls[i].id
  }

  /** A tool message names the call, before any message that is not a tool message. */
  ghost predicate AnsweredIn(id: string, rest: seq<Message>) {
    exists j | 0 <= j < |rest| :: rest[j].toolCallId == id && forall k | 0 <= k <= j :: rest[k].role == ToolRole
  }

  /** What is still unanswered of `waiting` when the next message that is not a tool message comes. */
  ghost function Unmet(waiting: set<string>, rest: seq<Message>): set<string> {
    set id | id in waiting && !AnsweredIn(id, rest)
  }

  ghost predicate WellFormed(history: seq<Message>) {
    forall i | 0 <= i < |history| :: Unmet(CallIds(history[i]), history[i + 1..]) == {}
  }

  /** The placeholders a history lacks, for every call in it that nothing answers. */
  ghost function Lacking(history: seq<Message>): multiset<Message> {
    if history == [] then multiset{}
    else multiset(set id <- Unmet(CallIds(history[0]), history[1..]) :: Placeholder(id)) + Lacking(history[1..])
  }

  function Ids(out: seq<Message>): set<string> { set k | 0 <= k < |out| :: out[k].toolCallId }

  /** One placeholder for each id, in any order. */
  ghost predicate Flushes(out: seq<Message>, ids: set<string>) {
    && |out| == |ids|
    && (forall k | 0 <= k < |out| :: out[k] == Placeholder(out[k].toolCallId))
    && Ids(out) == ids
  }

  lemma NoIds()
    ensures Ids([]) == {}
  {
  }

  lemma IdsSnoc(out: seq<Message>, m: Message)
    ensures Ids(out + [m]) == Ids(out) + {m.toolCallId}
  {
    var more := out + [m];
    forall x ensures x in Ids(more) <==> x in Ids(out) + {m.toolCallId} {
      if x in Ids(out) { var k :| 0 <= k < |out| && out[k].toolCallId == x; assert more[k].toolCallId == x; }
      if x == m.toolCallId { assert more[|out|].toolCallId == x; }
      if x in Ids(more) {
        var k :| 0 <= k < |more| && more[k].toolCallId == x;
        if k < |out| { assert out[k].toolCallId in Ids(out); }
      }
    }
  }

  /** Every result the repair may produce, one for each order in which the map is walked. */
  ghost predicate Repaired(waiting: set<string>, history: seq<Message>, out: seq<Message>)
    decreases |history|
  {
    if history == [] then Flushes(out, waiting)
    else
      var m := history[0];
      if m.role == ToolRole then
        out != [] && out[0] == m && Repaired(waiting - {m.toolCallId}, history[1..], out[1..])
      else
        var n := |waiting|;
        && n < |out| && Flushes(out[..n], waiting) && out[n] == m
        && Repaired(CallIds(m), history[1..], out[n + 1..])
  }

  // ---- The repair ----

  method Flush(waiting: set<string>) returns (out: seq<Message>)
    ensures Flushes(out, waiting)
  {
    hide Ids;
    out := [];
    var todo := waiting;
    assert Ids([]) == {} by { NoIds(); }
    while todo != {}
      invariant todo <= waiting && Flushes(out, waiting - todo)
      decreases todo
    {
      var id :| id in todo;
      ghost var before := out;
      out := out + [Placeholder(id)];
      assert waiting - (todo - {id}) == waiting - todo + {id};
      FlushOne(before, waiting - todo, id);
      todo := todo - {id};
    }
    assert waiting - todo == waiting;
  }

  lemma FlushOne(out: seq<Message>, ids: set<string>, id: string)
    requires Flushes(out, ids) && id !in ids
    ensures Flushes(out + [Placeholder(id)], ids + {id})
  {
    hide Ids;
    IdsSnoc(out, Placeholder(id));
  }

  /** Whatever repairs the rest of the history completes what has been written so far. */
  ghost predicate Continues(msgs: seq<Message>, i: nat, pending: set<string>, out: seq<Message>)
    requires i <= |msgs|
  {
    forall tail :: Repaired(pending, msgs[i..], tail) ==> Repaired({}, msgs, out + tail)
  }

  lemma ContinuesStep(msgs: seq<Message>, i: nat, pending: set<string>, out: seq<Message>, placeholders: seq<Message>)
    requires i < |msgs| && Continues(msgs, i, pending, out)
    requires if msgs[i].role == ToolRole then placeholders == [] else Flushes(placeholders, pending)
    ensures Continues(msgs, i + 1,
                      if msgs[i].role == ToolRole then pending - {msgs[i].toolCallId} else CallIds(msgs[i]),
                      out + placeholders + [msgs[i]])
  {
    hide Flushes, CallIds;
    var m := msgs[i];
    var next := if m.role == ToolRole then pending - {m.toolCallId} else CallIds(m);
    assert msgs[i..][0] == m && msgs[i..][1..] == msgs[i + 1..];
    assert |placeholders| == (if m.role == ToolRole then 0 else |pending|) by { FlushLength(m, pending, placeholders); }
    forall tail | Repaired(next, msgs[i + 1..], tail)
      ensures Repaired({}, msgs, out + placeholders + [m] + tail)
    {
      var all := placeholders + [m] + tail;
      assert out + all == out + placeholders + [m] + tail;
      assert all[..|placeholders|] == placeholders && all[|placeholders|] == m && all[|placeholders| + 1..] == tail;
    }
  }

  lemma FlushLength(m: Message, pending: set<string>, placeholders: seq<Message>)
    requires if m.role == ToolRole then placeholders == [] else Flushes(placeholders, pending)
    ensures |placeholders| == (if m.role == ToolRole then 0 else |pending|)
  {
  }

  method CollectCalls(m: Message) returns (ids: set<string>)
    requires m.role == AssistantRole
    ensures ids == CallIds(m)
  {
    ids := {};
    for j := 0 to |m.toolCalls|
      invariant ids == set k: nat | k < j && m.toolCalls[k].id != "" :: m.toolCalls[k].id
    {
      if m.toolCalls[j].id != "" { ids := ids + {m.toolCalls[j].id}; }
    }
  }

  /** Whichever way the map is walked, every call is answered and exactly the sound histories are left
      alone; `RepairKeeps` and `RepairAddsLacking` say what else any result of the repair is. */
  method SanitizeToolCalls(msgs: seq<Message>) returns (out: seq<Message>)
    ensures Repaired({}, msgs, out)
    ensures WellFormed(out)
    ensures out == msgs <==> WellFormed(msgs)
  {
    hide Flushes, Repaired, WellFormed;
    out := [];
    var pending: set<string> := {};
    assert Continues(msgs, 0, {}, []) by {
      assert msgs[0..] == msgs;
      assert forall tail: seq<Message> :: [] + tail == tail;
    }
    for i := 0 to |msgs|
      invariant "" !in pending && Continues(msgs, i, pending, out)
    {
      hide Continues;
      var m := msgs[i];
      ghost var before, waiting := out, pending;
      var placeholders := [];
      if m.role != ToolRole {
        placeholders := Flush(pending);
        pending := {};
      }
      ContinuesStep(msgs, i, waiting, before, placeholders);
      out := out + placeholders;
      if m.role == AssistantRole {
        pending := CollectCalls(m);
      }
      if m.role == ToolRole && m.toolCallId != "" {
        pending := pending - {m.toolCallId};
      }
      out := out + [m];
      assert pending == if m.role == ToolRole then waiting - {m.toolCallId} else CallIds(m);
    }
    var placeholders := Flush(pending);
    LastFlush(pending, placeholders);
    assert msgs[|msgs|..] == [];
    out := out + placeholders;
    RepairAnswers({}, msgs, out);
    RepairChangesOnlyBroken(msgs, out);
  }

  lemma LastFlush(pending: set<string>, placeholders: seq<Message>)
    requires Flushes(placeholders, pending)
    ensures Repaired(pending, [], placeholders)
  {
  }

  // ---- What any repair achieves ----

  lemma UnmetStep(waiting: set<string>, history: seq<Message>)
    ensures history == [] || history[0].role != ToolRole ==> Unmet(waiting, history) == waiting
    ensures history != [] && history[0].role == ToolRole ==>
              Unmet(waiting, history) == Unmet(waiting - {history[0].toolCallId}, history[1..])
  {
    if history != [] && history[0].role == ToolRole {
      var m, rest := history[0], history[1..];
      forall id | id in waiting
        ensures AnsweredIn(id, history) <==> id == m.toolCallId || AnsweredIn(id, rest)
      {
        if AnsweredIn(id, history) && id != m.toolCallId {
          var j :| 0 <= j < |history| && history[j].toolCallId == id
                   && forall k | 0 <= k <= j :: history[k].role == ToolRole;
          assert rest[j - 1].toolCallId == id && forall k | 0 <= k <= j - 1 :: rest[k].role == ToolRole;
        }
        if AnsweredIn(id, rest) {
          var j :| 0 <= j < |rest| && rest[j].toolCallId == id && forall k | 0 <= k <= j :: rest[k].role == ToolRole;
          assert history[j + 1].toolCallId == id && forall k | 0 <= k <= j + 1 :: history[k].role == ToolRole;
        }
        if id == m.toolCallId {
          assert history[0].toolCallId == id && forall k | 0 <= k <= 0 :: history[k].role == ToolRole;
        }
      }
    }
  }

  lemma WellFormedCons(m: Message, rest: seq<Message>)
    ensures WellFormed([m] + rest) <==> Unmet(CallIds(m), rest) == {} && WellFormed(rest)
  {
    hide Unmet, CallIds;
    var h := [m] + rest;
    assert h[1..] == rest;
    assert forall i | 0 <= i < |rest| :: h[i + 1] == rest[i] && h[i + 1 + 1..] == rest[i + 1..];
    if Unmet(CallIds(m), rest) == {} && WellFormed(rest) {
      forall i | 0 <= i < |h| ensures Unmet(CallIds(h[i]), h[i + 1..]) == {} {
        if i > 0 { assert h[i] == rest[i - 1] && h[i + 1..] == rest[i..]; }
      }
    }
    if WellFormed(h) {
      assert Unmet(CallIds(h[0]), h[0 + 1..]) == {};
      forall i | 0 <= i < |rest| ensures Unmet(CallIds(rest[i]), rest[i + 1..]) == {} {
        assert Unmet(CallIds(h[i + 1]), h[i + 1 + 1..]) == {};
      }
    }
  }

  /** A flush answers what was waited for and waits for nothing itself. */
  lemma {:induction false} FlushAnswers(out: seq<Message>, waiting: set<string>, rest: seq<Message>)
    requires Flushes(out, waiting) && WellFormed(rest)
    ensures Unmet(waiting, out + rest) == {}
  {
    var all := out + rest;
    forall id | id in waiting ensures AnsweredIn(id, all) {
      var k :| 0 <= k < |out| && out[k].toolCallId == id;
      assert all[k].toolCallId == id && forall j | 0 <= j <= k :: all[j] == out[j] && all[j].role == ToolRole;
    }
  }

  lemma {:induction false} ToolsAreWellFormed(out: seq<Message>, rest: seq<Message>)
    requires (forall k | 0 <= k < |out| :: out[k].role == ToolRole) && WellFormed(rest)
    ensures WellFormed(out + rest)
    decreases |out|
  {
    if out == [] {
      assert out + rest == rest;
    } else {
      ToolsAreWellFormed(out[1..], rest);
      WellFormedCons(out[0], out[1..] + rest);
      assert out + rest == [out[0]] + (out[1..] + rest);
    }
  }

  /** Every call in a repaired history is answered before the next message that is not a tool message,
      or the end. */
  lemma {:induction false} RepairAnswers(waiting: set<string>, history: seq<Message>, out: seq<Message>)
    requires Repaired(waiting, history, out)
    ensures WellFormed(out) && Unmet(waiting, out) == {}
    decreases |history|
  {
    hide Unmet, WellFormed;
    assert WellFormed([]) by { EmptyIsWellFormed(); }
    if history == [] {
      assert out + [] == out;
      FlushAnswers(out, waiting, []);
      ToolsAreWellFormed(out, []);
    } else if history[0].role == ToolRole {
      var m := history[0];
      RepairAnswers(waiting - {m.toolCallId}, history[1..], out[1..]);
      UnmetStep(waiting, out);
      NothingUnmet(out[1..]);
      WellFormedCons(m, out[1..]);
      assert out == [m] + out[1..];
    } else {
      var m, n := history[0], |waiting|;
      RepairAnswers(CallIds(m), history[1..], out[n + 1..]);
      WellFormedCons(m, out[n + 1..]);
      FlushAnswers(out[..n], waiting, [m] + out[n + 1..]);
      ToolsAreWellFormed(out[..n], [m] + out[n + 1..]);
      assert out == out[..n] + ([m] + out[n + 1..]);
    }
  }

  lemma EmptyIsWellFormed()
    ensures WellFormed([])
  {
  }

  lemma NothingUnmet(rest: seq<Message>)
    ensures Unmet({}, rest) == {}
  {
  }

  /** Nothing of the input is lost or reordered. */
  lemma {:induction false} RepairKeeps(waiting: set<string>, history: seq<Message>, out: seq<Message>)
    requires Repaired(waiting, history, out)
    ensures Subsequence(history, out)
    decreases |history|
  {
    if history != [] {
      var m, rest := history[0], history[1..];
      var flushed, tail := RepairedStep(waiting, history, out);
      hide Repaired, Flushes;
      RepairKeeps(if m.role == ToolRole then waiting - {m.toolCallId} else CallIds(m), rest, tail);
      SubsequenceRefl([m]);
      SubsequenceConcat([], flushed, [m], [m]);
      SubsequenceConcat([] + [m], flushed + [m], rest, tail);
      assert history == [] + [m] + rest;
    }
  }

  function Placeholders(ids: set<string>): multiset<Message> {
    multiset(set id <- ids :: Placeholder(id))
  }

  /** One entry of the history and what the repair writes for it. */
  lemma RepairedStep(waiting: set<string>, history: seq<Message>, out: seq<Message>)
    returns (flushed: seq<Message>, tail: seq<Message>)
    requires history != [] && Repaired(waiting, history, out)
    ensures out == flushed + [history[0]] + tail
    ensures if history[0].role == ToolRole then flushed == [] else Flushes(flushed, waiting)
    ensures Repaired(if history[0].role == ToolRole then waiting - {history[0].toolCallId} else CallIds(history[0]),
                     history[1..], tail)
  {
    hide Flushes, CallIds;
    var n := if history[0].role == ToolRole then 0 else |waiting|;
    flushed, tail := out[..n], out[n + 1..];
  }

  /** What is added is exactly one placeholder for every call that nothing answers. */
  lemma {:induction false} RepairAdds(waiting: set<string>, history: seq<Message>, out: seq<Message>)
    requires Repaired(waiting, history, out)
    ensures multiset(out) == multiset(history) + Placeholders(Unmet(waiting, history)) + Lacking(history)
    decreases |history|
  {
    if history == [] {
      UnmetStep(waiting, history);
      FlushIsPlaceholders(out, waiting);
      assert multiset(history) == multiset{};
    } else {
      var m, rest := history[0], history[1..];
      var flushed, tail := RepairedStep(waiting, history, out);
      var next := if m.role == ToolRole then waiting - {m.toolCallId} else CallIds(m);
      RepairAdds(next, rest, tail);
      EntryAdds(waiting, history, flushed, tail);
    }
  }

  lemma RepairAddsLacking(history: seq<Message>, out: seq<Message>)
    requires Repaired({}, history, out)
    ensures multiset(out) == multiset(history) + Lacking(history)
  {
    hide Repaired, Lacking;
    RepairAdds({}, history, out);
    NothingUnmet(history);
    assert Placeholders({}) == multiset{};
  }

  lemma EntryAdds(waiting: set<string>, history: seq<Message>, flushed: seq<Message>, tail: seq<Message>)
    requires history != []
    requires if history[0].role == ToolRole then flushed == [] else Flushes(flushed, waiting)
    requires var next := if history[0].role == ToolRole then waiting - {history[0].toolCallId} else CallIds(history[0]);
             multiset(tail) == multiset(history[1..]) + Placeholders(Unmet(next, history[1..])) + Lacking(history[1..])
    ensures multiset(flushed + [history[0]] + tail)
            == multiset(history) + Placeholders(Unmet(waiting, history)) + Lacking(history)
  {
    hide Unmet, CallIds, Placeholders, Flushes, Lacking;
    var m, rest := history[0], history[1..];
    UnmetStep(waiting, history);
    LackingStep(history);
    Around(flushed, m, tail);
    Around([], m, rest);
    assert history == [] + [m] + rest;
    if m.role == ToolRole {
      NothingToLack(m, rest);
      Balance(multiset{}, multiset{m}, multiset(rest), Placeholders(Unmet(waiting, history)), Lacking(rest));
    } else {
      FlushIsPlaceholders(flushed, waiting);
      Balance(multiset(flushed), multiset{m}, multiset(rest), Placeholders(Unmet(CallIds(m), rest)), Lacking(rest));
    }
  }

  lemma Balance<T>(f: multiset<T>, m: multiset<T>, r: multiset<T>, u: multiset<T>, l: multiset<T>)
    ensures f + m + (r + u + l) == m + r + f + (u + l)
    ensures f == multiset{} ==> f + m + (r + u + l) == m + r + u + (multiset{} + l)
  {
  }

  lemma Around(before: seq<Message>, m: Message, after: seq<Message>)
    ensures multiset(before + [m] + after) == multiset(before) + multiset{m} + multiset(after)
  {
  }

  lemma LackingStep(history: seq<Message>)
    requires history != []
    ensures Lacking(history) == Placeholders(Unmet(CallIds(history[0]), history[1..])) + Lacking(history[1..])
  {
  }

  lemma NothingToLack(m: Message, rest: seq<Message>)
    requires m.role == ToolRole
    ensures Placeholders(Unmet(CallIds(m), rest)) == multiset{}
  {
  }

  lemma PlaceholdersAdd(ids: set<string>, id: string)
    requires id !in ids
    ensures Placeholders(ids + {id}) == Placeholders(ids) + multiset{Placeholder(id)}
  {
    var all, some := (set x <- ids + {id} :: Placeholder(x)), (set x <- ids :: Placeholder(x));
    assert all == some + {Placeholder(id)} && Placeholder(id) !in some;
  }

  lemma FlushInit(out: seq<Message>, ids: set<string>) returns (fewer: set<string>)
    requires out != [] && Flushes(out, ids)
    ensures var n := |out| - 1;
            && out == out[..n] + [Placeholder(out[n].toolCallId)]
            && Flushes(out[..n], fewer) && ids == fewer + {out[n].toolCallId} && out[n].toolCallId !in fewer
  {
    hide Ids;
    var n := |out| - 1;
    assert out == out[..n] + [out[n]];
    IdsSnoc(out[..n], out[n]);
    fewer := Ids(out[..n]);
    DistinctIds(out[..n]);
    assert |fewer| <= n;
    assert out[n].toolCallId !in fewer && |fewer| == n;
  }

  lemma {:induction false} FlushIsPlaceholders(out: seq<Message>, ids: set<string>)
    requires Flushes(out, ids)
    ensures multiset(out) == Placeholders(ids)
    decreases |out|
  {
    if out == [] {
      assert ids == {};
    } else {
      var fewer := FlushInit(out, ids);
      hide Flushes, Placeholders;
      var n := |out| - 1;
      FlushIsPlaceholders(out[..n], fewer);
      PlaceholdersAdd(fewer, out[n].toolCallId);
    }
  }

  lemma {:induction false} DistinctIds(out: seq<Message>)
    ensures |Ids(out)| <= |out|
    decreases |out|
  {
    if out != [] {
      var n := |out| - 1;
      DistinctIds(out[..n]);
      IdsSnoc(out[..n], out[n]);
      assert out == out[..n] + [out[n]];
    }
  }

  lemma {:induction false} RepairOfWellFormed(waiting: set<string>, history: seq<Message>, out: seq<Message>)
    requires Repaired(waiting, history, out) && WellFormed(history) && Unmet(waiting, history) == {}
    ensures out == history
    decreases |history|
  {
    hide Unmet, WellFormed, CallIds;
    UnmetStep(waiting, history);
    if history != [] {
      var m := history[0];
      assert history == [m] + history[1..];
      WellFormedCons(m, history[1..]);
      var next := if m.role == ToolRole then waiting - {m.toolCallId} else CallIds(m);
      RepairOfWellFormed(next, history[1..], out[1..]);
      assert out == [m] + out[1..];
    }
  }

  /** The repair changes a history exactly when some call in it is left unanswered, in whatever order
      the pending calls are walked. */
  lemma RepairChangesOnlyBroken(history: seq<Message>, out: seq<Message>)
    requires Repaired({}, history, out)
    ensures out == history <==> WellFormed(history)
  {
    RepairAnswers({}, history, out);
    if WellFormed(history) {
      NothingUnmet(history);
      RepairOfWellFormed({}, history, out);
    }
  }

  lemma RepairIsIdempotent(history: seq<Message>, once: seq<Message>, twice: seq<Message>)
    requires Repaired({}, history, once) && Repaired({}, once, twice)
    ensures twice == once
  {
    RepairAnswers({}, history, once);
    RepairChangesOnlyBroken(once, twice);
  }

  // ---- What it means for a history to be sound ----

  /** A history is sound when every call an assistant makes under an id is answered: a tool message that names
      the id follows, and only tool messages come in between. */
  lemma WellFormedMeans(history: seq<Message>)
    ensures WellFormed(history) <==>
            forall i, c | 0 <= i < |history| && history[i].role == AssistantRole && c in history[i].toolCalls
                          && c.id != "" ::
              exists j | i < j < |history| :: history[j].toolCallId == c.id
                                              && forall k | i < k <= j :: history[k].role == ToolRole
  {
    forall i, c | 0 <= i < |history| && history[i].role == AssistantRole && c in history[i].toolCalls && c.id != ""
      ensures c.id in Unmet(CallIds(history[i]), history[i + 1..]) <==>
              !exists j | i < j < |history| :: history[j].toolCallId == c.id
                                               && forall k | i < k <= j :: history[k].role == ToolRole
    {
      CallIdOf(history[i], c);
      AnsweredAt(c.id, history, i);
    }
    forall i | 0 <= i < |history| && Unmet(CallIds(history[i]), history[i + 1..]) != {}
      ensures exists c :: history[i].role == AssistantRole && c in history[i].toolCalls && c.id != ""
                          && c.id in Unmet(CallIds(history[i]), history[i + 1..])
    {
      var id :| id in Unmet(CallIds(history[i]), history[i + 1..]);
      var k: nat :| k < |history[i].toolCalls| && history[i].toolCalls[k].id != "" && history[i].toolCalls[k].id == id;
      assert history[i].toolCalls[k] in history[i].toolCalls;
    }
  }

  lemma CallIdOf(m: Message, c: ToolCall)
    requires m.role == AssistantRole && c in m.toolCalls && c.id != ""
    ensures c.id in CallIds(m)
  {
    var k: nat :| k < |m.toolCalls| && m.toolCalls[k] == c;
    assert m.toolCalls[k].id != "";
  }

  lemma AnsweredAt(id: string, history: seq<Message>, i: nat)
    requires i < |history|
    ensures AnsweredIn(id, history[i + 1..]) <==>
            exists j | i < j < |history| :: history[j].toolCallId == id
                                            && forall k | i < k <= j :: history[k].role == ToolRole
  {
    var rest := history[i + 1..];
    if AnsweredIn(id, rest) {
      var j :| 0 <= j < |rest| && rest[j].toolCallId == id && forall k | 0 <= k <= j :: rest[k].role == ToolRole;
      assert history[i + 1 + j].toolCallId == id;
      assert forall k | i < k <= i + 1 + j :: history[k] == rest[k - i - 1];
    }
    if j :| i < j < |history| && history[j].toolCallId == id && forall k | i < k <= j :: history[k].role == ToolRole {
      assert rest[j - i - 1].toolCallId == id;
      assert forall k | 0 <= k <= j - i - 1 :: rest[k] == history[i + 1 + k];
    }
  }

  /** A placeholder is a tool message that answers its call, and says that the call was cancelled. */
  lemma PlaceholderMeans(id: string)
    ensures var p := Placeholder(id);
            p.role == ToolRole && p.toolCallId == id && p.content == "(tool call cancelled)" && p.toolCalls == []
  {
  }

  // ---- The history of a run ----

  function WithSystem(system: string, incoming: seq<Message>): seq<Message> {
    if system != "" && (|incoming| == 0 || incoming[0].role != SystemRole)
    then [Message(SystemRole, system, "", [], "", "")] + incoming
    else incoming
  }

  method PrepareMessages(system: string, incoming: seq<Message>) returns (messages: seq<Message>)
    ensures Repaired({}, WithSystem(system, incoming), messages)
    ensures WellFormed(messages) && Subsequence(incoming, messages)
    ensures system != "" ==> messages != [] && messages[0].role == SystemRole
    ensures system != "" && (incoming == [] || incoming[0].role != SystemRole) ==>
              messages[0] == Message(SystemRole, system, "", [], "", "")
    ensures system == "" && WellFormed(incoming) ==> messages == incoming
  {
    messages := incoming;
    if system != "" && (|messages| == 0 || messages[0].role != SystemRole) {
      messages := [Message(SystemRole, system, "", [], "", "")] + messages;
    }
    ghost var full := messages;
    assert Subsequence(incoming, full) by {
      SubsequenceRefl(incoming);
      SubsequenceConcat([], full[..|full| - |incoming|], incoming, incoming);
      assert [] + incoming == incoming && full[..|full| - |incoming|] + incoming == full;
    }
    messages := SanitizeToolCalls(messages);
    RepairKeeps({}, full, messages);
    SubsequenceTrans(incoming, full, messages);
  }

  /** What the tool loop generated, and the final answer when the loop did not end with it. */
  function Ending(generated: seq<Message>, final: Message): seq<Message> {
    if |generated| == 0 || generated[|generated| - 1].role != AssistantRole then generated + [final] else generated
  }

  /** Everything that was generated is handed back, and the last word is an assistant's or the final answer,
      which is not said twice. */
  lemma EndingMeans(generated: seq<Message>, final: Message)
    ensures var ending := Ending(generated, final);
            && generated <= ending && ending != []
            && var last := ending[|ending| - 1];
               if |ending| == |generated| then last.role == AssistantRole
               else |ending| == |generated| + 1 && last == final
                    && (generated != [] ==> generated[|generated| - 1].role != AssistantRole)
  {
  }

  /** The history a run returns: a sound history that contains the one it was given, and its ending. That
      the given history is kept is what the coordinator relies on. */
  method FullHistory(system: string, incoming: seq<Message>, generated: seq<Message>, final: Message)
    returns (history: seq<Message>)
    ensures Subsequence(incoming, history)
    ensures var n := |history| - |Ending(generated, final)|;
            n >= 0 && history[n..] == Ending(generated, final) && WellFormed(history[..n])
            && Subsequence(incoming, history[..n])
  {
    hide WellFormed, Subsequence, Repaired;
    var messages := PrepareMessages(system, incoming);
    history := messages + generated;
    if |generated| == 0 || generated[|generated| - 1].role != AssistantRole {
      history := history + [final];
    }
    ghost var ending := Ending(generated, final);
    assert history == messages + ending;
    SubsequenceAppend(incoming, messages, ending);
    assert history[..|messages|] == messages && history[|messages|..] == ending;
  }
}
