/** The two history filters of internal/chat/service.go. */
module Service {
  import opened Transcript

  predicate IsPlaceholder(m: Message) {
    m.role == SystemRole && (m.content == "New session" || m.content == "(empty)")
  }

  function HistoryFrom(messages: seq<Message>): seq<Message> {
    if messages == [] then []
    else
      var m := messages[|messages| - 1];
      HistoryFrom(messages[..|messages| - 1]) + (if IsPlaceholder(m) then [] else [m])
  }

  function WithoutSystem(messages: seq<Message>): seq<Message> {
    if messages == [] then []
    else
      var m := messages[|messages| - 1];
      WithoutSystem(messages[..|messages| - 1]) + (if m.role == SystemRole then [] else [m])
  }

  lemma {:induction false} WithoutSystemConcat(a: seq<Message>, b: seq<Message>)
    ensures WithoutSystem(a + b) == WithoutSystem(a) + WithoutSystem(b)
  {
    if b == [] {
      assert a + b == a;
    } else {
      assert (a + b)[..|a + b| - 1] == a + b[..|b| - 1];
      WithoutSystemConcat(a, b[..|b| - 1]);
    }
  }

  /** Loading a history loses no conversation: only system messages are left out. */
  lemma {:induction false} HistoryKeepsConversation(messages: seq<Message>)
    ensures WithoutSystem(HistoryFrom(messages)) == WithoutSystem(messages)
    ensures Subsequence(HistoryFrom(messages), messages)
  {
    if messages != [] {
      var init, m := messages[..|messages| - 1], messages[|messages| - 1];
      HistoryKeepsConversation(init);
      WithoutSystemConcat(HistoryFrom(init), if IsPlaceholder(m) then [] else [m]);
      assert WithoutSystem([m]) == if m.role == SystemRole then [] else [m] by { assert [m][..0] == []; }
      assert messages == init + [m];
      assert HistoryFrom(init) + [] == HistoryFrom(init);
      if IsPlaceholder(m) { SubsequenceAppend(HistoryFrom(init), init, [m]); }
      else { SubsequenceSnoc(HistoryFrom(init), init, m); }
    }
  }

  lemma {:induction false} WithoutSystemMonotone(a: seq<Message>, b: seq<Message>)
    requires Subsequence(a, b)
    ensures Subsequence(WithoutSystem(a), WithoutSystem(b))
    decreases |b|
  {
    if a != [] {
      var a', b' := a[..|a| - 1], b[..|b| - 1];
      if a[|a| - 1] == b[|b| - 1] && Subsequence(a', b') {
        WithoutSystemMonotone(a', b');
        assert WithoutSystem(a') + [] == WithoutSystem(a') && WithoutSystem(b') + [] == WithoutSystem(b');
        if a[|a| - 1].role != SystemRole {
          SubsequenceSnoc(WithoutSystem(a'), WithoutSystem(b'), a[|a| - 1]);
        }
      } else {
        WithoutSystemMonotone(a, b');
        SubsequenceAppend(WithoutSystem(a), WithoutSystem(b'),
                          if b[|b| - 1].role == SystemRole then [] else [b[|b| - 1]]);
      }
    }
  }

  /** What is saved is everything but the system messages, each as often as it was there and in its place. */
  lemma {:induction false} WithoutSystemIsFilter(messages: seq<Message>, m: Message)
    ensures Subsequence(WithoutSystem(messages), messages)
    ensures multiset(WithoutSystem(messages))[m] == if m.role == SystemRole then 0 else multiset(messages)[m]
  {
    if messages != [] {
      var init, last := messages[..|messages| - 1], messages[|messages| - 1];
      WithoutSystemIsFilter(init, m);
      FilteredSnoc(WithoutSystem(init), init, last, last.role != SystemRole, m);
      assert messages == init + [last];
    }
  }

  lemma FilteredSnoc(kept: seq<Message>, init: seq<Message>, last: Message, keep: bool, m: Message)
    requires Subsequence(kept, init)
    ensures var more := kept + if keep then [last] else [];
            && Subsequence(more, init + [last])
            && multiset(more)[m] == multiset(kept)[m] + if keep && m == last then 1 else 0
    ensures multiset(init + [last])[m] == multiset(init)[m] + if m == last then 1 else 0
  {
    if keep { SubsequenceSnoc(kept, init, last); }
    else { SubsequenceAppend(kept, init, [last]); assert kept + [] == kept; }
  }

  /** What a turn starts from is everything but the two placeholders, each as often as it was there and in
      its place: any other system message stays. */
  lemma {:induction false} HistoryIsFilter(messages: seq<Message>, m: Message)
    ensures Subsequence(HistoryFrom(messages), messages)
    ensures multiset(HistoryFrom(messages))[m] ==
            if m.role == SystemRole && (m.content == "New session" || m.content == "(empty)") then 0
            else multiset(messages)[m]
  {
    if messages != [] {
      var init, last := messages[..|messages| - 1], messages[|messages| - 1];
      HistoryIsFilter(init, m);
      FilteredSnoc(HistoryFrom(init), init, last, !IsPlaceholder(last), m);
      assert messages == init + [last];
    }
  }

  lemma WithoutSystemKeepsOrder(messages: seq<Message>)
    ensures Subsequence(WithoutSystem(messages), messages)
  {
    var any: Message := Message(SystemRole, "", "", [], "", "");
    WithoutSystemIsFilter(messages, any);
  }

  predicate IsConversation(messages: seq<Message>) { forall m <- messages :: m.role != SystemRole }

  lemma WithoutSystemIsConversation(messages: seq<Message>)
    ensures IsConversation(WithoutSystem(messages))
  {
    forall m <- WithoutSystem(messages) ensures m.role != SystemRole {
      WithoutSystemIsFilter(messages, m);
      assert multiset(WithoutSystem(messages))[m] > 0;
    }
  }

  lemma {:induction false} ConversationIsWhole(messages: seq<Message>)
    requires IsConversation(messages)
    ensures WithoutSystem(messages) == messages
  {
    if messages != [] {
      var init, m := messages[..|messages| - 1], messages[|messages| - 1];
      assert messages == init + [m] && m in messages;
      ConversationIsWhole(init);
    }
  }

  /** Any conversation found in a history is found, in order, in what is kept of it. */
  lemma ConversationIsKept(part: seq<Message>, messages: seq<Message>)
    requires IsConversation(part) && Subsequence(part, messages)
    ensures Subsequence(part, WithoutSystem(messages))
  {
    ConversationIsWhole(part);
    WithoutSystemMonotone(part, messages);
  }

  lemma HistoryHoldsConversation(part: seq<Message>, stored: seq<Message>)
    requires IsConversation(part) && Subsequence(part, stored)
    ensures Subsequence(part, HistoryFrom(stored))
  {
    ConversationIsKept(part, stored);
    HistoryKeepsConversation(stored);
    WithoutSystemKeepsOrder(HistoryFrom(stored));
    SubsequenceTrans(part, WithoutSystem(stored), HistoryFrom(stored));
  }

  /** Whatever conversation can be read off a stored record, followed by whatever can be read off the messages
      a turn was started with, can be read off what the turn saves, provided the runner hands back a history
      that contains the one it was given; and no system message is saved. */
  lemma TurnKeepsConversation(stored: seq<Message>, incoming: seq<Message>, result: seq<Message>)
    requires Subsequence(HistoryFrom(stored) + incoming, result)
    ensures IsConversation(WithoutSystem(result))
    ensures forall said, asked | IsConversation(said) && IsConversation(asked) ::
              Subsequence(said, stored) && Subsequence(asked, incoming) ==>
              Subsequence(said + asked, WithoutSystem(result))
  {
    hide Subsequence;
    WithoutSystemIsConversation(result);
    forall said, asked | IsConversation(said) && IsConversation(asked)
      ensures Subsequence(said, stored) && Subsequence(asked, incoming)
              ==> Subsequence(said + asked, WithoutSystem(result))
    {
      if Subsequence(said, stored) && Subsequence(asked, incoming) {
        HistoryHoldsConversation(said, stored);
        SubsequenceConcat(said, HistoryFrom(stored), asked, incoming);
        SubsequenceTrans(said + asked, HistoryFrom(stored) + incoming, result);
        ConversationIsKept(said + asked, result);
      }
    }
  }

  // ---- The two loops ----

  method ComputeHistoryFrom(messages: seq<Message>) returns (history: seq<Message>)
    ensures history == HistoryFrom(messages)
    ensures Subsequence(history, messages)
    ensures forall m :: multiset(history)[m] ==
              if m.role == SystemRole && (m.content == "New session" || m.content == "(empty)") then 0
              else multiset(messages)[m]
  {
    history := [];
    for i := 0 to |messages|
      invariant history == HistoryFrom(messages[..i])
    {
      assert messages[..i + 1][..i] == messages[..i];
      if !IsPlaceholder(messages[i]) {
        history := history + [messages[i]];
      }
    }
    assert messages[..|messages|] == messages;
    HistoryKeepsConversation(messages);
    forall m { HistoryIsFilter(messages, m); }
  }

  method ComputeWithoutSystem(messages: seq<Message>) returns (out: seq<Message>)
    ensures out == WithoutSystem(messages)
    ensures Subsequence(out, messages)
    ensures forall m :: multiset(out)[m] == if m.role == SystemRole then 0 else multiset(messages)[m]
  {
    out := [];
    for i := 0 to |messages|
      invariant out == WithoutSystem(messages[..i])
    {
      assert messages[..i + 1][..i] == messages[..i];
      if messages[i].role != SystemRole {
        out := out + [messages[i]];
      }
    }
    assert messages[..|messages|] == messages;
    WithoutSystemKeepsOrder(messages);
    forall m { WithoutSystemIsFilter(messages, m); }
  }
}
