/** One subscriber's bounded queue: internal/chat/subscription.go.

    The channel is a sequence with a state of its own, in which a send after a close or a second close
    shows as the panic it would be. `Next` is its two steps (receive, then settle under the queue's own
    mutex), and `accepted` and `delivered` record the whole history of the queue. */
module Subscriptions {
  import opened Transcript

  const MAX_SUBSCRIPTION_BYTES: nat := 16 * 1024 * 1024
  const QUEUE_CAPACITY: nat := 128

  datatype Queued = Queued(update: Update, size: nat)

  /** Where the single reader stands inside `Next`. */
  datatype Reader = Idle | Holding(item: Queued) | SawClosed

  datatype Channel = Flowing | Sealed | Panicked

  datatype Sub = Sub(key: Key, queue: seq<Queued>, channel: Channel, reader: Reader, bytes: int, closed: bool,
                     overflow: bool, accepted: seq<Update>, delivered: seq<Update>)

  datatype NextResult = Delivered(update: Update) | SlowSubscriber | EndOfQueue | NotReady

  function NewSub(key: Key): Sub {
    Sub(key, [], Flowing, Idle, 0, false, false, [], [])
  }

  function SentOn(c: Channel): Channel { if c.Flowing? then Flowing else Panicked }

  function ClosedOnce(c: Channel): Channel { if c.Flowing? then Sealed else Panicked }

  function Enqueued(s: Sub, u: Update): (r: (Sub, bool)) {
    if s.closed then (s, false)
    else if s.bytes + UpdateBytes(u) > MAX_SUBSCRIPTION_BYTES || |s.queue| == QUEUE_CAPACITY then
      (s.(closed := true, overflow := true, channel := ClosedOnce(s.channel)), false)
    else
      (s.(bytes := s.bytes + UpdateBytes(u), queue := s.queue + [Queued(u, UpdateBytes(u))],
          channel := SentOn(s.channel), accepted := s.accepted + [u]), true)
  }

  /** First step of `Next`: take from the channel, or see that it is closed and empty. */
  function Received(s: Sub): Sub {
    if !s.reader.Idle? then s
    else if s.queue != [] then s.(queue := s.queue[1..], reader := Holding(s.queue[0]))
    else if s.channel.Sealed? then s.(reader := SawClosed)
    else s
  }

  /** Second step of `Next`, under the queue's mutex. */
  function Settled(s: Sub): (r: (Sub, NextResult)) {
    if s.reader.Idle? then (s, NotReady)
    else if s.overflow then (s.(reader := Idle), SlowSubscriber)
    else match s.reader
      case SawClosed => (s.(reader := Idle), EndOfQueue)
      case Holding(q) => (s.(reader := Idle, bytes := s.bytes - q.size, delivered := s.delivered + [q.update]),
                          Delivered(q.update))
  }

  /** closeQueue. */
  function Shut(s: Sub): Sub {
    if s.closed then s else s.(closed := true, channel := ClosedOnce(s.channel))
  }

  // ---- What the queue keeps ----

  function Updates(q: seq<Queued>): (us: seq<Update>)
    ensures |us| == |q|
    ensures forall i :: 0 <= i < |q| ==> us[i] == q[i].update
  {
    seq(|q|, i requires 0 <= i < |q| => q[i].update)
  }

  function SizeOf(q: seq<Queued>): nat {
    if q == [] then 0 else q[0].size + SizeOf(q[1..])
  }

  function Held(r: Reader): seq<Queued> {
    match r case Holding(q) => [q] case _ => []
  }

  /** Everything accepted is delivered, in the reader's hand or still queued, in that order, and the
      byte counter is exactly what is not delivered yet. After an overflow only the prefix law is left. */
  ghost predicate SubInv(s: Sub) {
    && s.channel == (if s.closed then Sealed else Flowing)
    && |s.queue| <= QUEUE_CAPACITY
    && 0 <= s.bytes <= MAX_SUBSCRIPTION_BYTES
    && (s.overflow ==> s.closed)
    && s.delivered <= s.accepted
    && (!s.overflow ==>
          && s.accepted == s.delivered + Updates(Held(s.reader) + s.queue)
          && s.bytes == SizeOf(Held(s.reader) + s.queue))
    && (s.reader.SawClosed? ==> s.closed && s.queue == [])
  }

  lemma {:induction false} SizeOfSnoc(q: seq<Queued>, x: Queued)
    ensures SizeOf(q + [x]) == SizeOf(q) + x.size
  {
    if q == [] {
      assert [] + [x] == [x];
    } else {
      assert (q + [x])[1..] == q[1..] + [x];
      SizeOfSnoc(q[1..], x);
    }
  }

  lemma EnqueueKeeps(s: Sub, u: Update)
    requires SubInv(s)
    ensures var (t, ok) := Enqueued(s, u);
            && SubInv(t) && t.key == s.key && t.delivered == s.delivered
            && (ok ==> !s.closed && !t.closed && t.accepted == s.accepted + [u])
            && (!ok ==> t.closed && t.accepted == s.accepted)
            && (s.closed ==> t == s)
  {
    var (t, ok) := Enqueued(s, u);
    if ok {
      var x := Queued(u, UpdateBytes(u));
      var line := Held(s.reader) + s.queue;
      assert Held(t.reader) + t.queue == line + [x];
      SizeOfSnoc(line, x);
      assert t.accepted == t.delivered + Updates(line + [x]);
    }
  }

  lemma ReceiveKeeps(s: Sub)
    requires SubInv(s)
    ensures SubInv(Received(s))
  {
    var t := Received(s);
    assert Held(t.reader) + t.queue == Held(s.reader) + s.queue;
  }

  lemma UpdatesCons(x: Queued, q: seq<Queued>)
    ensures Updates([x] + q) == [x.update] + Updates(q) && SizeOf([x] + q) == x.size + SizeOf(q)
  {
    assert ([x] + q)[1..] == q;
  }

  lemma SettleKeeps(s: Sub)
    requires SubInv(s)
    ensures SubInv(Settled(s).0)
  {
    if !s.overflow && s.reader.Holding? {
      hide SubInv;
      DeliveryKeeps(s);
    } else if s.reader.SawClosed? {
      assert Held(Idle) + s.queue == Held(s.reader) + s.queue;
    }
  }

  lemma DeliveryKeeps(s: Sub)
    requires SubInv(s) && !s.overflow && s.reader.Holding?
    ensures var q := s.reader.item;
            SubInv(s.(reader := Idle, bytes := s.bytes - q.size, delivered := s.delivered + [q.update]))
  {
    hide Updates, SizeOf;
    var q := s.reader.item;
    UpdatesCons(q, s.queue);
    assert Held(Idle) + s.queue == s.queue;
    HeadDelivered(s.delivered, q.update, Updates(s.queue));
    var rest := Updates(s.queue);
    assert s.accepted == s.delivered + [q.update] + rest;
    assert s.delivered + [q.update] <= s.delivered + [q.update] + rest;
  }

  lemma HeadDelivered(delivered: seq<Update>, u: Update, rest: seq<Update>)
    ensures delivered + ([u] + rest) == delivered + [u] + rest
  {
  }

  // ---- Whole runs of one queue ----

  datatype SubStep = DoEnqueue(update: Update) | DoReceive | DoSettle | DoClose

  function StepSub(s: Sub, a: SubStep): Sub {
    match a
    case DoEnqueue(u) => Enqueued(s, u).0
    case DoReceive => Received(s)
    case DoSettle => Settled(s).0
    case DoClose => Shut(s)
  }

  function RunSub(s: Sub, steps: seq<SubStep>): Sub {
    if steps == [] then s else StepSub(RunSub(s, steps[..|steps| - 1]), steps[|steps| - 1])
  }

  lemma {:induction false} RunSubKeeps(s: Sub, steps: seq<SubStep>)
    requires SubInv(s)
    ensures SubInv(RunSub(s, steps))
  {
    if steps != [] {
      RunSubKeeps(s, steps[..|steps| - 1]);
      var m := RunSub(s, steps[..|steps| - 1]);
      match steps[|steps| - 1]
      case DoEnqueue(u) => EnqueueKeeps(m, u);
      case DoReceive => ReceiveKeeps(m);
      case DoSettle => SettleKeeps(m);
      case DoClose =>
    }
  }

  /** Over every interleaving of one producer, one reader and a closer, what the reader was handed is a
      gap-free prefix of what the coordinator enqueued, and the two byte budgets hold. */
  lemma DeliveryIsPrefix(key: Key, steps: seq<SubStep>)
    ensures var s := RunSub(NewSub(key), steps);
            && s.delivered <= s.accepted
            && |s.queue| <= QUEUE_CAPACITY && 0 <= s.bytes <= MAX_SUBSCRIPTION_BYTES
            && (!s.overflow ==> s.bytes == SizeOf(Held(s.reader) + s.queue))
  {
    RunSubKeeps(NewSub(key), steps);
  }

  /** No interleaving sends on a closed channel or closes it twice, and the flag and the channel agree. */
  lemma {:induction false} ChannelIsSafe(key: Key, steps: seq<SubStep>)
    ensures var s := RunSub(NewSub(key), steps);
            !s.channel.Panicked? && (s.closed <==> s.channel.Sealed?)
  {
    RunSubKeeps(NewSub(key), steps);
  }

  /** Overflow is sticky: whatever happens afterwards, nothing more is accepted or delivered. */
  lemma {:induction false} OverflowIsFinal(s: Sub, steps: seq<SubStep>)
    requires SubInv(s) && s.overflow
    ensures RunSub(s, steps).overflow
    ensures RunSub(s, steps).delivered == s.delivered && RunSub(s, steps).accepted == s.accepted
  {
    if steps != [] {
      RunSubKeeps(s, steps[..|steps| - 1]);
      OverflowIsFinal(s, steps[..|steps| - 1]);
    }
  }

  /** The end of the queue is reported only when everything accepted has been delivered. */
  lemma EndOnlyAfterAll(key: Key, steps: seq<SubStep>)
    ensures var s := RunSub(NewSub(key), steps);
            Settled(s).1 == EndOfQueue ==> s.closed && !s.overflow && s.delivered == s.accepted
  {
    RunSubKeeps(NewSub(key), steps);
  }

  /** An open queue takes an update exactly when it has a place and the bytes for it, behind everything it has
      taken; otherwise it is closed as too slow. A closed queue takes nothing and stays as it is. */
  lemma EnqueueMeans(s: Sub, u: Update)
    requires SubInv(s)
    ensures var (t, ok) := Enqueued(s, u);
            && (ok <==> !s.closed && s.bytes + UpdateBytes(u) <= 16 * 1024 * 1024 && |s.queue| < 128)
            && (ok ==> !t.closed && t.accepted == s.accepted + [u] && t.delivered == s.delivered)
            && (!ok && !s.closed ==> t.closed && t.overflow && t.accepted == s.accepted)
            && (s.closed ==> t == s)
  {
    hide UpdateBytes;
  }

  /** What `Next` hands over is the oldest update that was accepted and not yet handed over; a reader of a queue
      that overflowed is told so, whatever is still in it. */
  lemma NextMeans(s: Sub)
    requires SubInv(s) && s.reader.Idle?
    ensures var (t, r) := Next(s);
            && (s.overflow ==> (r.SlowSubscriber? || r.NotReady?) && t.delivered == s.delivered)
            && (s.overflow && (s.queue != [] || s.channel.Sealed?) ==> r.SlowSubscriber?)
            && (!s.overflow && s.delivered != s.accepted ==>
                  |s.delivered| < |s.accepted| && r == Delivered(s.accepted[|s.delivered|])
                  && t.delivered == s.delivered + [r.update])
            && (!s.overflow && s.delivered == s.accepted ==> r == (if s.closed then EndOfQueue else NotReady))
  {
    hide SizeOf, SubInv;
    Undelivered(s);
  }

  /** What a reader that holds nothing has still to be handed is what is queued. */
  lemma Undelivered(s: Sub)
    requires SubInv(s) && s.reader.Idle?
    ensures !s.overflow && s.queue != [] ==>
              |s.delivered| < |s.accepted| && s.accepted[|s.delivered|] == s.queue[0].update
    ensures !s.overflow && s.queue == [] ==> s.delivered == s.accepted
    ensures s.channel == (if s.closed then Sealed else Flowing)
  {
    assert Held(s.reader) + s.queue == s.queue;
    if s.queue != [] { assert Updates(s.queue)[0] == s.queue[0].update; }
    else { assert s.delivered + Updates([]) == s.delivered; }
  }

  function Next(s: Sub): (Sub, NextResult) { Settled(Received(s)) }

  function NextTimes(s: Sub, n: nat): Sub
    decreases n
  {
    if n == 0 then s else NextTimes(Next(s).0, n - 1)
  }

  /** After a graceful close a reader that keeps calling `Next` gets every queued update and then the end. */
  lemma {:induction false} DrainThenEnd(s: Sub)
    requires SubInv(s) && s.closed && !s.overflow && s.reader.Idle?
    ensures var t := NextTimes(s, |s.queue|);
            && t.delivered == s.accepted && Next(t).1 == EndOfQueue
    decreases |s.queue|
  {
    assert Held(s.reader) + s.queue == s.queue;
    if s.queue != [] {
      ReceiveKeeps(s);
      SettleKeeps(Received(s));
      DrainThenEnd(Next(s).0);
    }
  }

  // ---- The queue as the object it is ----

  class Subscription {
    const key: Key
    const id: nat
    var queue: seq<Queued>
    var channel: Channel
    var bytes: int
    var closed: bool
    var err: bool
    var reader: Reader
    ghost var accepted: seq<Update>
    ghost var delivered: seq<Update>

    ghost function View(): Sub reads this {
      Sub(key, queue, channel, reader, bytes, closed, err, accepted, delivered)
    }

    constructor (key: Key, id: nat)
      ensures View() == NewSub(key) && this.key == key && this.id == id
    {
      this.key := key;
      this.id := id;
      queue, channel, bytes, closed, err, reader := [], Flowing, 0, false, false, Idle;
      accepted, delivered := [], [];
    }

    method Enqueue(u: Update) returns (ok: bool)
      modifies this
      ensures (View(), ok) == Enqueued(old(View()), u)
    {
      if closed {
        return false;
      }
      var size := UpdateBytes(u);
      if bytes + size > MAX_SUBSCRIPTION_BYTES || |queue| == QUEUE_CAPACITY {
        closed, err := true, true;
        channel := ClosedOnce(channel);
        return false;
      }
      bytes := bytes + size;
      queue := queue + [Queued(u, size)];
      channel := SentOn(channel);
      accepted := accepted + [u];
      return true;
    }

    method Receive()
      modifies this
      ensures View() == Received(old(View()))
    {
      if reader.Idle? {
        if |queue| > 0 {
          reader := Holding(queue[0]);
          queue := queue[1..];
        } else if channel.Sealed? {
          reader := SawClosed;
        }
      }
    }

    method Settle() returns (result: NextResult)
      modifies this
      ensures (View(), result) == Settled(old(View()))
    {
      var took := reader;
      reader := Idle;
      if took.Idle? {
        result := NotReady;
      } else if err {
        result := SlowSubscriber;
      } else if took.SawClosed? {
        result := EndOfQueue;
      } else {
        bytes := bytes - took.item.size;
        delivered := delivered + [took.item.update];
        result := Delivered(took.item.update);
      }
    }

    method CloseQueue()
      modifies this
      ensures View() == Shut(old(View()))
    {
      if !closed {
        closed := true;
        channel := ClosedOnce(channel);
      }
    }
  }
}
