/** What every interleaving of one connection's goroutines keeps: the byte budget, the order of frames,
    and the workspace fence. */
module ConnectionProofs {
  import opened Subscriptions
  import opened ConnectionSpec

  // ---- The byte budget ----

  function FrameBytes(frames: seq<Frame>): nat {
    if frames == [] then 0 else frames[0].size + FrameBytes(frames[1..])
  }

  /** What a goroutine has added to the counter and not yet turned into a queued frame or given back. */
  function Outstanding(w: Writer): nat {
    match w.sending case Reserved(f) => f.size case Refunding(f) => f.size case _ => 0
  }

  /** The part of it that has passed the budget check. */
  function Cleared(w: Writer): nat {
    match w.sending case Reserved(f) => f.size case _ => 0
  }

  function Total(writers: seq<Writer>, amount: Writer -> nat): nat {
    if writers == [] then 0 else amount(writers[0]) + Total(writers[1..], amount)
  }

  function Unreleased(p: Pump): nat { match p case Taken(f) => f.size case _ => 0 }

  ghost predicate Budget(c: Conn) {
    && c.queuedBytes == FrameBytes(c.send) + Unreleased(c.pump) + Total(c.writers, Outstanding)
    && FrameBytes(c.send) + Unreleased(c.pump) + Total(c.writers, Cleared) <= MAX_SUBSCRIPTION_BYTES
    && |c.send| <= SEND_CAPACITY
    && (c.pump.Writing? ==> c.pump.frame.size <= MAX_SUBSCRIPTION_BYTES)
  }

  lemma {:induction false} TotalUpdate(writers: seq<Writer>, i: nat, w: Writer, amount: Writer -> nat)
    requires i < |writers|
    ensures Total(writers[i := w], amount) == Total(writers, amount) - amount(writers[i]) + amount(w)
    decreases |writers|
  {
    if i == 0 {
      assert writers[i := w][1..] == writers[1..];
    } else {
      TotalUpdate(writers[1..], i - 1, w, amount);
      assert writers[i := w][1..] == writers[1..][i - 1 := w];
    }
  }

  lemma {:induction false} TotalSnoc(writers: seq<Writer>, w: Writer, amount: Writer -> nat)
    ensures Total(writers + [w], amount) == Total(writers, amount) + amount(w)
    decreases |writers|
  {
    if writers == [] {
      assert writers + [w] == [w] && [w][1..] == [];
    } else {
      TotalSnoc(writers[1..], w, amount);
      assert (writers + [w])[1..] == writers[1..] + [w];
    }
  }

  lemma {:induction false} FrameBytesSnoc(frames: seq<Frame>, f: Frame)
    ensures FrameBytes(frames + [f]) == FrameBytes(frames) + f.size
    decreases |frames|
  {
    if frames == [] {
      assert frames + [f] == [f] && [f][1..] == [];
    } else {
      FrameBytesSnoc(frames[1..], f);
      assert (frames + [f])[1..] == frames[1..] + [f];
    }
  }

  lemma FrameBytesHead(frames: seq<Frame>)
    requires frames != []
    ensures FrameBytes(frames) == frames[0].size + FrameBytes(frames[1..])
  {
  }

  lemma OneWriterChanges(c: Conn, d: Conn, i: nat)
    requires i < |c.writers| == |d.writers| && d.writers == c.writers[i := d.writers[i]]
    ensures Total(d.writers, Outstanding)
            == Total(c.writers, Outstanding) - Outstanding(c.writers[i]) + Outstanding(d.writers[i])
    ensures Total(d.writers, Cleared) == Total(c.writers, Cleared) - Cleared(c.writers[i]) + Cleared(d.writers[i])
    ensures Total(c.writers, Cleared) <= Total(c.writers, Outstanding)
  {
    TotalUpdate(c.writers, i, d.writers[i], Outstanding);
    TotalUpdate(c.writers, i, d.writers[i], Cleared);
    ClearedIsOutstanding(c.writers);
  }

  lemma {:induction false} ClearedIsOutstanding(writers: seq<Writer>)
    ensures Total(writers, Cleared) <= Total(writers, Outstanding)
    decreases |writers|
  {
    if writers != [] { ClearedIsOutstanding(writers[1..]); }
  }

  /** The steps of trySendEnvelope: a reservation is either turned into a queued frame or given back. */
  lemma SendingKeepsBudget(c: Conn, a: Action)
    requires Budget(c) && Enabled(c, a) && (a.DoReserve? || a.DoSelect? || a.DoRefund?)
    ensures Budget(Perform(c, a))
  {
    hide FrameBytes, Total;
    var d := Perform(c, a);
    OneWriterChanges(c, d, a.writer);
    if a.DoSelect? { FrameBytesSnoc(c.send, c.writers[a.writer].sending.frame); }
  }

  lemma PumpKeepsBudget(c: Conn, a: Action)
    requires Budget(c) && Enabled(c, a) && (a.DoTake? || a.DoRelease? || a.DoWrite?)
    ensures Budget(Perform(c, a))
  {
    hide FrameBytes, Total;
    if a.DoTake? { FrameBytesHead(c.send); }
  }

  lemma OthersKeepBudget(c: Conn, a: Action)
    requires Budget(c) && Enabled(c, a) && !a.DoReserve? && !a.DoSelect? && !a.DoRefund?
    requires !a.DoTake? && !a.DoRelease? && !a.DoWrite?
    ensures Budget(Perform(c, a))
  {
    hide FrameBytes, Total;
    var d := Perform(c, a);
    if a.DoSubscribe? {
      TotalSnoc(c.writers, d.writers[|c.writers|], Outstanding);
      TotalSnoc(c.writers, d.writers[|c.writers|], Cleared);
    } else if a.DoForward? || a.DoForwardEnd? {
      OneWriterChanges(c, d, a.writer);
    } else if a.DoReply? || a.DoAck? || a.DoReplyEnd? {
      OneWriterChanges(c, d, 0);
    } else if a.DoSpawn? {
      OneWriterChanges(c, d, c.reader.writer);
    }
  }

  lemma StepKeepsBudget(c: Conn, a: Action)
    requires Budget(c) && Enabled(c, a)
    ensures Budget(Perform(c, a))
  {
    hide Budget, Enabled, Perform;
    if a.DoReserve? || a.DoSelect? || a.DoRefund? { SendingKeepsBudget(c, a); }
    else if a.DoTake? || a.DoRelease? || a.DoWrite? { PumpKeepsBudget(c, a); }
    else { OthersKeepBudget(c, a); }
  }

  // ---- The order of frames ----

  function InPump(p: Pump): seq<Frame> {
    match p case Taken(f) => [f] case Writing(f) => [f] case _ => []
  }

  /** The socket has the frames in the order in which they were admitted; until a write fails, none is
      missing. */
  ghost predicate InOrder(c: Conn) {
    if c.pump.Stopped? then c.wire <= c.admitted else c.wire + InPump(c.pump) + c.send == c.admitted
  }

  lemma StepKeepsOrder(c: Conn, a: Action)
    requires InOrder(c) && Enabled(c, a)
    ensures InOrder(Perform(c, a)) && c.admitted <= Perform(c, a).admitted
  {
    if a.DoTake? || a.DoRelease? || a.DoWrite? {
      PumpKeepsOrder(c, a);
    } else if a.DoSelect? {
      SelectKeepsOrder(c, a);
    } else {
      OthersMoveNoFrame(c, a);
    }
  }

  lemma PumpKeepsOrder(c: Conn, a: Action)
    requires InOrder(c) && Enabled(c, a) && (a.DoTake? || a.DoRelease? || a.DoWrite?)
    ensures InOrder(Perform(c, a)) && c.admitted == Perform(c, a).admitted
  {
    if a.DoTake? { assert c.send == [c.send[0]] + c.send[1..]; }
  }

  lemma SelectKeepsOrder(c: Conn, a: Action)
    requires InOrder(c) && Enabled(c, a) && a.DoSelect?
    ensures InOrder(Perform(c, a)) && c.admitted <= Perform(c, a).admitted
  {
    var d := Perform(c, a);
    assert d.pump == c.pump && d.wire == c.wire;
    if d.admitted != c.admitted && !c.pump.Stopped? {
      var f := c.writers[a.writer].sending.frame;
      assert c.wire + InPump(c.pump) + (c.send + [f]) == c.wire + InPump(c.pump) + c.send + [f];
    }
  }

  lemma OthersMoveNoFrame(c: Conn, a: Action)
    requires Enabled(c, a) && !a.DoTake? && !a.DoRelease? && !a.DoWrite? && !a.DoSelect?
    ensures var d := Perform(c, a);
            d.wire == c.wire && d.pump == c.pump && d.send == c.send && d.admitted == c.admitted
  {
  }

  // ---- The workspace fence ----

  /** The workspace the client knows of: the last one acknowledged, or the one it started in. */
  function Fence(start: string, frames: seq<Frame>): string {
    if frames == [] then start
    else
      var last := frames[|frames| - 1];
      if last.ack then last.workspace else Fence(start, frames[..|frames| - 1])
  }

  ghost predicate Fenced(start: string, frames: seq<Frame>) {
    forall k | 0 <= k < |frames| && !frames[k].ack :: frames[k].workspace == Fence(start, frames[..k])
  }

  predicate InFlight(w: Writer) { w.sending.Opened? || w.sending.Reserved? || w.sending.Refunding? }

  ghost predicate ForwarderOk(c: Conn, i: nat)
    requires 0 < i < |c.writers|
  {
    var w := c.writers[i];
    && (w.locked <==> !w.sending.Quiet?)
    && (w.locked ==> w.live && Current(c, i))
    && (w.live && Current(c, i) ==> w.workspace == Fence(c.start, c.admitted))
    && (InFlight(w) ==> w.sending.frame.workspace == w.workspace && !w.sending.frame.ack)
  }

  ghost predicate NobodyCurrent(c: Conn) {
    forall i | 0 < i < |c.writers| :: c.writers[i].live ==> !Current(c, i)
  }

  ghost predicate Acknowledged(c: Conn) { c.workspace == Fence(c.start, c.admitted) }

  ghost predicate ReaderOk(c: Conn)
    requires |c.writers| > 0
  {
    var w := c.writers[0];
    && !w.locked
    && (w.sending.Quiet? <==> !c.reader.Replying? && !c.reader.Acking?)
    && (InFlight(w) ==> w.sending.frame.workspace == c.workspace && w.sending.frame.ack == c.reader.Acking?)
    && match c.reader
       case Replying => if InFlight(w) then Acknowledged(c) else Acknowledged(c) || c.done
       case Acking => (w.sending.Sent? ==> Acknowledged(c)) && (InFlight(w) ==> Acknowledged(c) || NobodyCurrent(c))
       case Subscribing(i) =>
         && (Acknowledged(c) || c.done) && 0 < i < |c.writers|
         && !c.writers[i].live && c.writers[i].workspace == c.workspace
       case Serving => Acknowledged(c) || c.done
       case _ => NobodyCurrent(c)
  }

  ghost predicate FenceInv(c: Conn) {
    && Fenced(c.start, c.admitted)
    && |c.writers| > 0 && ReaderOk(c)
    && forall i | 0 < i < |c.writers| :: ForwarderOk(c, i)
  }

  lemma FenceSnoc(start: string, frames: seq<Frame>, f: Frame)
    ensures Fence(start, frames + [f]) == if f.ack then f.workspace else Fence(start, frames)
    ensures Fenced(start, frames) && (f.ack || f.workspace == Fence(start, frames)) ==> Fenced(start, frames + [f])
  {
    var more := frames + [f];
    assert more[..|more| - 1] == frames;
    assert forall k | 0 <= k < |frames| :: more[k] == frames[k] && more[..k] == frames[..k];
    assert more[..|frames|] == frames;
  }

  lemma ForwarderKeepsFence(c: Conn, a: Action)
    requires FenceInv(c) && Enabled(c, a) && (a.DoForward? || a.DoForwardEnd?)
    ensures FenceInv(Perform(c, a))
  {
    hide Fence, Fenced;
    var d := Perform(c, a);
    var i := a.writer;
    assert ForwarderOk(c, i);
    forall j | 0 < j < |d.writers| ensures ForwarderOk(d, j) {
      assert ForwarderOk(c, j);
    }
  }

  lemma SendingKeepsFence(c: Conn, a: Action)
    requires FenceInv(c) && Enabled(c, a) && (a.DoReserve? || a.DoRefund? || a.DoSelect?)
    requires Perform(c, a).admitted == c.admitted
    ensures FenceInv(Perform(c, a))
  {
    hide Fence, Fenced;
    var d := Perform(c, a);
    assert a.writer > 0 ==> ForwarderOk(c, a.writer);
    forall j | 0 < j < |d.writers| ensures ForwarderOk(d, j) {
      assert ForwarderOk(c, j);
    }
  }

  /** A frame is admitted: a forwarder's carries the workspace of a subscription that is still current,
      the read loop's the connection's own. */
  lemma SelectKeepsFence(c: Conn, a: Action)
    requires FenceInv(c) && Enabled(c, a) && a.DoSelect? && Perform(c, a).admitted != c.admitted
    ensures FenceInv(Perform(c, a))
  {
    hide Fence, Fenced;
    var d := Perform(c, a);
    var i := a.writer;
    var f := c.writers[i].sending.frame;
    assert d == With(c, i, Sent).(send := c.send + [f], admitted := c.admitted + [f]);
    FenceSnoc(c.start, c.admitted, f);
    if i > 0 {
      assert ForwarderOk(c, i);
      assert !f.ack && f.workspace == Fence(c.start, c.admitted);
    }
    forall j | 0 < j < |d.writers| ensures ForwarderOk(d, j) {
      assert ForwarderOk(c, j);
    }
  }

  lemma ReaderKeepsFence(c: Conn, a: Action)
    requires FenceInv(c) && Enabled(c, a) && (a.DoReply? || a.DoAck? || a.DoReplyEnd?)
    ensures FenceInv(Perform(c, a))
  {
    hide Fence, Fenced;
    var d := Perform(c, a);
    forall j | 0 < j < |d.writers| ensures ForwarderOk(d, j) {
      assert ForwarderOk(c, j);
    }
  }

  lemma SubscribingKeepsFence(c: Conn, a: Action)
    requires FenceInv(c) && Enabled(c, a) && (a.DoSubscribe? || a.DoSpawn? || a.DoUnsubscribe?)
    ensures FenceInv(Perform(c, a))
  {
    hide Fence, Fenced;
    var d := Perform(c, a);
    forall j | 0 < j < |d.writers| ensures ForwarderOk(d, j) {
      assert j < |c.writers| ==> ForwarderOk(c, j);
    }
  }

  lemma TableKeepsFence(c: Conn, a: Action)
    requires FenceInv(c) && Enabled(c, a) && (a.DoRevoke? || a.DoSwitch? || a.DoCloseTable? || a.DoCloseDone?)
    ensures FenceInv(Perform(c, a))
  {
    hide Fence, Fenced;
    var d := Perform(c, a);
    forall j | 0 < j < |d.writers| ensures ForwarderOk(d, j) {
      assert ForwarderOk(c, j);
    }
  }

  lemma PumpKeepsFence(c: Conn, a: Action)
    requires FenceInv(c) && Enabled(c, a) && (a.DoTake? || a.DoRelease? || a.DoWrite?)
    ensures FenceInv(Perform(c, a))
  {
    hide Fence, Fenced;
    var d := Perform(c, a);
    forall j | 0 < j < |d.writers| ensures ForwarderOk(d, j) {
      assert ForwarderOk(c, j);
    }
  }

  lemma OnlySelectAdmits(c: Conn, a: Action)
    requires Enabled(c, a)
    ensures a.DoSelect? || Perform(c, a).admitted == c.admitted
  {
  }

  lemma StepKeepsFence(c: Conn, a: Action)
    requires FenceInv(c) && Enabled(c, a)
    ensures FenceInv(Perform(c, a)) && Perform(c, a).start == c.start
  {
    assert Perform(c, a).start == c.start;
    hide FenceInv, Enabled, Perform;
    if a.DoSelect? && Perform(c, a).admitted != c.admitted { SelectKeepsFence(c, a); }
    else if a.DoReserve? || a.DoRefund? || a.DoSelect? {
      assert Perform(c, a).admitted == c.admitted by { OnlySelectAdmits(c, a); }
      SendingKeepsFence(c, a);
    }
    else if a.DoTake? || a.DoRelease? || a.DoWrite? { PumpKeepsFence(c, a); }
    else if a.DoForward? || a.DoForwardEnd? { ForwarderKeepsFence(c, a); }
    else if a.DoReply? || a.DoAck? || a.DoReplyEnd? { ReaderKeepsFence(c, a); }
    else if a.DoSubscribe? || a.DoSpawn? || a.DoUnsubscribe? { SubscribingKeepsFence(c, a); }
    else { TableKeepsFence(c, a); }
  }

  // ---- Whole runs ----

  lemma {:induction false} ReachKeeps(workspace: string, actions: seq<Action>)
    ensures var c := Reach(Initial(workspace), actions);
            Budget(c) && InOrder(c) && FenceInv(c) && c.start == workspace
  {
    if actions == [] {
      InitialHolds(workspace);
    } else {
      var init, a := actions[..|actions| - 1], actions[|actions| - 1];
      ReachKeeps(workspace, init);
      var c := Reach(Initial(workspace), init);
      hide Budget, InOrder, FenceInv, Enabled, Perform;
      if Enabled(c, a) {
        StepKeepsBudget(c, a);
        StepKeepsOrder(c, a);
        StepKeepsFence(c, a);
      }
    }
  }

  lemma OccursHolds(workspace: string, c: Conn)
    requires Occurs(workspace, c)
    ensures Budget(c) && InOrder(c) && FenceInv(c) && c.start == workspace
  {
    hide Budget, InOrder, FenceInv;
    var actions :| Reach(Initial(workspace), actions) == c;
    ReachKeeps(workspace, actions);
  }

  lemma InitialHolds(workspace: string)
    ensures Budget(Initial(workspace)) && InOrder(Initial(workspace)) && FenceInv(Initial(workspace))
  {
    NothingOutstanding([READ_LOOP]);
    ClearedIsOutstanding([READ_LOOP]);
  }

  /** Add-then-check is sound for any number of writers: the counter is the queued bytes, the frame
      that was dequeued and not yet released, and the reservations still open; what is admitted and not
      released never exceeds 16 MiB; and when no send is under way nothing of a refused one is left. */
  lemma BackpressureIsSound(workspace: string, c: Conn)
    requires Occurs(workspace, c)
    ensures c.queuedBytes == FrameBytes(c.send) + Unreleased(c.pump) + Total(c.writers, Outstanding)
            && FrameBytes(c.send) + Unreleased(c.pump) <= MAX_SUBSCRIPTION_BYTES && |c.send| <= SEND_CAPACITY
            && ((forall w <- c.writers :: !InFlight(w)) ==> c.queuedBytes == FrameBytes(c.send) + Unreleased(c.pump))
  {
    OccursHolds(workspace, c);
    if forall w <- c.writers :: !InFlight(w) { NothingOutstanding(c.writers); }
  }

  lemma {:induction false} NothingOutstanding(writers: seq<Writer>)
    requires forall w <- writers :: !InFlight(w)
    ensures Total(writers, Outstanding) == 0
    decreases |writers|
  {
    if writers != [] {
      assert writers[0] in writers;
      forall w <- writers[1..] ensures !InFlight(w) { assert w in writers; }
      NothingOutstanding(writers[1..]);
    }
  }

  /** The socket has the frames in the order in which they were admitted, and as long as no write has
      failed every admitted frame is written, in the pump's hand or queued. */
  lemma FramesKeepOrder(workspace: string, c: Conn)
    requires Occurs(workspace, c)
    ensures c.wire <= c.admitted
            && (!c.pump.Stopped? ==> c.admitted == c.wire + InPump(c.pump) + c.send)
  {
    OccursHolds(workspace, c);
    WireIsPrefix(c);
  }

  function Unsent(c: Conn): nat { FrameBytes(c.send) + FrameBytes(InPump(c.pump)) }

  /** The pump gives a frame's bytes back before it writes the frame. So what is still counted is all that is
      unsent exactly while no bytes are being written, and then it is within the cap; while a frame is being
      written, unsent bytes may reach twice the cap, and never more. */
  lemma UnsentBytes(workspace: string, c: Conn)
    requires Occurs(workspace, c)
    ensures FrameBytes(c.send) + Unreleased(c.pump) == Unsent(c) <==> !(c.pump.Writing? && c.pump.frame.size > 0)
    ensures !c.pump.Writing? ==> Unsent(c) <= MAX_SUBSCRIPTION_BYTES
    ensures Unsent(c) <= 2 * MAX_SUBSCRIPTION_BYTES
    ensures exists d :: Occurs(workspace, d) && Unsent(d) == 2 * MAX_SUBSCRIPTION_BYTES
  {
    OccursHolds(workspace, c);
    if c.pump.Taken? || c.pump.Writing? { FrameBytesHead(InPump(c.pump)); assert InPump(c.pump)[1..] == []; }
    var f := Frame(workspace, false, MAX_SUBSCRIPTION_BYTES);
    var once := SendOnce(workspace);
    var twice := SendTwice(workspace, once);
    FrameBytesHead([f]);
    assert [f][1..] == [];
    var d := Reach(Initial(workspace), twice);
    assert Occurs(workspace, d) && Unsent(d) == 2 * MAX_SUBSCRIPTION_BYTES;
  }

  lemma ReachSnoc(c: Conn, actions: seq<Action>, a: Action)
    ensures Reach(c, actions + [a]) == Step(Reach(c, actions), a)
  {
    assert (actions + [a])[..|actions + [a]| - 1] == actions;
  }

  /** A reply of the largest size that fits, from the closed check to the end of the send. */
  lemma SendLargest(workspace: string, before: seq<Action>) returns (after: seq<Action>)
    requires var c := Reach(Initial(workspace), before);
             && c.reader.Serving? && !c.done && c.send == [] && c.queuedBytes == 0
             && c.writers == [READ_LOOP] && c.workspace == workspace
    ensures var c := Reach(Initial(workspace), before);
            var f := Frame(workspace, false, MAX_SUBSCRIPTION_BYTES);
            Reach(Initial(workspace), after) == c.(queuedBytes := MAX_SUBSCRIPTION_BYTES, send := [f],
                                                   admitted := c.admitted + [f])
  {
    var a0, a1, a2, a3 := DoReply(MAX_SUBSCRIPTION_BYTES), DoReserve(0), DoSelect(0, false), DoReplyEnd;
    after := before + [a0] + [a1] + [a2] + [a3];
    ReachSnoc(Initial(workspace), before, a0);
    ReachSnoc(Initial(workspace), before + [a0], a1);
    ReachSnoc(Initial(workspace), before + [a0] + [a1], a2);
    ReachSnoc(Initial(workspace), before + [a0] + [a1] + [a2], a3);
    hide Reach;
    var c := Reach(Initial(workspace), before);
    var f := Frame(workspace, false, MAX_SUBSCRIPTION_BYTES);
    assert Step(c, a0) == c.(writers := [READ_LOOP.(sending := Opened(f))], reader := Replying);
    assert c.send + [f] == [f];
  }

  lemma SendOnce(workspace: string) returns (run: seq<Action>)
    ensures var c := Reach(Initial(workspace), run);
            var f := Frame(workspace, false, MAX_SUBSCRIPTION_BYTES);
            c == Initial(workspace).(pump := Writing(f), admitted := [f])
  {
    var sent := SendLargest(workspace, []);
    var f := Frame(workspace, false, MAX_SUBSCRIPTION_BYTES);
    assert [] + [f] == [f];
    ReachSnoc(Initial(workspace), sent, DoTake);
    ReachSnoc(Initial(workspace), sent + [DoTake], DoRelease);
    run := sent + [DoTake] + [DoRelease];
    hide Reach;
    var c := Reach(Initial(workspace), sent);
    assert c.send[1..] == [] && c.send[0] == f;
    assert Step(c, DoTake) == c.(send := [], pump := Taken(f));
  }

  lemma SendTwice(workspace: string, once: seq<Action>) returns (run: seq<Action>)
    requires var f := Frame(workspace, false, MAX_SUBSCRIPTION_BYTES);
             Reach(Initial(workspace), once) == Initial(workspace).(pump := Writing(f), admitted := [f])
    ensures var c := Reach(Initial(workspace), run);
            var f := Frame(workspace, false, MAX_SUBSCRIPTION_BYTES);
            c.pump == Writing(f) && c.send == [f]
  {
    run := SendLargest(workspace, once);
  }

  lemma {:induction false} FenceIsLastAck(start: string, frames: seq<Frame>, j: nat)
    requires j < |frames| && frames[j].ack && forall m | j < m < |frames| :: !frames[m].ack
    ensures Fence(start, frames) == frames[j].workspace
    decreases |frames|
  {
    if j < |frames| - 1 { FenceIsLastAck(start, frames[..|frames| - 1], j); }
  }

  lemma {:induction false} FenceIsStart(start: string, frames: seq<Frame>)
    requires forall m | 0 <= m < |frames| :: !frames[m].ack
    ensures Fence(start, frames) == start
    decreases |frames|
  {
    if frames != [] { FenceIsStart(start, frames[..|frames| - 1]); }
  }

  /** Frame k follows frame j with no acknowledgement in between; j is one, or the first frame. */
  predicate Follows(frames: seq<Frame>, j: nat, k: nat) {
    && j <= k < |frames| && !frames[k].ack && (forall m | j < m < k :: !frames[m].ack)
    && (frames[j].ack || j == 0)
  }

  lemma FencedAfter(start: string, frames: seq<Frame>, j: nat, k: nat)
    requires Fenced(start, frames) && Follows(frames, j, k)
    ensures frames[k].workspace == if frames[j].ack then frames[j].workspace else start
  {
    assert frames[k].workspace == Fence(start, frames[..k]);
    if frames[j].ack {
      FenceIsLastAck(start, frames[..k], j);
    } else {
      FenceIsStart(start, frames[..k]);
    }
  }

  lemma WireIsPrefix(c: Conn)
    requires InOrder(c)
    ensures c.wire <= c.admitted
  {
    if !c.pump.Stopped? { assert c.wire + InPump(c.pump) + c.send == c.wire + (InPump(c.pump) + c.send); }
  }

  /** On the wire, a frame after a workspace acknowledgement and before the next carries the workspace
      acknowledged, and a frame before the first carries the one the connection began in, whichever way
      forwarders, replies, switches and the close of the connection interleave. */
  lemma WireIsFenced(workspace: string, c: Conn, j: nat, k: nat)
    requires Occurs(workspace, c) && Follows(c.wire, j, k)
    ensures c.wire[k].workspace == if c.wire[j].ack then c.wire[j].workspace else workspace
  {
    OccursHolds(workspace, c);
    hide Occurs, Budget, InOrder, Fenced, ReaderOk, ForwarderOk;
    WireIsPrefix(c);
    assert Follows(c.admitted, j, k);
    FencedAfter(workspace, c.admitted, j, k);
  }
}
