/** What a connection gets done when nothing comes between the steps of one of its goroutines. */
module ConnectionProgress {
  import opened Subscriptions
  import opened ConnectionSpec

  lemma Unfold(c: Conn, a: Action, rest: seq<Action>)
    ensures Reach(c, [a] + rest) == Reach(Step(c, a), rest)
    decreases |rest|
  {
    hide Step;
    if rest == [] {
      assert [a] + rest == [a] && [a][..0] == [];
    } else {
      assert ([a] + rest)[..|rest|] == [a] + rest[..|rest| - 1];
      Unfold(c, a, rest[..|rest| - 1]);
    }
  }

  /** The connection with a reservation of these bytes, while one writer is at this point of its send. */
  function Sends(c: Conn, i: nat, w: Writer, bytes: int): Conn
    requires i < |c.writers|
  {
    c.(writers := c.writers[i := w], queuedBytes := c.queuedBytes + bytes)
  }

  /** A send past the closed check: queued and counted when there is room for it, refused without a trace when
      there is none. */
  lemma SendPass(c: Conn, i: nat, w: Writer, frame: Frame)
    requires i < |c.writers| && w.sending.Quiet?
    ensures var t := Step(Step(Step(Sends(c, i, w.(sending := Opened(frame)), 0), DoReserve(i)), DoSelect(i, false)),
                          DoRefund(i));
            if c.queuedBytes + frame.size <= 16 * 1024 * 1024 && |c.send| < 128 then
              t == Sends(c, i, w.(sending := Sent), frame.size)
                   .(send := c.send + [frame], admitted := c.admitted + [frame])
            else t == Sends(c, i, w.(sending := Refused), 0)
  {
    var c0 := Sends(c, i, w.(sending := Opened(frame)), 0);
    var fits := c.queuedBytes + frame.size <= MAX_SUBSCRIPTION_BYTES;
    var c1 := Sends(c, i, w.(sending := if fits then Reserved(frame) else Refunding(frame)), frame.size);
    ReserveStep(c, i, w, frame);
    hide Step;
    if !fits {
      RefundStep(c, i, w, frame);
    } else if |c.send| >= SEND_CAPACITY {
      FullStep(c, i, w, frame);
      RefundStep(c, i, w, frame);
    } else {
      QueueStep(c, i, w, frame);
    }
  }

  lemma ReserveStep(c: Conn, i: nat, w: Writer, frame: Frame)
    requires i < |c.writers|
    ensures var fits := c.queuedBytes + frame.size <= MAX_SUBSCRIPTION_BYTES;
            Step(Sends(c, i, w.(sending := Opened(frame)), 0), DoReserve(i)) ==
            Sends(c, i, w.(sending := if fits then Reserved(frame) else Refunding(frame)), frame.size)
  {
  }

  lemma RefundStep(c: Conn, i: nat, w: Writer, frame: Frame)
    requires i < |c.writers|
    ensures var d := Sends(c, i, w.(sending := Refunding(frame)), frame.size);
            Step(d, DoSelect(i, false)) == d && Step(d, DoRefund(i)) == Sends(c, i, w.(sending := Refused), 0)
  {
  }

  lemma FullStep(c: Conn, i: nat, w: Writer, frame: Frame)
    requires i < |c.writers| && |c.send| >= SEND_CAPACITY
    ensures Step(Sends(c, i, w.(sending := Reserved(frame)), frame.size), DoSelect(i, false)) ==
            Sends(c, i, w.(sending := Refunding(frame)), frame.size)
  {
  }

  lemma QueueStep(c: Conn, i: nat, w: Writer, frame: Frame)
    requires i < |c.writers| && |c.send| < SEND_CAPACITY
    ensures var d := Sends(c, i, w.(sending := Sent), frame.size)
                     .(send := c.send + [frame], admitted := c.admitted + [frame]);
            && Step(Sends(c, i, w.(sending := Reserved(frame)), frame.size), DoSelect(i, false)) == d
            && Step(d, DoRefund(i)) == d
  {
  }

  /** One pass of a forwarder that nothing comes between. An update for a subscription that is still current
      goes out under its workspace while the connection is open and has room, and the forwarder goes on; if not,
      the forwarder stops and nothing is left of the update. For a subscription that is not current nothing is
      sent. */
  lemma UpdateGoesOut(c: Conn, i: nat, size: nat)
    requires Enabled(c, DoForward(i, size))
    ensures var w := c.writers[i];
            var frame := Frame(w.workspace, false, size);
            var t := Reach(c, [DoForward(i, size), DoReserve(i), DoSelect(i, false), DoRefund(i), DoForwardEnd(i)]);
            if w.session !in c.subs || c.subs[w.session] != i then t == c
            else if !c.done && c.queuedBytes + size <= 16 * 1024 * 1024 && |c.send| < 128 then
              t == c.(queuedBytes := c.queuedBytes + size, send := c.send + [frame], admitted := c.admitted + [frame])
            else t == c.(writers := c.writers[i := w.(live := false)])
  {
    FiveSteps(c, DoForward(i, size), DoReserve(i), DoSelect(i, false), DoRefund(i), DoForwardEnd(i));
    assert i < |c.writers| && c.writers[i].sending.Quiet? && c.writers[i].live && !c.writers[i].locked && i > 0;
    hide Reach, Step, Enabled;
    var w := c.writers[i];
    var frame := Frame(w.workspace, false, size);
    if !Current(c, i) {
      SilentPass(c, i, size);
    } else if c.done {
      ClosedPass(c, i, size);
    } else {
      OpenedPass(c, i, size);
      SendPass(c, i, w.(locked := true), frame);
      hide Sends;
      EndPass(c, i, w, frame);
    }
  }

  lemma FiveSteps(c: Conn, a: Action, b: Action, d: Action, e: Action, f: Action)
    ensures Reach(c, [a, b, d, e, f]) == Step(Step(Step(Step(Step(c, a), b), d), e), f)
  {
    hide Step;
    assert [a, b, d, e, f] == [a] + ([b] + ([d] + ([e] + [f])));
    Unfold(c, a, [b] + ([d] + ([e] + [f])));
    var c1 := Step(c, a);
    Unfold(c1, b, [d] + ([e] + [f]));
    Unfold(Step(c1, b), d, [e] + [f]);
    Unfold(Step(Step(c1, b), d), e, [f]);
    Unfold(Step(Step(Step(c1, b), d), e), f, []);
    assert [f] + [] == [f];
  }

  lemma SilentPass(c: Conn, i: nat, size: nat)
    requires Enabled(c, DoForward(i, size)) && !Current(c, i)
    ensures Step(c, DoForward(i, size)) == c && Step(c, DoReserve(i)) == c && Step(c, DoSelect(i, false)) == c
    ensures Step(c, DoRefund(i)) == c && Step(c, DoForwardEnd(i)) == c
  {
  }

  lemma ClosedPass(c: Conn, i: nat, size: nat)
    requires Enabled(c, DoForward(i, size)) && Current(c, i) && c.done
    ensures var d := c.(writers := c.writers[i := c.writers[i].(locked := true, sending := Refused)]);
            && Step(c, DoForward(i, size)) == d && Step(d, DoReserve(i)) == d && Step(d, DoSelect(i, false)) == d
            && Step(d, DoRefund(i)) == d
            && Step(d, DoForwardEnd(i)) == c.(writers := c.writers[i := c.writers[i].(live := false)])
  {
  }

  lemma OpenedPass(c: Conn, i: nat, size: nat)
    requires Enabled(c, DoForward(i, size)) && Current(c, i) && !c.done
    ensures var w := c.writers[i];
            Step(c, DoForward(i, size)) ==
            Sends(c, i, w.(locked := true, sending := Opened(Frame(w.workspace, false, size))), 0)
  {
  }

  lemma EndPass(c: Conn, i: nat, w: Writer, frame: Frame)
    requires 0 < i < |c.writers| && w == c.writers[i] && w.sending.Quiet? && w.live && !w.locked
    ensures Step(Sends(c, i, w.(locked := true, sending := Sent), frame.size)
                 .(send := c.send + [frame], admitted := c.admitted + [frame]), DoForwardEnd(i)) ==
            c.(queuedBytes := c.queuedBytes + frame.size, send := c.send + [frame], admitted := c.admitted + [frame])
    ensures Step(Sends(c, i, w.(locked := true, sending := Refused), 0), DoForwardEnd(i)) ==
            c.(writers := c.writers[i := w.(live := false)])
  {
    assert c.writers[i := w] == c.writers;
  }

  /** What the pump does next, wherever it stands. */
  lemma PumpStep(c: Conn)
    ensures c.pump.Free? && c.send != [] ==> Step(c, DoTake) == c.(send := c.send[1..], pump := Taken(c.send[0]))
    ensures c.pump.Taken? ==>
              Step(c, DoRelease) == c.(queuedBytes := c.queuedBytes - c.pump.frame.size, pump := Writing(c.pump.frame))
    ensures c.pump.Writing? ==> forall ok ::
              Step(c, DoWrite(ok)) ==
              if ok then c.(wire := c.wire + [c.pump.frame], pump := Free) else c.(pump := Stopped)
  {
  }

  /** One pass of the write pump: the oldest frame leaves the queue and its bytes the counter, and it reaches the
      socket, or the pump stops. */
  lemma FrameReachesTheSocket(c: Conn, ok: bool)
    requires c.pump.Free? && c.send != []
    ensures var t := Reach(c, [DoTake, DoRelease, DoWrite(ok)]);
            t == c.(send := c.send[1..], queuedBytes := c.queuedBytes - c.send[0].size,
                    wire := if ok then c.wire + [c.send[0]] else c.wire, pump := if ok then Free else Stopped)
  {
    var a, b, d := DoTake, DoRelease, DoWrite(ok);
    assert [a, b, d] == [a] + ([b] + [d]) && [d] == [d] + [];
    Unfold(c, a, [b] + [d]);
    Unfold(Step(c, a), b, [d]);
    Unfold(Step(Step(c, a), b), d, []);
    hide Reach;
    var c1 := c.(send := c.send[1..], pump := Taken(c.send[0]));
    PumpStep(c);
    PumpStep(c1);
    PumpStep(c1.(queuedBytes := c.queuedBytes - c.send[0].size, pump := Writing(c.send[0])));
    hide Step;
  }

  /** A subscription that is made while the read loop serves becomes the session's current one, under the
      connection's workspace, and is forwarded unless the connection is closed. */
  lemma SubscriptionStarts(c: Conn, session: string)
    requires Enabled(c, DoSubscribe(session))
    ensures var t := Reach(c, [DoSubscribe(session), DoSpawn]);
            && t == c.(writers := c.writers + [Writer(c.workspace, session, !c.done, false, Quiet)],
                       subs := c.subs[session := |c.writers|], reader := Serving)
            && Current(t, |c.writers|)
  {
    var a, b := DoSubscribe(session), DoSpawn;
    assert [a, b] == [a] + [b] && [b] == [b] + [];
    Unfold(c, a, [b]);
    Unfold(Step(c, a), b, []);
    var n := |c.writers|;
    var w := Writer(c.workspace, session, false, false, Quiet);
    var c1 := c.(writers := c.writers + [w], subs := c.subs[session := n], reader := Subscribing(n));
    assert Step(c, a) == c1;
    assert (c.writers + [w])[n := w.(live := !c.done)] == c.writers + [w.(live := !c.done)];
  }
}
