/** One websocket connection as a state machine: pkg/engine/conn.go and the workspace switch of
    pkg/engine/handlers.go.

    Its goroutines are the read loop (writer 0), one forwarder for each subscription, and the write
    pump. A step is one access to something they share: the byte counter, the send channel, the `done`
    channel, the subscription table under its lock, or the socket. */
module ConnectionSpec {
  import opened Subscriptions

  const SEND_CAPACITY: nat := 128

  datatype Frame = Frame(workspace: string, ack: bool, size: nat)

  /** Where a goroutine stands in trySendEnvelope: past the closed check, past the budget check, about
      to give its reservation back, or returned. */
  datatype Sending = Quiet | Opened(frame: Frame) | Reserved(frame: Frame) | Refunding(frame: Frame) | Sent | Refused

  /** A goroutine that sends. A forwarder works for one subscription and may hold the read lock. */
  datatype Writer = Writer(workspace: string, session: string, live: bool, locked: bool, sending: Sending)

  datatype Reader = Serving | Replying | Subscribing(writer: nat) | Revoked(target: string) | Switched | Acking

  datatype Pump = Free | Taken(frame: Frame) | Writing(frame: Frame) | Stopped

  datatype Conn = Conn(start: string, workspace: string, queuedBytes: int, send: seq<Frame>, closing: bool, done: bool,
                       subs: map<string, nat>, writers: seq<Writer>, reader: Reader, pump: Pump,
                       admitted: seq<Frame>, wire: seq<Frame>)

  const READ_LOOP := Writer("", "", true, false, Quiet)

  function Initial(workspace: string): Conn {
    Conn(workspace, workspace, 0, [], false, false, map[], [READ_LOOP], Serving, Free, [], [])
  }

  // ---- trySendEnvelope ----

  function With(c: Conn, i: nat, sending: Sending): Conn
    requires i < |c.writers|
  {
    c.(writers := c.writers[i := c.writers[i].(sending := sending)])
  }

  function Open(c: Conn, i: nat, frame: Frame): Conn
    requires i < |c.writers|
  {
    With(c, i, if c.done then Refused else Opened(frame))
  }

  function Reserve(c: Conn, i: nat): Conn
    requires i < |c.writers| && c.writers[i].sending.Opened?
  {
    var frame := c.writers[i].sending.frame;
    var total := c.queuedBytes + frame.size;
    With(c, i, if total > MAX_SUBSCRIPTION_BYTES then Refunding(frame) else Reserved(frame)).(queuedBytes := total)
  }

  /** The select: any ready case may be taken, the default case only when none is. */
  function Select(c: Conn, i: nat, pickDone: bool): Conn
    requires i < |c.writers| && c.writers[i].sending.Reserved?
  {
    var frame := c.writers[i].sending.frame;
    if (c.done && pickDone) || |c.send| >= SEND_CAPACITY then With(c, i, Refunding(frame))
    else With(c, i, Sent).(send := c.send + [frame], admitted := c.admitted + [frame])
  }

  function Refund(c: Conn, i: nat): Conn
    requires i < |c.writers| && c.writers[i].sending.Refunding?
  {
    With(c, i, Refused).(queuedBytes := c.queuedBytes - c.writers[i].sending.frame.size)
  }

  // ---- The write pump ----

  function Take(c: Conn): Conn
    requires c.pump.Free? && c.send != []
  {
    c.(send := c.send[1..], pump := Taken(c.send[0]))
  }

  function Release(c: Conn): Conn
    requires c.pump.Taken?
  {
    c.(queuedBytes := c.queuedBytes - c.pump.frame.size, pump := Writing(c.pump.frame))
  }

  function Write(c: Conn, ok: bool): Conn
    requires c.pump.Writing?
  {
    if ok then c.(wire := c.wire + [c.pump.frame], pump := Free) else c.(pump := Stopped)
  }

  // ---- Forwarders and the subscription table ----

  predicate Unlocked(c: Conn) { forall i | 0 <= i < |c.writers| :: !c.writers[i].locked }

  predicate Current(c: Conn, i: nat)
    requires i < |c.writers|
  {
    c.writers[i].session in c.subs && c.subs[c.writers[i].session] == i
  }

  function Forward(c: Conn, i: nat, size: nat): Conn
    requires i < |c.writers|
  {
    var w := c.writers[i];
    if Current(c, i) then Open(c.(writers := c.writers[i := w.(locked := true)]), i, Frame(w.workspace, false, size))
    else c
  }

  function ForwardEnd(c: Conn, i: nat): Conn
    requires i < |c.writers|
  {
    var w := c.writers[i];
    c.(writers := c.writers[i := w.(locked := false, live := w.sending.Sent?, sending := Quiet)])
  }

  function Subscribe(c: Conn, session: string): Conn {
    c.(writers := c.writers + [Writer(c.workspace, session, false, false, Quiet)],
       subs := c.subs[session := |c.writers|], reader := Subscribing(|c.writers|))
  }

  function Spawn(c: Conn): Conn
    requires c.reader.Subscribing? && c.reader.writer < |c.writers|
  {
    var i := c.reader.writer;
    c.(writers := c.writers[i := c.writers[i].(live := !c.done)], reader := Serving)
  }

  // ---- Every step there is ----

  datatype Action =
    | DoReply(size: nat)
    | DoAck(size: nat)
    | DoForward(writer: nat, size: nat)
    | DoReserve(writer: nat)
    | DoSelect(writer: nat, pickDone: bool)
    | DoRefund(writer: nat)
    | DoForwardEnd(writer: nat)
    | DoReplyEnd
    | DoSubscribe(session: string)
    | DoSpawn
    | DoUnsubscribe(session: string)
    | DoRevoke(target: string)
    | DoSwitch
    | DoTake
    | DoRelease
    | DoWrite(ok: bool)
    | DoCloseTable
    | DoCloseDone

  predicate Enabled(c: Conn, a: Action) {
    match a
    case DoReply(_) => c.reader.Serving? && |c.writers| > 0 && c.writers[0].sending.Quiet?
    case DoAck(_) => (c.reader.Serving? || c.reader.Switched?) && |c.writers| > 0 && c.writers[0].sending.Quiet?
    case DoForward(i, _) =>
      0 < i < |c.writers| && c.writers[i].live && !c.writers[i].locked && c.writers[i].sending.Quiet?
    case DoReserve(i) => i < |c.writers| && c.writers[i].sending.Opened?
    case DoSelect(i, _) => i < |c.writers| && c.writers[i].sending.Reserved?
    case DoRefund(i) => i < |c.writers| && c.writers[i].sending.Refunding?
    case DoForwardEnd(i) => 0 < i < |c.writers| && (c.writers[i].sending.Sent? || c.writers[i].sending.Refused?)
    // A refused reply closes the connection, and close returns only once `done` is closed.
    case DoReplyEnd =>
      |c.writers| > 0 && (c.writers[0].sending.Sent? || (c.writers[0].sending.Refused? && c.done))
    case DoSubscribe(_) => c.reader.Serving? && Unlocked(c)
    case DoSpawn => c.reader.Subscribing? && c.reader.writer < |c.writers|
    case DoUnsubscribe(_) => c.reader.Serving? && Unlocked(c)
    case DoRevoke(_) => c.reader.Serving? && Unlocked(c)
    case DoSwitch => c.reader.Revoked?
    case DoTake => c.pump.Free? && c.send != []
    case DoRelease => c.pump.Taken?
    case DoWrite(_) => c.pump.Writing?
    case DoCloseTable => !c.closing && Unlocked(c)
    case DoCloseDone => c.closing
  }

  function Perform(c: Conn, a: Action): Conn
    requires Enabled(c, a)
  {
    match a
    case DoReply(size) => Open(c, 0, Frame(c.workspace, false, size)).(reader := Replying)
    case DoAck(size) => Open(c, 0, Frame(c.workspace, true, size)).(reader := Acking)
    case DoForward(i, size) => Forward(c, i, size)
    case DoReserve(i) => Reserve(c, i)
    case DoSelect(i, pickDone) => Select(c, i, pickDone)
    case DoRefund(i) => Refund(c, i)
    case DoForwardEnd(i) => ForwardEnd(c, i)
    case DoReplyEnd => With(c, 0, Quiet).(reader := Serving)
    case DoSubscribe(session) => Subscribe(c, session)
    case DoSpawn => Spawn(c)
    case DoUnsubscribe(session) => c.(subs := c.subs - {session})
    case DoRevoke(target) => c.(subs := map[], reader := Revoked(target))
    case DoSwitch => c.(workspace := c.reader.target, reader := Switched)
    case DoTake => Take(c)
    case DoRelease => Release(c)
    case DoWrite(ok) => Write(c, ok)
    case DoCloseTable => c.(closing := true, subs := map[])
    case DoCloseDone => c.(done := true)
  }

  function Step(c: Conn, a: Action): Conn { if Enabled(c, a) then Perform(c, a) else c }

  function Reach(c: Conn, actions: seq<Action>): Conn {
    if actions == [] then c else Step(Reach(c, actions[..|actions| - 1]), actions[|actions| - 1])
  }

  /** A connection that began in the workspace is in this state at some moment of some run. */
  ghost predicate Occurs(workspace: string, c: Conn) { exists actions :: Reach(Initial(workspace), actions) == c }

  lemma StartOccurs(workspace: string)
    ensures Occurs(workspace, Initial(workspace))
  {
    assert Reach(Initial(workspace), []) == Initial(workspace);
  }

  /** Whatever an enabled step makes of a state that occurs in a run occurs in a run. */
  lemma PerformOccurs(workspace: string, c: Conn, a: Action, d: Conn)
    requires Occurs(workspace, c) && Enabled(c, a) && Perform(c, a) == d
    ensures Occurs(workspace, d)
  {
    hide Perform, Enabled;
    var actions :| Reach(Initial(workspace), actions) == c;
    var more := actions + [a];
    assert more[..|more| - 1] == actions;
    assert Reach(Initial(workspace), more) == d;
  }
}
