/** The connection as the object it is: pkg/engine/conn.go. Each method is one access to what its
    goroutines share, and is proved equal to its step of the state machine; `writers`, `reader` and
    `pump` are the program counters of those goroutines. A method called where its step may be taken
    leads from a connection that occurs in some run to one that does, so what is proved of all such
    connections holds of the object. */
module Connections {
  import opened Subscriptions
  import C = ConnectionSpec

  class Conn {
    const start: string
    var workspace: string
    var queuedBytes: int
    var send: seq<C.Frame>
    var closing: bool
    var done: bool
    var subs: map<string, nat>
    ghost var writers: seq<C.Writer>
    ghost var reader: C.Reader
    ghost var pump: C.Pump
    ghost var admitted: seq<C.Frame>
    ghost var wire: seq<C.Frame>

    ghost function View(): C.Conn reads this {
      C.Conn(start, workspace, queuedBytes, send, closing, done, subs, writers, reader, pump, admitted, wire)
    }

    ghost predicate Occurring() reads this { C.Occurs(start, View()) }

    /** Nobody's subscription is in the table any more. */
    ghost predicate NobodyCurrent() reads this {
      forall i: nat | i < |writers| :: !C.Current(View(), i)
    }

    constructor (workspace: string)
      ensures View() == C.Initial(workspace) && start == workspace && Occurring()
    {
      start, this.workspace := workspace, workspace;
      queuedBytes, send, closing, done, subs := 0, [], false, false, map[];
      writers, reader, pump, admitted, wire := [C.READ_LOOP], C.Serving, C.Free, [], [];
      new;
      assert View() == C.Initial(workspace);
      C.StartOccurs(workspace);
    }

    // ---- trySendEnvelope ----

    /** The closed check. */
    method OpenSend(ghost i: nat, ghost frame: C.Frame) returns (ok: bool)
      requires i < |writers|
      modifies `writers
      ensures View() == C.Open(old(View()), i, frame) && ok == !done
    {
      ok := !done;
      writers := writers[i := writers[i].(sending := if done then C.Refused else C.Opened(frame))];
    }

    method AddBytes(ghost i: nat, frame: C.Frame) returns (ok: bool)
      requires i < |writers| && writers[i].sending == C.Opened(frame)
      modifies `queuedBytes, `writers
      ensures View() == C.Reserve(old(View()), i)
      ensures writers[i].sending == if ok then C.Reserved(frame) else C.Refunding(frame)
      ensures old(Occurring()) ==> Occurring()
    {
      hide C.Occurs;
      if Occurring() { C.PerformOccurs(start, View(), C.DoReserve(i), C.Reserve(View(), i)); }
      queuedBytes := queuedBytes + frame.size;
      ok := queuedBytes <= MAX_SUBSCRIPTION_BYTES;
      writers := writers[i := writers[i].(sending := if ok then C.Reserved(frame) else C.Refunding(frame))];
    }

    method SelectSend(ghost i: nat, frame: C.Frame, pickDone: bool) returns (ok: bool)
      requires i < |writers| && writers[i].sending == C.Reserved(frame)
      modifies `send, `admitted, `writers
      ensures View() == C.Select(old(View()), i, pickDone)
      ensures writers[i].sending == if ok then C.Sent else C.Refunding(frame)
      ensures old(Occurring()) ==> Occurring()
    {
      hide C.Occurs;
      if Occurring() { C.PerformOccurs(start, View(), C.DoSelect(i, pickDone), C.Select(View(), i, pickDone)); }
      ok := !(done && pickDone) && |send| < C.SEND_CAPACITY;
      if ok {
        send := send + [frame];
        admitted := admitted + [frame];
      }
      writers := writers[i := writers[i].(sending := if ok then C.Sent else C.Refunding(frame))];
    }

    method RefundBytes(ghost i: nat, frame: C.Frame)
      requires i < |writers| && writers[i].sending == C.Refunding(frame)
      modifies `queuedBytes, `writers
      ensures View() == C.Refund(old(View()), i)
      ensures old(Occurring()) ==> Occurring()
    {
      hide C.Occurs;
      if Occurring() { C.PerformOccurs(start, View(), C.DoRefund(i), C.Refund(View(), i)); }
      queuedBytes := queuedBytes - frame.size;
      writers := writers[i := writers[i].(sending := C.Refused)];
    }

    /** The rest of a send past the closed check, when nothing comes between its steps: the frame is queued
        and its bytes are counted, or nothing is left of it. */
    method CompleteSend(ghost i: nat, frame: C.Frame, pickDone: bool) returns (ok: bool)
      requires i < |writers| && writers[i].sending == C.Opened(frame)
      modifies `queuedBytes, `send, `admitted, `writers
      ensures writers == old(writers)[i := old(writers[i]).(sending := if ok then C.Sent else C.Refused)]
      ensures ok ==> send == old(send) + [frame] && admitted == old(admitted) + [frame]
                     && queuedBytes == old(queuedBytes) + frame.size <= MAX_SUBSCRIPTION_BYTES
      ensures !ok ==> send == old(send) && admitted == old(admitted) && queuedBytes == old(queuedBytes)
      ensures ok <==> old(queuedBytes) + frame.size <= MAX_SUBSCRIPTION_BYTES && |old(send)| < C.SEND_CAPACITY
                      && !(done && pickDone)
      ensures old(Occurring()) ==> Occurring()
    {
      hide C.Occurs;
      ok := AddBytes(i, frame);
      if ok { ok := SelectSend(i, frame, pickDone); }
      if !ok { RefundBytes(i, frame); }
    }

    /** A whole undisturbed send. */
    method TrySendEnvelope(ghost i: nat, frame: C.Frame, pickDone: bool) returns (ok: bool)
      requires i < |writers| && writers[i].sending.Quiet?
      modifies `queuedBytes, `send, `admitted, `writers
      ensures writers == old(writers)[i := old(writers[i]).(sending := if ok then C.Sent else C.Refused)]
      ensures ok ==> send == old(send) + [frame] && admitted == old(admitted) + [frame]
                     && queuedBytes == old(queuedBytes) + frame.size <= MAX_SUBSCRIPTION_BYTES
      ensures !ok ==> send == old(send) && admitted == old(admitted) && queuedBytes == old(queuedBytes)
      ensures ok <==> !done && old(queuedBytes) + frame.size <= MAX_SUBSCRIPTION_BYTES && |old(send)| < C.SEND_CAPACITY
    {
      hide C.Occurs;
      ok := OpenSend(i, frame);
      if ok { ok := CompleteSend(i, frame, pickDone); }
    }

    // ---- The write pump ----

    method TakeFrame() returns (frame: C.Frame)
      requires pump.Free? && send != []
      modifies `send, `pump
      ensures View() == C.Take(old(View())) && pump == C.Taken(frame)
      ensures old(Occurring()) ==> Occurring()
    {
      hide C.Occurs;
      if Occurring() { C.PerformOccurs(start, View(), C.DoTake, C.Take(View())); }
      frame := send[0];
      send := send[1..];
      pump := C.Taken(frame);
    }

    method ReleaseBytes(frame: C.Frame)
      requires pump == C.Taken(frame)
      modifies `queuedBytes, `pump
      ensures View() == C.Release(old(View()))
      ensures old(Occurring()) ==> Occurring()
    {
      hide C.Occurs;
      if Occurring() { C.PerformOccurs(start, View(), C.DoRelease, C.Release(View())); }
      queuedBytes := queuedBytes - frame.size;
      pump := C.Writing(frame);
    }

    method WriteFrame(ghost frame: C.Frame, ok: bool)
      requires pump == C.Writing(frame)
      modifies `wire, `pump
      ensures View() == C.Write(old(View()), ok)
      ensures old(Occurring()) ==> Occurring()
    {
      hide C.Occurs;
      if Occurring() { C.PerformOccurs(start, View(), C.DoWrite(ok), C.Write(View(), ok)); }
      if ok {
        wire := wire + [frame];
        pump := C.Free;
      } else {
        pump := C.Stopped;
      }
    }

    // ---- The subscription table, under its lock ----

    /** One pass of a forwarder under the read lock: the update goes out only while the table still
        names this very subscription. */
    method ForwardUpdate(i: nat, session: string, size: nat) returns (ok: bool)
      requires i < |writers| && writers[i].session == session
      modifies `writers
      ensures View() == C.Forward(old(View()), i, size)
      ensures ok <==> !done || !C.Current(old(View()), i)
      ensures old(Occurring() && C.Enabled(View(), C.DoForward(i, size))) ==> Occurring()
    {
      hide C.Occurs;
      if Occurring() && C.Enabled(View(), C.DoForward(i, size)) {
        C.PerformOccurs(start, View(), C.DoForward(i, size), C.Forward(View(), i, size));
      }
      ok := true;
      if session in subs && subs[session] == i {
        ghost var frame := C.Frame(writers[i].workspace, false, size);
        writers := writers[i := writers[i].(locked := true)];
        ok := OpenSend(i, frame);
      }
    }

    method RecordSubscription(session: string, id: nat)
      requires id == |writers|
      modifies `subs, `writers, `reader
      ensures View() == C.Subscribe(old(View()), session)
      ensures old(Occurring() && C.Enabled(View(), C.DoSubscribe(session))) ==> Occurring()
    {
      hide C.Occurs;
      if Occurring() && C.Enabled(View(), C.DoSubscribe(session)) {
        C.PerformOccurs(start, View(), C.DoSubscribe(session), C.Subscribe(View(), session));
      }
      writers := writers + [C.Writer(workspace, session, false, false, C.Quiet)];
      subs := subs[session := id];
      reader := C.Subscribing(id);
    }

    method StartForwarder(ghost id: nat) returns (started: bool)
      requires reader == C.Subscribing(id) && id < |writers|
      modifies `writers, `reader
      ensures View() == C.Spawn(old(View())) && started == !done
      ensures old(Occurring()) ==> Occurring()
    {
      hide C.Occurs;
      if Occurring() { C.PerformOccurs(start, View(), C.DoSpawn, C.Spawn(View())); }
      started := !done;
      writers := writers[id := writers[id].(live := started)];
      reader := C.Serving;
    }

    /** The first half of a switch: no forwarder sends for an old subscription from here on. */
    method RevokeAll(ghost target: string)
      requires reader.Serving?
      modifies `subs, `reader
      ensures View() == old(View()).(subs := map[], reader := C.Revoked(target))
      ensures NobodyCurrent()
      ensures old(Occurring() && C.Unlocked(View())) ==> Occurring()
    {
      hide C.Occurs;
      if Occurring() && C.Unlocked(View()) {
        C.PerformOccurs(start, View(), C.DoRevoke(target), View().(subs := map[], reader := C.Revoked(target)));
      }
      subs := map[];
      reader := C.Revoked(target);
    }

    /** The second half, while still nobody sends. */
    method SetWorkspace(target: string)
      requires reader == C.Revoked(target)
      modifies `workspace, `reader
      ensures View() == old(View()).(workspace := target, reader := C.Switched)
      ensures old(NobodyCurrent()) ==> NobodyCurrent()
      ensures old(Occurring()) ==> Occurring()
    {
      hide C.Occurs;
      if Occurring() {
        C.PerformOccurs(start, View(), C.DoSwitch, View().(workspace := target, reader := C.Switched));
      }
      workspace := target;
      reader := C.Switched;
      assert forall i: nat | i < |writers| :: C.Current(View(), i) == old(C.Current(View(), i));
    }

    /** The read loop begins to send: an acknowledgement, or any other reply. */
    method BeginSend(ack: bool, size: nat) returns (ok: bool, frame: C.Frame)
      requires |writers| > 0 && writers[0].sending.Quiet? && (reader.Serving? || (ack && reader.Switched?))
      modifies `writers, `reader
      ensures frame == C.Frame(workspace, ack, size) && ok == !done
      ensures View() == C.Open(old(View()), 0, frame).(reader := if ack then C.Acking else C.Replying)
      ensures old(Occurring()) ==> Occurring()
    {
      hide C.Occurs;
      frame := C.Frame(workspace, ack, size);
      if Occurring() {
        C.PerformOccurs(start, View(), if ack then C.DoAck(size) else C.DoReply(size),
                        C.Open(View(), 0, frame).(reader := if ack then C.Acking else C.Replying));
      }
      ok := OpenSend(0, frame);
      reader := if ack then C.Acking else C.Replying;
    }

    /** handleWorkspaceSet up to the acknowledgement: revoke, switch, acknowledge, in that order. A blank
        target acknowledges the workspace that is already set, one that cannot be resolved is answered with
        an error and changes nothing. */
    method HandleWorkspaceSet(target: string, resolved: bool, size: nat, pickDone: bool) returns (ok: bool)
      requires |writers| > 0 && writers[0].sending.Quiet? && reader.Serving?
      modifies this
      ensures target != "" && resolved ==> subs == map[] && workspace == target && NobodyCurrent()
      ensures target == "" || !resolved ==> subs == old(subs) && workspace == old(workspace)
      ensures ok ==> send == old(send) + [C.Frame(workspace, target == "" || resolved, size)]
      ensures !ok ==> send == old(send) && queuedBytes == old(queuedBytes)
      ensures done == old(done)
      ensures writers == old(writers)[0 := old(writers[0]).(sending := if ok then C.Sent else C.Refused)]
      ensures old(Occurring() && C.Unlocked(View())) ==> Occurring()
    {
      hide C.Occurs, C.Unlocked;
      if target != "" && resolved {
        RevokeAll(target);
        SetWorkspace(target);
      }
      var frame: C.Frame;
      ok, frame := BeginSend(target == "" || resolved, size);
      if ok { ok := CompleteSend(0, frame, pickDone); }
    }

    // ---- close ----

    method CloseTable()
      requires !closing
      modifies `closing, `subs
      ensures View() == old(View()).(closing := true, subs := map[])
      ensures NobodyCurrent()
      ensures old(Occurring() && C.Unlocked(View())) ==> Occurring()
    {
      hide C.Occurs;
      if Occurring() && C.Unlocked(View()) {
        C.PerformOccurs(start, View(), C.DoCloseTable, View().(closing := true, subs := map[]));
      }
      closing := true;
      subs := map[];
    }

    /** Every send that has not passed the closed check yet is refused from here on. */
    method CloseDone()
      requires closing
      modifies `done
      ensures View() == old(View()).(done := true)
      ensures forall i: nat, frame | i < |writers| :: C.Open(View(), i, frame).writers[i].sending == C.Refused
      ensures old(Occurring()) ==> Occurring()
    {
      hide C.Occurs;
      if Occurring() { C.PerformOccurs(start, View(), C.DoCloseDone, View().(done := true)); }
      done := true;
    }
  }
}
