/** The command client as the object it is: apps/electron/lib/engineClient.ts. Each method is one callback,
    or one coroutine's stretch between two awaits, and is proved equal to its step. Its fields are kept
    in three records, for the connection, the scope and the requests; `tasks` are the coroutines. A method
    called where its step may be taken leads from a client that some run reaches to one that some run
    reaches, so what is proved of all such clients holds of the object. */
module EngineClients {
  import opened Transcript
  import opened ClientSpec

  /** Only requests already made are pending or timed. */
  predicate Numbered(b: Book) {
    (forall id <- b.pending :: id <= b.sequence) && (forall id <- b.timers :: id <= b.sequence)
  }

  lemma NoneWoken(tasks: map<nat, Task>)
    ensures Woken(tasks, {}) == tasks
  {
  }

  /** The requests in `done` have been rejected. */
  function Clearing(b: Book, done: set<nat>): Book {
    b.(timers := b.timers - done, settled := b.settled + multiset(done))
  }

  lemma ClearOne(b: Book, done: set<nat>, id: nat)
    requires id !in done
    ensures Clearing(b, done + {id}) ==
            Clearing(b, done).(timers := Clearing(b, done).timers - {id},
                               settled := Clearing(b, done).settled + multiset{id})
  {
    assert multiset(done + {id}) == multiset(done) + multiset{id};
    assert b.settled + multiset(done + {id}) == b.settled + multiset(done) + multiset{id};
    assert b.timers - (done + {id}) == b.timers - done - {id};
  }

  lemma ClearEnds(b: Book)
    ensures Clearing(b, {}) == b && Clearing(b, b.pending.Keys).(pending := map[]) == Emptied(b)
  {
    assert b.timers - {} == b.timers && b.settled + multiset({}) == b.settled;
  }

  class EngineClient {
    var link: Link
    var scope: Scope
    var book: Book
    ghost var tasks: map<nat, Task>

    ghost function View(): Client reads this { Client(link, scope, book, tasks) }

    ghost predicate Occurring() reads this { Reachable(View()) }

    constructor ()
      ensures View() == INITIAL && Occurring()
    {
      link := Link(false, false, false, false, Absent, true, 0);
      scope := Scope(0, "", "", map[], map[]);
      book := Book(0, map[], {}, multiset{}, [], []);
      tasks := map[];
      new;
      assert View() == INITIAL;
      StartReachable();
    }

    // ---- Requests ----

    method ShutSocket()
      modifies `link
      ensures link == Shut(old(link))
    {
      if link.socket.Connecting? || link.socket.Open? { link := link.(socket := Closing); }
    }

    /** request: the promise it returns is pending, or already rejected. */
    method SendRequest(t: nat, kind: string, session: string, ghost stage: Stage, bootstrap: bool, sendOk: bool)
      requires Numbered(book) && t in tasks && bootstrap == tasks[t].job.SyncJob?
      modifies `link, `book, `tasks
      ensures View() == Issue(old(View()), t, kind, session, stage, sendOk)
    {
      if (!link.ready && !bootstrap) || !link.authed || !link.socket.Open? {
        tasks := tasks[t := tasks[t].(pc := Unwinding(Unsent))];
        return;
      }
      var id := book.sequence + 1;
      ghost var before := book;
      book := book.(sequence := id, pending := book.pending[id := Request(t, Expected(kind))],
                    timers := book.timers + {id});
      if sendOk {
        book := book.(sent := book.sent + [Sent(id, t, kind, session, link.generation, scope.version,
                                                scope.confirmed)]);
        tasks := tasks[t := tasks[t].(pc := Await(stage, id))];
      } else {
        book := book.(timers := book.timers - {id}, pending := book.pending - {id},
                      settled := book.settled + multiset{id});
        assert book.timers == before.timers && book.pending == before.pending;
        tasks := tasks[t := tasks[t].(pc := Ready(stage, Refused(Unsent)))];
        ShutSocket();
      }
    }

    /** A request is settled: its timer is cleared, it is no longer pending, its coroutine may go on. */
    method SettleRequest(id: nat, ghost result: Settled)
      requires id in book.pending
      modifies `book, `tasks
      ensures View() == Settle(old(View()), id, result)
    {
      ghost var t := book.pending[id].task;
      book := book.(timers := book.timers - {id}, pending := book.pending - {id},
                    settled := book.settled + multiset{id});
      if t in tasks && tasks[t].pc.Await? {
        tasks := tasks[t := tasks[t].(pc := Ready(tasks[t].pc.stage, result))];
      }
    }

    method RejectAll()
      modifies `book, `tasks
      ensures View() == RejectPending(old(View()))
    {
      hide Woken, Clearing, Emptied;
      ghost var before := View();
      ghost var done: set<nat> := {};
      var todo := book.pending.Keys;
      NoneWoken(tasks);
      ClearEnds(book);
      while todo != {}
        invariant todo <= before.book.pending.Keys && done == before.book.pending.Keys - todo
        invariant tasks == Woken(before.tasks, done) && book == Clearing(before.book, done)
        decreases todo
      {
        var id :| id in todo;
        ClearOne(before.book, done, id);
        book := book.(timers := book.timers - {id}, settled := book.settled + multiset{id});
        todo := todo - {id};
        done := done + {id};
        tasks := Woken(before.tasks, done);
      }
      assert done == before.book.pending.Keys;
      book := book.(pending := map[]);
    }

    // ---- The connection ----

    method CloseForGood()
      modifies `link, `book, `tasks
      ensures View() == CloseClient(old(View()))
      ensures old(Occurring() && Enabled(View(), DoClose)) ==> Occurring()
    {
      hide Emptied, Woken, Reachable, Enabled;
      if Occurring() && Enabled(View(), DoClose) {
        PerformReachable(View(), DoClose, CloseClient(View()));
      }
      link := link.(dead := true, generation := link.generation + 1, authed := false, ready := false, retry := false);
      RejectAll();
      link := link.(socket := Absent);
    }

    method ConnectAgain(socketOk: bool)
      modifies `link
      ensures View() == Connect(old(View()), socketOk)
      ensures old(Occurring() && Enabled(View(), DoConnect(socketOk))) ==> Occurring()
    {
      hide Reachable, Enabled;
      if Occurring() && Enabled(View(), DoConnect(socketOk)) {
        PerformReachable(View(), DoConnect(socketOk), Connect(View(), socketOk));
      }
      link := link.(retry := false);
      if link.dead { return; }
      link := link.(generation := link.generation + 1, ready := false, authed := false);
      if socketOk {
        link := link.(socket := Connecting);
      } else {
        link := link.(socket := Absent, retry := true);
      }
    }

    method OnClose()
      modifies `link, `book, `tasks
      ensures View() == SocketClosed(old(View()))
      ensures old(Occurring() && Enabled(View(), DoSocketClosed)) ==> Occurring()
    {
      hide Emptied, Woken, Reachable, Enabled;
      if Occurring() && Enabled(View(), DoSocketClosed) {
        PerformReachable(View(), DoSocketClosed, SocketClosed(View()));
      }
      link := link.(ready := false, authed := false, synchronizing := false, socket := Closed);
      RejectAll();
      link := link.(retry := true);
    }

    method OnTimeout(id: nat)
      requires id in book.timers
      modifies `link, `book, `tasks
      ensures View() == Timeout(old(View()), id)
      ensures old(Occurring() && Enabled(View(), DoTimeout(id))) ==> Occurring()
    {
      hide Settle, Reachable, Enabled;
      if Occurring() && Enabled(View(), DoTimeout(id)) {
        PerformReachable(View(), DoTimeout(id), Timeout(View(), id));
      }
      if id in book.pending {
        SettleRequest(id, Refused(Uncertain));
      } else {
        book := book.(timers := book.timers - {id}, settled := book.settled + multiset{id});
      }
      ShutSocket();
    }

    /** synchronize up to its first await: a new scope, and no ordinary command until it is done. */
    method BeginSynchronize(t: nat, bySet: bool, target: string, sendOk: bool)
      requires Numbered(book)
      modifies this
      ensures View() == Synchronize(old(View()), t, bySet, target, sendOk)
    {
      hide Issue;
      scope := scope.(version := scope.version + 1);
      link := link.(synchronizing := true, ready := false);
      tasks := tasks[t := Task(SyncJob(bySet), target, link.generation, scope.version, scope.confirmed, Starting)];
      SendRequest(t, "workspace.set", "", SyncWorkspace, true, sendOk);
    }

    method OnMessage(m: Incoming, t: nat, handlerOk: bool, sendOk: bool)
      requires Numbered(book)
      modifies this
      ensures View() == Receive(old(View()), m, t, handlerOk, sendOk)
      ensures old(Occurring() && Enabled(View(), DoMessage(m, t, handlerOk, sendOk))) ==> Occurring()
    {
      hide Synchronize, Settle, Reachable, Enabled;
      if Occurring() && Enabled(View(), DoMessage(m, t, handlerOk, sendOk)) {
        PerformReachable(View(), DoMessage(m, t, handlerOk, sendOk), Receive(View(), m, t, handlerOk, sendOk));
      }
      if !m.decodes {
        ShutSocket();
      } else if m.kind == "auth" {
        if !m.authOk || link.authed {
          ShutSocket();
        } else {
          link := link.(authed := true);
          var target := if scope.desired != "" then scope.desired else m.reply.workspace;
          BeginSynchronize(t, false, target, sendOk);
        }
      } else if m.id.Some? && m.id.value !in book.pending {
        return;
      } else if m.id.Some? && m.kind != "error" && m.kind != book.pending[m.id.value].expected {
        ShutSocket();
      } else {
        if m.kind != "error" {
          if m.id.Some? { book := book.(delivered := book.delivered + [m.id.value]); }
          if !handlerOk {
            ShutSocket();
            return;
          }
        }
        if m.id.Some? {
          SettleRequest(m.id.value, if m.kind == "error" then Refused(Rejected) else Resolved(m.reply));
        }
      }
    }

    // ---- Coroutines ----

    method DesireSession(id: string)
      modifies `scope
      ensures scope == Want(old(scope), id)
    {
      var ids := if scope.confirmed in scope.subscriptions then scope.subscriptions[scope.confirmed] else [];
      if id !in ids { ids := ids + [id]; }
      scope := scope.(subscriptions := scope.subscriptions[scope.confirmed := ids]);
    }

    method BeginChat(t: nat, given: Option<string>, sendOk: bool)
      requires Numbered(book) && t !in tasks
      modifies this
      ensures View() == StartChat(old(View()), t, given, sendOk)
      ensures old(Occurring() && Enabled(View(), DoStartChat(t, given, sendOk))) ==> Occurring()
    {
      hide Issue, Want, Reachable, Enabled;
      if Occurring() && Enabled(View(), DoStartChat(t, given, sendOk)) {
        PerformReachable(View(), DoStartChat(t, given, sendOk), StartChat(View(), t, given, sendOk));
      }
      var session := given.GetOr("");
      tasks := tasks[t := Task(ChatJob(given), session, link.generation, scope.version, scope.confirmed, Starting)];
      if given.None? {
        SendRequest(t, "session.create", "", Creating, false, sendOk);
      } else if link.dead {
        tasks := tasks[t := tasks[t].(pc := Unwinding(Unsent))];
      } else {
        DesireSession(session);
        SendRequest(t, "chat.req", session, Chatting, false, sendOk);
      }
    }

    /** scopeGuard's check, for the connection and the scope a coroutine began in. */
    method CheckScope(ghost t: nat, generation: nat, version: nat) returns (ok: bool)
      requires t in tasks && (tasks[t].generation, tasks[t].version) == (generation, version)
      ensures ok <==> Guard(View(), t)
    {
      ok := !link.dead && generation == link.generation && version == scope.version;
    }

    /** The last stretch of startChat: the prompt goes out if the scope is unchanged since the session was
        asked for, and otherwise nothing is sent. */
    method SendPrompt(t: nat, generation: nat, version: nat, session: string, sendOk: bool)
      requires Numbered(book) && t in tasks && tasks[t].pc == Hop(Listing) && !tasks[t].job.SyncJob?
      requires (tasks[t].generation, tasks[t].version, tasks[t].session) == (generation, version, session)
      modifies this
      ensures View() == Resume(old(View()), t, sendOk)
      ensures old(Occurring() && Enabled(View(), DoResume(t, sendOk))) ==> Occurring()
    {
      hide Issue, Want, Reachable, Enabled;
      if Occurring() && Enabled(View(), DoResume(t, sendOk)) {
        PerformReachable(View(), DoResume(t, sendOk), Resume(View(), t, sendOk));
      }
      var ok := CheckScope(t, generation, version);
      if !ok {
        tasks := tasks[t := tasks[t].(pc := Unwinding(Unsent))];
        return;
      }
      DesireSession(session);
      SendRequest(t, "chat.req", session, Chatting, false, sendOk);
    }

    method SelectWorkspace(t: nat, target: string, sendOk: bool)
      requires Numbered(book)
      modifies this
      ensures View() == SetWorkspace(old(View()), t, target, sendOk)
      ensures old(Occurring() && Enabled(View(), DoSetWorkspace(t, target, sendOk))) ==> Occurring()
    {
      hide Reachable, Enabled;
      if Occurring() && Enabled(View(), DoSetWorkspace(t, target, sendOk)) {
        PerformReachable(View(), DoSetWorkspace(t, target, sendOk), SetWorkspace(View(), t, target, sendOk));
      }
      if link.ready && !link.synchronizing {
        BeginSynchronize(t, true, target, sendOk);
      }
    }

    /** Restoring the wanted sessions one by one while the scope stands, and then ready. */
    method RestoreNext(t: nat, generation: nat, version: nat, rest: seq<string>, ghost reply: Reply, sendOk: bool)
      requires Numbered(book) && t in tasks && tasks[t].job.SyncJob?
      requires tasks[t].pc == Ready(SyncData(rest), Resolved(reply))
      requires (tasks[t].generation, tasks[t].version) == (generation, version)
      modifies this
      ensures View() == Resume(old(View()), t, sendOk)
      ensures old(Occurring() && Enabled(View(), DoResume(t, sendOk))) ==> Occurring()
    {
      hide Issue, Reachable, Enabled;
      if Occurring() && Enabled(View(), DoResume(t, sendOk)) {
        PerformReachable(View(), DoResume(t, sendOk), Resume(View(), t, sendOk));
      }
      var ok := CheckScope(t, generation, version);
      if !ok {
        tasks := tasks[t := tasks[t].(pc := Unwinding(Unsent))];
        return;
      }
      if |rest| == 0 {
        tasks := tasks[t := tasks[t].(pc := Over)];
        link := link.(ready := true, synchronizing := false);
      } else {
        SendRequest(t, "session.data", rest[0], SyncData(rest[1..]), true, sendOk);
      }
    }
  }
}
