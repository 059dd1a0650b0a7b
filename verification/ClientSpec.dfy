/** The desktop's command client as interleaved coroutines: apps/electron/lib/engineClient.ts.

    A callback runs to its end before anything else. An event (a message, a timer, the socket opening or
    closing) comes only when no coroutine is ready to go on; a call from the user interface may come at
    any time, also between two coroutines. */
module ClientSpec {
  import opened Transcript

  datatype Delivery = Unsent | Uncertain | Rejected

  datatype Reply = Reply(workspace: string, id: string, sessions: seq<string>)

  datatype Settled = Resolved(reply: Reply) | Refused(delivery: Delivery)

  datatype Incoming = Incoming(decodes: bool, kind: string, id: Option<nat>, authOk: bool, reply: Reply)

  /** What a coroutine is doing. */
  datatype Job =
    | ChatJob(given: Option<string>) | CreateJob | SelectJob | DeleteJob | RenameJob
    | SyncJob(bySet: bool) | PlainJob

  /** The request a coroutine waits for. */
  datatype Stage =
    | Creating | Selecting | Listing | Chatting | Deleting | Unsubscribing | Renaming | Relisting | Single
    | SyncWorkspace | SyncSettings | SyncList | SyncData(rest: seq<string>)

  /** Waiting; settled and ready to go on; an inner call has returned; failing through its callers; over. */
  datatype Pc =
    | Starting | Await(stage: Stage, id: nat) | Ready(stage: Stage, result: Settled) | Hop(stage: Stage)
    | Unwinding(delivery: Delivery) | Over

  /** `generation`, `version` and `home` are the connection, the scope and the workspace it began in. */
  datatype Task = Task(job: Job, session: string, generation: nat, version: nat, home: string, pc: Pc)

  datatype Request = Request(task: nat, expected: string)

  datatype Sent = Sent(id: nat, task: nat, kind: string, session: string, generation: nat, version: nat,
                       workspace: string)

  /** The socket of the present connection: none, opening, open, asked to close, or closed. */
  datatype Socket = Absent | Connecting | Open | Closing | Closed

  datatype Link = Link(dead: bool, authed: bool, ready: bool, synchronizing: bool, socket: Socket,
                       retry: bool, generation: nat)

  datatype Scope = Scope(version: nat, desired: string, confirmed: string, subscriptions: map<string, seq<string>>,
                         active: map<string, string>)

  /** The pending map and its timers, every request sent, settled and handed to the message handler. */
  datatype Book = Book(sequence: nat, pending: map<nat, Request>, timers: set<nat>, settled: multiset<nat>,
                       sent: seq<Sent>, delivered: seq<nat>)

  datatype Client = Client(link: Link, scope: Scope, book: Book, tasks: map<nat, Task>)

  /** Constructed, with the first connect still to come. */
  const INITIAL := Client(Link(false, false, false, false, Absent, true, 0), Scope(0, "", "", map[], map[]),
                          Book(0, map[], {}, multiset{}, [], []), map[])

  function Expected(kind: string): string {
    if kind == "chat.req" || kind == "session.subscribe" then "session.data" else kind
  }

  // ---- Requests ----

  function SetPc(c: Client, t: nat, pc: Pc): Client
    requires t in c.tasks
  {
    c.(tasks := c.tasks[t := c.tasks[t].(pc := pc)])
  }

  predicate MaySend(l: Link, bootstrap: bool) { (l.ready || bootstrap) && l.authed && l.socket.Open? }

  /** close of a socket. */
  function Shut(l: Link): Link {
    if l.socket.Connecting? || l.socket.Open? then l.(socket := Closing) else l
  }

  /** request, up to the promise it returns. */
  function Issue(c: Client, t: nat, kind: string, session: string, stage: Stage, sendOk: bool): Client
    requires t in c.tasks
  {
    var b := c.book;
    var id := b.sequence + 1;
    if !MaySend(c.link, c.tasks[t].job.SyncJob?) then SetPc(c, t, Unwinding(Unsent))
    else if !sendOk then
      SetPc(c, t, Ready(stage, Refused(Unsent)))
        .(link := Shut(c.link), book := b.(sequence := id, settled := b.settled + multiset{id}))
    else
      SetPc(c, t, Await(stage, id))
        .(book := b.(sequence := id, pending := b.pending[id := Request(t, Expected(kind))], timers := b.timers + {id},
                     sent := b.sent + [Sent(id, t, kind, session, c.link.generation, c.scope.version,
                                            c.scope.confirmed)]))
  }

  function Settle(c: Client, id: nat, result: Settled): Client
    requires id in c.book.pending
  {
    var b := c.book;
    var t := b.pending[id].task;
    c.(book := b.(pending := b.pending - {id}, timers := b.timers - {id}, settled := b.settled + multiset{id}),
       tasks := if t in c.tasks && c.tasks[t].pc.Await?
                then c.tasks[t := c.tasks[t].(pc := Ready(c.tasks[t].pc.stage, result))]
                else c.tasks)
  }

  /** A request's timer fires: it rejects the promise whether or not the request is still pending. */
  function Timeout(c: Client, id: nat): Client {
    if id in c.book.pending then Settle(c, id, Refused(Uncertain)).(link := Shut(c.link))
    else
      c.(book := c.book.(timers := c.book.timers - {id}, settled := c.book.settled + multiset{id}),
         link := Shut(c.link))
  }

  /** The coroutines that wait for one of these requests learn that the connection was lost. */
  function Woken(tasks: map<nat, Task>, ids: set<nat>): map<nat, Task> {
    map t | t in tasks ::
      if tasks[t].pc.Await? && tasks[t].pc.id in ids
      then tasks[t].(pc := Ready(tasks[t].pc.stage, Refused(Uncertain))) else tasks[t]
  }

  function Emptied(b: Book): Book {
    b.(pending := map[], timers := b.timers - b.pending.Keys, settled := b.settled + multiset(b.pending.Keys))
  }

  function RejectPending(c: Client): Client {
    c.(book := Emptied(c.book), tasks := Woken(c.tasks, c.book.pending.Keys))
  }

  // ---- Coroutines ----

  /** scopeGuard: the connection and the scope are those the coroutine began in. */
  predicate Guard(c: Client, t: nat)
    requires t in c.tasks
  {
    !c.link.dead && c.tasks[t].generation == c.link.generation && c.tasks[t].version == c.scope.version
  }

  function Desired(s: Scope): seq<string> {
    if s.confirmed in s.subscriptions then s.subscriptions[s.confirmed] else []
  }

  function Want(s: Scope, id: string): Scope {
    s.(subscriptions := s.subscriptions[s.confirmed := if id in Desired(s) then Desired(s) else Desired(s) + [id]])
  }

  function Removing(ids: seq<string>, id: string): seq<string> {
    if ids == [] then [] else (if ids[0] == id then [] else [ids[0]]) + Removing(ids[1..], id)
  }

  function Forget(s: Scope, id: string): Scope {
    s.(subscriptions := s.subscriptions[s.confirmed := Removing(Desired(s), id)],
       active := if s.confirmed in s.active && s.active[s.confirmed] == id then s.active - {s.confirmed} else s.active)
  }

  function Activate(s: Scope, id: string): Scope { s.(active := s.active[s.confirmed := id]) }

  function Start(c: Client, t: nat, job: Job, session: string): Client {
    c.(tasks := c.tasks[t := Task(job, session, c.link.generation, c.scope.version, c.scope.confirmed, Starting)])
  }

  /** synchronize, from its start. The scope is a new one from here on. */
  function Synchronize(c: Client, t: nat, bySet: bool, target: string, sendOk: bool): Client {
    var c := c.(scope := c.scope.(version := c.scope.version + 1),
                link := c.link.(synchronizing := true, ready := false));
    Issue(Start(c, t, SyncJob(bySet), target), t, "workspace.set", "", SyncWorkspace, sendOk)
  }

  /** The sessions to restore: the active one first, then the others that are wanted. */
  function Restored(s: Scope): seq<string> {
    if s.confirmed in s.active && s.active[s.confirmed] != "" then
      [s.active[s.confirmed]] + Removing(Desired(s), s.active[s.confirmed])
    else Desired(s)
  }

  function FirstActive(s: Scope, sessions: seq<string>): Scope {
    if s.confirmed !in s.active && sessions != [] then Want(Activate(s, sessions[0]), sessions[0]) else s
  }

  function NextData(c: Client, t: nat, rest: seq<string>, sendOk: bool): Client
    requires t in c.tasks
  {
    if rest == [] then SetPc(c, t, Over).(link := c.link.(ready := true, synchronizing := false))
    else Issue(c, t, "session.data", rest[0], SyncData(rest[1..]), sendOk)
  }

  /** A request was answered and the guard holds: what the coroutine does until its next await. */
  function Advance(c: Client, t: nat, stage: Stage, reply: Reply, sendOk: bool): Client
    requires t in c.tasks
  {
    var session := c.tasks[t].session;
    match stage
    case Creating =>
      var c := c.(scope := Activate(Want(c.scope, reply.id), reply.id),
                  tasks := c.tasks[t := c.tasks[t].(session := reply.id)]);
      Issue(c, t, "session.data", reply.id, Selecting, sendOk)
    case Selecting =>
      SetPc(c, t, if c.tasks[t].job.SelectJob? then Over else Hop(Selecting)).(scope := Activate(c.scope, session))
    case Listing => SetPc(c, t, if c.tasks[t].job.ChatJob? then Hop(Listing) else Over)
    case Deleting =>
      Issue(c.(scope := Forget(c.scope, session)), t, "session.unsubscribe", session, Unsubscribing, sendOk)
    case Unsubscribing => Issue(c, t, "session.list", "", Relisting, sendOk)
    case Renaming => Issue(c, t, "session.list", "", Relisting, sendOk)
    case SyncWorkspace =>
      Issue(c.(scope := c.scope.(desired := reply.workspace, confirmed := reply.workspace)), t, "settings.get", "",
            SyncSettings, sendOk)
    case SyncSettings => Issue(c, t, "session.list", "", SyncList, sendOk)
    case SyncList =>
      var scope := FirstActive(c.scope, reply.sessions);
      NextData(c.(scope := scope), t, Restored(scope), sendOk)
    case SyncData(rest) => NextData(c, t, rest, sendOk)
    case _ => SetPc(c, t, Over)
  }

  /** An inner async call has returned to its caller, and the caller goes on. */
  function AfterHop(c: Client, t: nat, stage: Stage, sendOk: bool): Client
    requires t in c.tasks
  {
    if stage.Selecting? then Issue(c, t, "session.list", "", Listing, sendOk)
    else Issue(c.(scope := Want(c.scope, c.tasks[t].session)), t, "chat.req", c.tasks[t].session, Chatting, sendOk)
  }

  /** The error reaches the outermost frame. A rejected workspace selection leaves the old scope in use;
      a failed first synchronization closes the socket. */
  function Unwind(c: Client, t: nat, delivery: Delivery): Client
    requires t in c.tasks
  {
    var task := c.tasks[t];
    var link := match task.job
                case SyncJob(bySet) =>
                  if bySet then (if delivery.Rejected? then c.link.(ready := true, synchronizing := false) else c.link)
                  else if !c.link.dead && c.link.generation == task.generation then Shut(c.link)
                  else c.link
                case _ => c.link;
    SetPc(c, t, Over).(link := link)
  }

  predicate Runnable(pc: Pc) { pc.Starting? || pc.Ready? || pc.Hop? || pc.Unwinding? }

  predicate Last(stage: Stage) { stage.Chatting? || stage.Single? || stage.Relisting? }

  function Resume(c: Client, t: nat, sendOk: bool): Client
    requires t in c.tasks
  {
    match c.tasks[t].pc
    case Ready(_, Refused(delivery)) => SetPc(c, t, Unwinding(delivery))
    case Ready(stage, Resolved(reply)) =>
      if Last(stage) then SetPc(c, t, Over)
      else if !Guard(c, t) then SetPc(c, t, Unwinding(Unsent))
      else Advance(c, t, stage, reply, sendOk)
    case Hop(stage) => if !Guard(c, t) then SetPc(c, t, Unwinding(Unsent)) else AfterHop(c, t, stage, sendOk)
    case Unwinding(delivery) => Unwind(c, t, delivery)
    case _ => c
  }

  // ---- Calls and events ----

  function StartChat(c: Client, t: nat, given: Option<string>, sendOk: bool): Client {
    if given.Some? && c.link.dead then SetPc(Start(c, t, ChatJob(given), given.value), t, Unwinding(Unsent))
    else if given.Some? then
      Issue(Start(c, t, ChatJob(given), given.value).(scope := Want(c.scope, given.value)), t, "chat.req", given.value,
            Chatting, sendOk)
    else Issue(Start(c, t, ChatJob(None), ""), t, "session.create", "", Creating, sendOk)
  }

  function SetWorkspace(c: Client, t: nat, target: string, sendOk: bool): Client {
    if !c.link.ready || c.link.synchronizing then c else Synchronize(c, t, true, target, sendOk)
  }

  function Connect(c: Client, socketOk: bool): Client {
    if c.link.dead then c.(link := c.link.(retry := false))
    else c.(link := c.link.(generation := c.link.generation + 1, ready := false, authed := false,
                            socket := if socketOk then Connecting else Absent, retry := !socketOk))
  }

  function CloseClient(c: Client): Client {
    RejectPending(c.(link := c.link.(dead := true, generation := c.link.generation + 1, authed := false, ready := false,
                                     retry := false, socket := Absent)))
  }

  /** onclose of the current socket. */
  function SocketClosed(c: Client): Client {
    RejectPending(c.(link := c.link.(ready := false, authed := false, synchronizing := false, socket := Closed,
                                     retry := true)))
  }

  /** onmessage. An error thrown on the way closes the socket. */
  function Receive(c: Client, m: Incoming, t: nat, handlerOk: bool, sendOk: bool): Client {
    var failed := c.(link := Shut(c.link));
    if !m.decodes then failed
    else if m.kind == "auth" then
      if !m.authOk || c.link.authed then failed
      else
        var target := if c.scope.desired != "" then c.scope.desired else m.reply.workspace;
        Synchronize(c.(link := c.link.(authed := true)), t, false, target, sendOk)
    else if m.id.Some? && m.id.value !in c.book.pending then c
    else if m.id.Some? && m.kind != "error" && m.kind != c.book.pending[m.id.value].expected then failed
    else
      var c := if m.kind == "error" || m.id.None? then c
               else c.(book := c.book.(delivered := c.book.delivered + [m.id.value]));
      if m.kind != "error" && !handlerOk then c.(link := Shut(c.link))
      else if m.id.Some? then Settle(c, m.id.value, if m.kind == "error" then Refused(Rejected) else Resolved(m.reply))
      else c
  }

  datatype Action =
    | DoStartChat(task: nat, given: Option<string>, sendOk: bool)
    | DoCreate(task: nat, sendOk: bool)
    | DoSelect(task: nat, session: string, sendOk: bool)
    | DoDelete(task: nat, session: string, sendOk: bool)
    | DoRename(task: nat, session: string, sendOk: bool)
    | DoPlain(task: nat, kind: string, sendOk: bool)
    | DoSetWorkspace(task: nat, target: string, sendOk: bool)
    | DoClose
    | DoResume(task: nat, sendOk: bool)
    | DoConnect(socketOk: bool)
    | DoSocketOpen
    | DoHandshakeFails
    | DoSocketClosed
    | DoMessage(message: Incoming, task: nat, handlerOk: bool, sendOk: bool)
    | DoTimeout(id: nat)

  predicate Idle(c: Client) { forall t <- c.tasks :: !Runnable(c.tasks[t].pc) }

  /** A message is delivered only to an open socket, a timer fires only while it is armed. */
  predicate Enabled(c: Client, a: Action) {
    match a
    case DoStartChat(t, _, _) => t !in c.tasks
    case DoCreate(t, _) => t !in c.tasks
    case DoSelect(t, _, _) => t !in c.tasks
    case DoDelete(t, _, _) => t !in c.tasks
    case DoRename(t, _, _) => t !in c.tasks
    case DoPlain(t, kind, _) => t !in c.tasks && kind != "chat.req"
    case DoSetWorkspace(t, _, _) => t !in c.tasks
    case DoClose => true
    case DoResume(t, _) => t in c.tasks && Runnable(c.tasks[t].pc)
    case DoConnect(_) => Idle(c) && c.link.retry
    case DoSocketOpen => Idle(c) && c.link.socket.Connecting?
    case DoHandshakeFails => Idle(c) && (c.link.socket.Connecting? || c.link.socket.Open?)
    case DoSocketClosed => Idle(c) && (c.link.socket.Connecting? || c.link.socket.Open? || c.link.socket.Closing?)
    case DoMessage(_, t, _, _) => Idle(c) && c.link.socket.Open? && t !in c.tasks
    case DoTimeout(id) => Idle(c) && id in c.book.timers
  }

  function Perform(c: Client, a: Action): Client
    requires Enabled(c, a)
  {
    match a
    case DoStartChat(t, given, sendOk) => StartChat(c, t, given, sendOk)
    case DoCreate(t, sendOk) => Issue(Start(c, t, CreateJob, ""), t, "session.create", "", Creating, sendOk)
    case DoSelect(t, session, sendOk) =>
      Issue(Start(c, t, SelectJob, session).(scope := Want(c.scope, session)), t, "session.data", session, Selecting,
            sendOk)
    case DoDelete(t, session, sendOk) =>
      Issue(Start(c, t, DeleteJob, session), t, "session.delete", session, Deleting, sendOk)
    case DoRename(t, session, sendOk) =>
      Issue(Start(c, t, RenameJob, session), t, "session.rename", session, Renaming, sendOk)
    case DoPlain(t, kind, sendOk) => Issue(Start(c, t, PlainJob, ""), t, kind, "", Single, sendOk)
    case DoSetWorkspace(t, target, sendOk) => SetWorkspace(c, t, target, sendOk)
    case DoClose => CloseClient(c)
    case DoResume(t, sendOk) => Resume(c, t, sendOk)
    case DoConnect(socketOk) => Connect(c, socketOk)
    case DoSocketOpen => c.(link := c.link.(socket := Open))
    case DoHandshakeFails => c.(link := Shut(c.link))
    case DoSocketClosed => SocketClosed(c)
    case DoMessage(m, t, handlerOk, sendOk) => Receive(c, m, t, handlerOk, sendOk)
    case DoTimeout(id) => Timeout(c, id)
  }

  function Step(c: Client, a: Action): Client { if Enabled(c, a) then Perform(c, a) else c }

  function Reach(c: Client, actions: seq<Action>): Client {
    if actions == [] then c else Step(Reach(c, actions[..|actions| - 1]), actions[|actions| - 1])
  }

  /** The client is in this state at some moment of some run. */
  ghost predicate Reachable(c: Client) { exists actions :: Reach(INITIAL, actions) == c }

  lemma StartReachable()
    ensures Reachable(INITIAL)
  {
    assert Reach(INITIAL, []) == INITIAL;
  }

  /** Whatever an enabled step makes of a reachable client is reachable. */
  lemma PerformReachable(c: Client, a: Action, d: Client)
    requires Reachable(c) && Enabled(c, a) && Perform(c, a) == d
    ensures Reachable(d)
  {
    hide Perform, Enabled;
    var actions :| Reach(INITIAL, actions) == c;
    var more := actions + [a];
    assert more[..|more| - 1] == actions;
    assert Reach(INITIAL, more) == d;
  }
}
