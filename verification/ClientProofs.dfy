/** What every interleaving of the client's coroutines and events keeps. */
module ClientProofs {
  import opened Transcript
  import opened ClientSpec

  // ---- The invariant ----

  /** Every request ever made is pending with its timer armed, or settled once. */
  ghost predicate BookOk(b: Book) {
    && b.timers == b.pending.Keys
    && (forall id <- b.pending :: 1 <= id <= b.sequence)
    && (forall id: nat :: b.settled[id] == if 1 <= id <= b.sequence && id !in b.pending then 1 else 0)
  }

  ghost predicate LinkOk(l: Link, b: Book) {
    && (!l.authed ==> b.pending == map[])
    && (l.authed ==> l.socket.Open? || l.socket.Closing?)
    && (l.retry ==> !l.authed && (l.socket.Absent? || l.socket.Closed?))
    && (l.dead ==> !l.authed && !l.retry && l.socket.Absent?)
  }

  predicate JobStage(job: Job, stage: Stage) {
    match job
    case ChatJob(given) => stage.Chatting? || (given.None? && (stage.Creating? || stage.Selecting? || stage.Listing?))
    case CreateJob => stage.Creating? || stage.Selecting? || stage.Listing?
    case SelectJob => stage.Selecting?
    case DeleteJob => stage.Deleting? || stage.Unsubscribing? || stage.Relisting?
    case RenameJob => stage.Renaming? || stage.Relisting?
    case SyncJob(_) => stage.SyncWorkspace? || stage.SyncSettings? || stage.SyncList? || stage.SyncData?
    case PlainJob => stage.Single?
  }

  predicate PcFits(job: Job, pc: Pc) {
    match pc
    case Await(stage, _) => JobStage(job, stage)
    case Ready(stage, _) => JobStage(job, stage)
    case Hop(stage) =>
      (stage.Selecting? && (job.CreateJob? || (job.ChatJob? && job.given.None?)))
      || (stage.Listing? && job.ChatJob? && job.given.None?)
    case _ => true
  }

  ghost predicate TaskOk(c: Client, t: nat)
    requires t in c.tasks
  {
    var task := c.tasks[t];
    && PcFits(task.job, task.pc)
    && task.generation <= c.link.generation && task.version <= c.scope.version
    && (task.pc.Await? ==> task.pc.id in c.book.pending && c.book.pending[task.pc.id].task == t)
    && (task.job.ChatJob? && task.job.given.Some? ==> task.session == task.job.given.value)
  }

  ghost predicate TasksOk(c: Client) {
    && (forall t <- c.tasks :: TaskOk(c, t))
    && (forall id <- c.book.pending ::
          var t := c.book.pending[id].task; t in c.tasks && c.tasks[t].pc.Await? && c.tasks[t].pc.id == id)
  }

  predicate Syncing(c: Client, t: nat) { t in c.tasks && c.tasks[t].job.SyncJob? && !c.tasks[t].pc.Over? }

  /** While a synchronization is under way it is the only one, its scope is the present one, and no
      ordinary command may be sent. */
  ghost predicate SyncOk(c: Client) {
    !c.link.dead ==>
      && (forall t <- c.tasks | Syncing(c, t) ::
            c.tasks[t].generation == c.link.generation && c.tasks[t].version == c.scope.version && !c.link.ready)
      && (forall t <- c.tasks, u <- c.tasks | Syncing(c, t) && Syncing(c, u) :: t == u)
  }

  predicate Going(pc: Pc) { pc.Await? || pc.Ready? || pc.Hop? }

  predicate Unconfirmed(pc: Pc) {
    pc.Starting? || (pc.Await? && pc.stage.SyncWorkspace?) || (pc.Ready? && pc.stage.SyncWorkspace?)
  }

  predicate Dependent(c: Client, t: nat) {
    t in c.tasks && !c.tasks[t].job.SyncJob? && Going(c.tasks[t].pc) && Guard(c, t)
  }

  /** A coroutine whose guard still holds is in the workspace it began in, and none is about to be
      confirmed. */
  ghost predicate ScopeOk(c: Client) {
    forall t <- c.tasks | Dependent(c, t) ::
      && c.tasks[t].home == c.scope.confirmed
      && forall u <- c.tasks | Syncing(c, u) :: !Unconfirmed(c.tasks[u].pc)
  }

  predicate PastChat(pc: Pc) {
    pc.Over? || pc.Unwinding? || (pc.Await? && pc.stage.Chatting?) || (pc.Ready? && pc.stage.Chatting?)
  }

  ghost predicate EntryOk(e: Sent, tasks: map<nat, Task>) {
    e.task in tasks &&
    var task := tasks[e.task];
    && (!task.job.SyncJob? ==>
          e.generation == task.generation && e.version == task.version && e.workspace == task.home)
    && (e.kind == "chat.req" ==> task.job.ChatJob? && e.session == task.session && PastChat(task.pc))
  }

  ghost predicate SentOk(sent: seq<Sent>, tasks: map<nat, Task>) {
    && (forall i | 0 <= i < |sent| :: EntryOk(sent[i], tasks))
    && (forall i, j | 0 <= i < j < |sent| && sent[i].kind == "chat.req" && sent[j].kind == "chat.req" ::
          sent[i].task != sent[j].task)
  }

  /** No reply reaches the message handler twice; one whose handling failed closed the socket. */
  ghost predicate DeliveredOk(b: Book, l: Link) {
    && (forall i | 0 <= i < |b.delivered| ::
          1 <= b.delivered[i] <= b.sequence && (b.delivered[i] in b.pending ==> !l.socket.Open?))
    && (forall i, j | 0 <= i < j < |b.delivered| :: b.delivered[i] != b.delivered[j])
  }

  ghost predicate Inv(c: Client) {
    && BookOk(c.book) && LinkOk(c.link, c.book) && TasksOk(c) && SyncOk(c) && ScopeOk(c)
    && SentOk(c.book.sent, c.tasks) && DeliveredOk(c.book, c.link)
  }

  // ---- Building blocks ----

  /** A coroutine moves on without waiting for a request. */
  predicate Moves(task: Task, pc: Pc) {
    && !task.pc.Await? && !task.pc.Over? && !pc.Await? && !pc.Starting? && PcFits(task.job, pc)
    && (Going(pc) ==> Going(task.pc)) && (Unconfirmed(pc) ==> Unconfirmed(task.pc))
    && (PastChat(task.pc) ==> PastChat(pc))
  }

  lemma PcMoves(c: Client, t: nat, pc: Pc)
    requires Inv(c) && t in c.tasks && Moves(c.tasks[t], pc)
    ensures Inv(SetPc(c, t, pc))
  {
    var d := SetPc(c, t, pc);
    forall u <- d.tasks ensures TaskOk(d, u) { assert TaskOk(c, u); }
    forall i | 0 <= i < |d.book.sent| ensures EntryOk(d.book.sent[i], d.tasks) {
      assert EntryOk(c.book.sent[i], c.tasks);
    }
    assert ScopeOk(d) by {
      forall u <- d.tasks | Dependent(d, u)
        ensures d.tasks[u].home == d.scope.confirmed
                && forall v <- d.tasks | Syncing(d, v) :: !Unconfirmed(d.tasks[v].pc)
      {
        assert Dependent(c, u);
        forall v <- d.tasks | Syncing(d, v) ensures !Unconfirmed(d.tasks[v].pc) { assert Syncing(c, v); }
      }
    }
    assert SyncOk(d) by { assert forall u <- d.tasks | Syncing(d, u) :: Syncing(c, u); }
  }

  /** What must hold where a coroutine asks for something. */
  ghost predicate MayIssue(c: Client, t: nat, kind: string, session: string, stage: Stage) {
    t in c.tasks &&
    var task := c.tasks[t];
    && !task.pc.Await? && !PastChat(task.pc) && JobStage(task.job, stage)
    && (!task.job.SyncJob? && !c.link.dead ==> Guard(c, t) && task.home == c.scope.confirmed)
    && (stage.SyncWorkspace? ==> task.pc.Starting?)
    && (kind == "chat.req" ==> task.job.ChatJob? && session == task.session && stage.Chatting?)
  }

  lemma IssueKeepsBook(b: Book, l: Link, t: nat, kind: string, e: Sent)
    requires BookOk(b) && LinkOk(l, b) && DeliveredOk(b, l) && l.authed
    ensures var id := b.sequence + 1;
            var sent := b.(sequence := id, pending := b.pending[id := Request(t, Expected(kind))],
                           timers := b.timers + {id},
                           sent := b.sent + [e]);
            BookOk(sent) && LinkOk(l, sent) && DeliveredOk(sent, l)
    ensures var id := b.sequence + 1;
            var failed := b.(sequence := id, settled := b.settled + multiset{id});
            BookOk(failed) && LinkOk(Shut(l), failed) && DeliveredOk(failed, Shut(l))
  {
  }

  lemma IssueKeepsTasks(c: Client, t: nat, kind: string, session: string, stage: Stage, sendOk: bool)
    requires Inv(c) && MayIssue(c, t, kind, session, stage) && MaySend(c.link, c.tasks[t].job.SyncJob?)
    ensures var d := Issue(c, t, kind, session, stage, sendOk); TasksOk(d) && SyncOk(d) && ScopeOk(d)
  {
    var d := Issue(c, t, kind, session, stage, sendOk);
    forall u <- d.tasks ensures TaskOk(d, u) { assert TaskOk(c, u) && TaskOk(c, t); }
    assert SyncOk(d) by { assert forall u <- d.tasks | Syncing(d, u) :: Syncing(c, u); }
    forall u <- d.tasks | Dependent(d, u)
      ensures d.tasks[u].home == d.scope.confirmed && forall v <- d.tasks | Syncing(d, v) :: !Unconfirmed(d.tasks[v].pc)
    {
      if u != t { assert Dependent(c, u); }
      forall v <- d.tasks | Syncing(d, v) ensures !Unconfirmed(d.tasks[v].pc) {
        assert Syncing(c, v);
        if v == t && u != t { assert Syncing(c, t) && Dependent(c, u); }
      }
    }
  }

  lemma IssueKeepsSent(c: Client, t: nat, kind: string, session: string, stage: Stage, sendOk: bool)
    requires Inv(c) && MayIssue(c, t, kind, session, stage) && MaySend(c.link, c.tasks[t].job.SyncJob?)
    ensures var d := Issue(c, t, kind, session, stage, sendOk); SentOk(d.book.sent, d.tasks)
  {
    hide BookOk, TasksOk, SyncOk, ScopeOk, DeliveredOk;
    var d := Issue(c, t, kind, session, stage, sendOk);
    forall i | 0 <= i < |d.book.sent| ensures EntryOk(d.book.sent[i], d.tasks) {
      if i < |c.book.sent| {
        assert EntryOk(c.book.sent[i], c.tasks);
        assert d.book.sent[i] == c.book.sent[i];
      }
    }
    forall i, j | 0 <= i < j < |d.book.sent| && d.book.sent[i].kind == "chat.req" && d.book.sent[j].kind == "chat.req"
      ensures d.book.sent[i].task != d.book.sent[j].task
    {
      assert EntryOk(c.book.sent[i], c.tasks);
    }
  }

  lemma IssueKeeps(c: Client, t: nat, kind: string, session: string, stage: Stage, sendOk: bool)
    requires Inv(c) && MayIssue(c, t, kind, session, stage)
    ensures Inv(Issue(c, t, kind, session, stage, sendOk))
  {
    if MaySend(c.link, c.tasks[t].job.SyncJob?) {
      IssueKeepsTasks(c, t, kind, session, stage, sendOk);
      IssueKeepsSent(c, t, kind, session, stage, sendOk);
      IssueKeepsBook(c.book, c.link, t, kind,
                     Sent(c.book.sequence + 1, t, kind, session, c.link.generation, c.scope.version,
                          c.scope.confirmed));
      hide BookOk, LinkOk, TasksOk, SyncOk, ScopeOk, DeliveredOk, SentOk;
    } else {
      PcMoves(c, t, Unwinding(Unsent));
    }
  }

  lemma SettleKeeps(c: Client, id: nat, result: Settled)
    requires Inv(c) && id in c.book.pending
    ensures Inv(Settle(c, id, result))
  {
    var d := Settle(c, id, result);
    var t := c.book.pending[id].task;
    assert c.tasks[t].pc.Await? && c.tasks[t].pc.id == id;
    assert d.tasks == c.tasks[t := c.tasks[t].(pc := Ready(c.tasks[t].pc.stage, result))];
    assert BookOk(d.book) && LinkOk(d.link, d.book) && DeliveredOk(d.book, d.link) by {
      SettleKeepsBook(c.book, c.link, id);
    }
    assert TasksOk(d) by {
      forall u <- d.tasks ensures TaskOk(d, u) { assert TaskOk(c, u); }
    }
    AwaitIsOver(c, d);
  }

  lemma SettleKeepsBook(b: Book, l: Link, id: nat)
    requires BookOk(b) && LinkOk(l, b) && DeliveredOk(b, l) && id in b.pending
    ensures var b' := b.(pending := b.pending - {id}, timers := b.timers - {id}, settled := b.settled + multiset{id});
            BookOk(b') && LinkOk(l, b') && DeliveredOk(b', l)
  {
  }

  /** Some waiting coroutines are woken; nothing else about the coroutines changes. */
  lemma AwaitIsOver(c: Client, d: Client)
    requires SyncOk(c) && ScopeOk(c) && SentOk(c.book.sent, c.tasks) && d.tasks.Keys == c.tasks.Keys
    requires d.link.dead || (d.link.generation == c.link.generation && !c.link.dead && (d.link.ready ==> c.link.ready))
    requires d.scope.version == c.scope.version && d.scope.confirmed == c.scope.confirmed && d.book.sent == c.book.sent
    requires forall u <- c.tasks :: d.tasks[u] == c.tasks[u] ||
               (c.tasks[u].pc.Await? && exists r :: d.tasks[u] == c.tasks[u].(pc := Ready(c.tasks[u].pc.stage, r)))
    ensures SyncOk(d) && ScopeOk(d) && SentOk(d.book.sent, d.tasks)
  {
    forall i | 0 <= i < |d.book.sent| ensures EntryOk(d.book.sent[i], d.tasks) {
      assert EntryOk(c.book.sent[i], c.tasks);
    }
    assert SyncOk(d) by { assert forall u <- d.tasks | Syncing(d, u) :: Syncing(c, u); }
    assert ScopeOk(d) by {
      forall u <- d.tasks | Dependent(d, u)
        ensures d.tasks[u].home == d.scope.confirmed
                && forall v <- d.tasks | Syncing(d, v) :: !Unconfirmed(d.tasks[v].pc)
      {
        assert Dependent(c, u);
        forall v <- d.tasks | Syncing(d, v) ensures !Unconfirmed(d.tasks[v].pc) { assert Syncing(c, v); }
      }
    }
  }

  /** The socket is asked to close, or the subscriptions and selections of a scope change. */
  lemma QuietKeeps(c: Client, link: Link, scope: Scope)
    requires Inv(c) && (link == c.link || link == Shut(c.link))
    requires scope == c.scope.(subscriptions := scope.subscriptions, active := scope.active, desired := scope.desired)
    ensures Inv(c.(link := link, scope := scope))
  {
    hide BookOk;
    var d := c.(link := link, scope := scope);
    assert TasksOk(d) by { forall u <- d.tasks ensures TaskOk(d, u) { assert TaskOk(c, u); } }
    assert d.tasks == c.tasks && d.book == c.book;
    hide LinkOk, TasksOk, DeliveredOk, Shut;
    assert LinkOk(link, d.book) && DeliveredOk(d.book, link) by { ShutKeepsBook(c.book, c.link); }
    assert link.dead == c.link.dead && link.ready == c.link.ready && link.generation == c.link.generation by {
      ShutOnlySocket(c.link);
    }
    AwaitIsOver(c, d);
  }

  lemma ShutOnlySocket(l: Link)
    ensures Shut(l) == l.(socket := Shut(l).socket)
  {
  }

  lemma ShutKeepsBook(b: Book, l: Link)
    requires LinkOk(l, b) && DeliveredOk(b, l)
    ensures LinkOk(Shut(l), b) && DeliveredOk(b, Shut(l))
  {
  }

  lemma StartKeeps(c: Client, t: nat, job: Job, session: string)
    requires Inv(c) && t !in c.tasks && !job.SyncJob?
    requires job.ChatJob? && job.given.Some? ==> session == job.given.value
    ensures Inv(Start(c, t, job, session))
  {
    hide BookOk, LinkOk, DeliveredOk;
    var d := Start(c, t, job, session);
    forall u <- d.tasks ensures TaskOk(d, u) { assert u != t ==> TaskOk(c, u); }
    forall i | 0 <= i < |d.book.sent| ensures EntryOk(d.book.sent[i], d.tasks) {
      assert EntryOk(c.book.sent[i], c.tasks);
    }
    assert SyncOk(d) by { assert forall u <- d.tasks | Syncing(d, u) :: Syncing(c, u); }
    forall u <- d.tasks | Dependent(d, u)
      ensures d.tasks[u].home == d.scope.confirmed && forall v <- d.tasks | Syncing(d, v) :: !Unconfirmed(d.tasks[v].pc)
    {
      assert Dependent(c, u);
      forall v <- d.tasks | Syncing(d, v) ensures !Unconfirmed(d.tasks[v].pc) { assert Syncing(c, v); }
    }
  }

  /** A new scope begins while no synchronization is under way: no coroutine's guard holds any more. */
  lemma NewScopeKeeps(c: Client, t: nat, bySet: bool, target: string)
    requires Inv(c) && t !in c.tasks && (c.link.dead || forall u <- c.tasks :: !Syncing(c, u))
    ensures var d := c.(scope := c.scope.(version := c.scope.version + 1),
                        link := c.link.(synchronizing := true, ready := false));
            Inv(Start(d, t, SyncJob(bySet), target))
  {
    hide BookOk;
    var d := c.(scope := c.scope.(version := c.scope.version + 1),
                link := c.link.(synchronizing := true, ready := false));
    var e := Start(d, t, SyncJob(bySet), target);
    assert LinkOk(e.link, e.book);
    assert DeliveredOk(e.book, e.link) by { SocketDecides(c.book, c.link, e.link); }
    hide DeliveredOk, LinkOk;
    forall u <- e.tasks ensures TaskOk(e, u) { assert u != t ==> TaskOk(c, u); }
    assert SentOk(e.book.sent, e.tasks) by {
      forall i | 0 <= i < |e.book.sent| ensures EntryOk(e.book.sent[i], e.tasks) {
        assert EntryOk(c.book.sent[i], c.tasks);
      }
    }
    assert SyncOk(e) by { if !c.link.dead { assert forall u <- e.tasks | Syncing(e, u) :: u == t; } }
    assert ScopeOk(e) by { forall u <- e.tasks ensures !Dependent(e, u) { assert u != t ==> TaskOk(c, u); } }
  }

  lemma SynchronizeKeeps(c: Client, t: nat, bySet: bool, target: string, sendOk: bool)
    requires Inv(c) && t !in c.tasks && (c.link.dead || forall u <- c.tasks :: !Syncing(c, u))
    ensures Inv(Synchronize(c, t, bySet, target, sendOk))
  {
    hide Inv, Issue;
    NewScopeKeeps(c, t, bySet, target);
    var d := c.(scope := c.scope.(version := c.scope.version + 1),
                link := c.link.(synchronizing := true, ready := false));
    IssueKeeps(Start(d, t, SyncJob(bySet), target), t, "workspace.set", "", SyncWorkspace, sendOk);
  }

  lemma SocketDecides(b: Book, l: Link, m: Link)
    requires DeliveredOk(b, l) && l.socket == m.socket
    ensures DeliveredOk(b, m)
  {
  }

  lemma ConfirmKeeps(c: Client, t: nat, workspace: string)
    requires Inv(c) && Syncing(c, t) && Unconfirmed(c.tasks[t].pc)
    ensures Inv(c.(scope := c.scope.(desired := workspace, confirmed := workspace)))
  {
    hide BookOk, LinkOk, DeliveredOk;
    var d := c.(scope := c.scope.(desired := workspace, confirmed := workspace));
    forall u <- d.tasks ensures TaskOk(d, u) { assert TaskOk(c, u); }
    assert SyncOk(d) by { assert forall u <- d.tasks | Syncing(d, u) :: Syncing(c, u); }
    forall u <- d.tasks ensures !Dependent(d, u) {
      assert Dependent(d, u) ==> Dependent(c, u);
      if Dependent(c, u) { assert false; }
    }
  }

  /** A synchronization ends, and ordinary commands may be sent again. */
  lemma EndSyncKeeps(c: Client, t: nat)
    requires Inv(c) && Syncing(c, t) && !c.tasks[t].pc.Await?
    ensures Inv(SetPc(c, t, Over).(link := c.link.(ready := true, synchronizing := false)))
  {
    PcMoves(c, t, Over);
    var d := SetPc(c, t, Over);
    var e := d.(link := c.link.(ready := true, synchronizing := false));
    hide BookOk, DeliveredOk;
    assert DeliveredOk(e.book, e.link) by { SocketDecides(c.book, c.link, e.link); }
    assert SyncOk(e) by { assert forall u <- e.tasks | Syncing(e, u) :: Syncing(c, u) && u != t; }
    assert TasksOk(e) by { forall u <- e.tasks ensures TaskOk(e, u) { assert TaskOk(d, u); } }
    assert ScopeOk(e) by {
      forall u <- e.tasks | Dependent(e, u) ensures e.tasks[u].home == e.scope.confirmed { assert Dependent(d, u); }
      assert e.link.dead || forall u <- e.tasks :: !Syncing(e, u);
    }
  }

  /** The new session's id becomes the one the coroutine works on. */
  lemma NamedKeeps(c: Client, t: nat, session: string)
    requires Inv(c) && t in c.tasks && !PastChat(c.tasks[t].pc)
    requires !(c.tasks[t].job.ChatJob? && c.tasks[t].job.given.Some?)
    ensures Inv(c.(tasks := c.tasks[t := c.tasks[t].(session := session)]))
  {
    hide BookOk, LinkOk, DeliveredOk;
    var d := c.(tasks := c.tasks[t := c.tasks[t].(session := session)]);
    forall u <- d.tasks ensures TaskOk(d, u) { assert TaskOk(c, u); }
    forall i | 0 <= i < |d.book.sent| ensures EntryOk(d.book.sent[i], d.tasks) {
      assert EntryOk(c.book.sent[i], c.tasks);
    }
    assert SyncOk(d) by { assert forall u <- d.tasks | Syncing(d, u) :: Syncing(c, u); }
    forall u <- d.tasks | Dependent(d, u)
      ensures d.tasks[u].home == d.scope.confirmed && forall v <- d.tasks | Syncing(d, v) :: !Unconfirmed(d.tasks[v].pc)
    {
      assert Dependent(c, u);
      forall v <- d.tasks | Syncing(d, v) ensures !Unconfirmed(d.tasks[v].pc) { assert Syncing(c, v); }
    }
  }

  // ---- Calls ----

  /** A coroutine that has just begun may ask for its first answer. */
  lemma BeginKeeps(c: Client, t: nat, job: Job, session: string, kind: string, target: string, stage: Stage,
                   wants: bool, sendOk: bool)
    requires Inv(c) && t !in c.tasks && !job.SyncJob? && JobStage(job, stage) && !stage.SyncWorkspace?
    requires job.ChatJob? && job.given.Some? ==> session == job.given.value
    requires kind == "chat.req" ==> job.ChatJob? && target == session && stage.Chatting?
    ensures var d := Start(c, t, job, session);
            Inv(Issue(if wants then d.(scope := Want(c.scope, session)) else d, t, kind, target, stage, sendOk))
  {
    hide Issue;
    StartKeeps(c, t, job, session);
    var d := Start(c, t, job, session);
    QuietKeeps(d, d.link, Want(c.scope, session));
    var e := if wants then d.(scope := Want(c.scope, session)) else d;
    assert MayIssue(e, t, kind, target, stage);
    hide Inv, MayIssue, Start;
    IssueKeeps(e, t, kind, target, stage, sendOk);
  }

  lemma CallKeeps(c: Client, a: Action)
    requires Inv(c) && Enabled(c, a)
    requires a.DoStartChat? || a.DoCreate? || a.DoSelect? || a.DoDelete? || a.DoRename? || a.DoPlain?
    ensures Inv(Perform(c, a))
  {
    hide Inv, Issue, Start, Want;
    match a
    case DoStartChat(t, given, sendOk) =>
      if given.Some? && c.link.dead {
        StartKeeps(c, t, ChatJob(given), given.value);
        var d := Start(c, t, ChatJob(given), given.value);
        assert t in d.tasks && d.tasks[t].pc.Starting? by { StartsThere(c, t, ChatJob(given), given.value); }
        PcMoves(d, t, Unwinding(Unsent));
      } else if given.Some? {
        BeginKeeps(c, t, ChatJob(given), given.value, "chat.req", given.value, Chatting, true, sendOk);
      } else {
        BeginKeeps(c, t, ChatJob(None), "", "session.create", "", Creating, false, sendOk);
      }
    case DoCreate(t, sendOk) => BeginKeeps(c, t, CreateJob, "", "session.create", "", Creating, false, sendOk);
    case DoSelect(t, session, sendOk) =>
      BeginKeeps(c, t, SelectJob, session, "session.data", session, Selecting, true, sendOk);
    case DoDelete(t, session, sendOk) =>
      BeginKeeps(c, t, DeleteJob, session, "session.delete", session, Deleting, false, sendOk);
    case DoRename(t, session, sendOk) =>
      BeginKeeps(c, t, RenameJob, session, "session.rename", session, Renaming, false, sendOk);
    case DoPlain(t, kind, sendOk) => BeginKeeps(c, t, PlainJob, "", kind, "", Single, false, sendOk);
  }

  lemma StartsThere(c: Client, t: nat, job: Job, session: string)
    ensures t in Start(c, t, job, session).tasks && Start(c, t, job, session).tasks[t].pc == Starting
  {
  }

  // ---- A coroutine goes on ----

  lemma NextDataKeeps(c: Client, t: nat, rest: seq<string>, sendOk: bool)
    requires Inv(c) && Syncing(c, t) && !c.tasks[t].pc.Await? && !PastChat(c.tasks[t].pc)
    ensures Inv(NextData(c, t, rest, sendOk))
  {
    if rest == [] {
      EndSyncKeeps(c, t);
    } else {
      IssueKeeps(c, t, "session.data", rest[0], SyncData(rest[1..]), sendOk);
    }
  }

  /** A coroutine with its guard standing is at home. */
  lemma AtHome(c: Client, t: nat)
    requires Inv(c) && t in c.tasks && !c.tasks[t].job.SyncJob? && Going(c.tasks[t].pc) && Guard(c, t)
    ensures c.tasks[t].home == c.scope.confirmed
  {
    assert Dependent(c, t);
  }

  lemma DependentAdvanceKeeps(c: Client, t: nat, stage: Stage, reply: Reply, sendOk: bool)
    requires Inv(c) && t in c.tasks && c.tasks[t].pc == Ready(stage, Resolved(reply)) && !Last(stage) && Guard(c, t)
    requires !c.tasks[t].job.SyncJob?
    ensures Inv(Advance(c, t, stage, reply, sendOk))
  {
    AtHome(c, t);
    assert TaskOk(c, t);
    hide Issue, Inv, TaskOk;
    var session := c.tasks[t].session;
    match stage
    case Creating =>
      NamedKeeps(c, t, reply.id);
      var d := c.(tasks := c.tasks[t := c.tasks[t].(session := reply.id)]);
      var scope := Activate(Want(c.scope, reply.id), reply.id);
      QuietKeeps(d, d.link, scope);
      assert d.(link := d.link, scope := scope) == c.(scope := scope, tasks := d.tasks);
      IssueKeeps(d.(scope := scope), t, "session.data", reply.id, Selecting, sendOk);
    case Selecting =>
      PcMoves(c, t, if c.tasks[t].job.SelectJob? then Over else Hop(Selecting));
      var d := SetPc(c, t, if c.tasks[t].job.SelectJob? then Over else Hop(Selecting));
      QuietKeeps(d, d.link, Activate(c.scope, session));
    case Listing => PcMoves(c, t, if c.tasks[t].job.ChatJob? then Hop(Listing) else Over);
    case Deleting =>
      QuietKeeps(c, c.link, Forget(c.scope, session));
      IssueKeeps(c.(scope := Forget(c.scope, session)), t, "session.unsubscribe", session, Unsubscribing, sendOk);
    case Unsubscribing => IssueKeeps(c, t, "session.list", "", Relisting, sendOk);
    case Renaming => IssueKeeps(c, t, "session.list", "", Relisting, sendOk);
    case _ => PcMoves(c, t, Over);
  }

  lemma SyncAdvanceKeeps(c: Client, t: nat, stage: Stage, reply: Reply, sendOk: bool)
    requires Inv(c) && t in c.tasks && c.tasks[t].pc == Ready(stage, Resolved(reply)) && Guard(c, t)
    requires c.tasks[t].job.SyncJob?
    ensures Inv(Advance(c, t, stage, reply, sendOk))
  {
    assert TaskOk(c, t);
    hide Issue, Inv, TaskOk, NextData;
    match stage
    case SyncWorkspace =>
      ConfirmKeeps(c, t, reply.workspace);
      IssueKeeps(c.(scope := c.scope.(desired := reply.workspace, confirmed := reply.workspace)), t, "settings.get",
                 "", SyncSettings, sendOk);
    case SyncSettings => IssueKeeps(c, t, "session.list", "", SyncList, sendOk);
    case SyncList =>
      var scope := FirstActive(c.scope, reply.sessions);
      QuietKeeps(c, c.link, scope);
      NextDataKeeps(c.(scope := scope), t, Restored(scope), sendOk);
    case SyncData(rest) => NextDataKeeps(c, t, rest, sendOk);
    case _ => PcMoves(c, t, Over);
  }

  lemma AfterHopKeeps(c: Client, t: nat, stage: Stage, sendOk: bool)
    requires Inv(c) && t in c.tasks && c.tasks[t].pc == Hop(stage) && Guard(c, t)
    ensures Inv(AfterHop(c, t, stage, sendOk))
  {
    assert TaskOk(c, t);
    AtHome(c, t);
    hide Issue, Inv, TaskOk;
    if stage.Selecting? {
      IssueKeeps(c, t, "session.list", "", Listing, sendOk);
    } else {
      var scope := Want(c.scope, c.tasks[t].session);
      QuietKeeps(c, c.link, scope);
      IssueKeeps(c.(scope := scope), t, "chat.req", c.tasks[t].session, Chatting, sendOk);
    }
  }

  lemma UnwindKeeps(c: Client, t: nat, delivery: Delivery)
    requires Inv(c) && t in c.tasks && c.tasks[t].pc == Unwinding(delivery)
    ensures Inv(Unwind(c, t, delivery))
  {
    PcMoves(c, t, Over);
    var d := SetPc(c, t, Over);
    QuietKeeps(d, Shut(d.link), d.scope);
    if c.tasks[t].job.SyncJob? && c.tasks[t].job.bySet && delivery.Rejected? {
      EndSyncKeeps(c, t);
    }
  }

  lemma ResumeKeeps(c: Client, t: nat, sendOk: bool)
    requires Inv(c) && t in c.tasks && Runnable(c.tasks[t].pc)
    ensures Inv(Resume(c, t, sendOk))
  {
    hide Inv, Advance, AfterHop, Unwind, Guard;
    match c.tasks[t].pc
    case Ready(stage, Refused(delivery)) => PcMoves(c, t, Unwinding(delivery));
    case Ready(stage, Resolved(reply)) =>
      if Last(stage) { PcMoves(c, t, Over); }
      else if !Guard(c, t) { PcMoves(c, t, Unwinding(Unsent)); }
      else if c.tasks[t].job.SyncJob? { SyncAdvanceKeeps(c, t, stage, reply, sendOk); }
      else { DependentAdvanceKeeps(c, t, stage, reply, sendOk); }
    case Hop(stage) =>
      if !Guard(c, t) { PcMoves(c, t, Unwinding(Unsent)); } else { AfterHopKeeps(c, t, stage, sendOk); }
    case Unwinding(delivery) => UnwindKeeps(c, t, delivery);
    case _ =>
  }

  // ---- Events ----

  lemma RejectKeeps(c: Client, link: Link)
    requires Inv(c) && (link.dead || (link.generation == c.link.generation && !c.link.dead && !link.ready))
    requires link.generation >= c.link.generation && !link.authed && (link.socket.Absent? || link.socket.Closed?)
    requires link.dead ==> !link.retry && link.socket.Absent?
    ensures Inv(RejectPending(c.(link := link)))
  {
    var d := RejectPending(c.(link := link));
    assert BookOk(d.book) && LinkOk(d.link, d.book) && DeliveredOk(d.book, d.link) by {
      RejectKeepsBook(c.book, c.link, link);
    }
    hide BookOk, LinkOk, DeliveredOk, SyncOk, ScopeOk, SentOk;
    forall u <- d.tasks ensures TaskOk(d, u) { assert TaskOk(c, u); }
    AwaitIsOver(c, d);
  }

  lemma RejectKeepsBook(b: Book, l: Link, link: Link)
    requires BookOk(b) && LinkOk(l, b) && DeliveredOk(b, l)
    requires !link.authed && (link.socket.Absent? || link.socket.Closed?)
    requires (link.dead ==> !link.retry && link.socket.Absent?)
    ensures var d := Emptied(b);
            BookOk(d) && LinkOk(link, d) && DeliveredOk(d, link)
  {
  }

  /** When the retry timer fires, no coroutine of the old connection is left. */
  lemma NothingLeft(c: Client)
    requires Inv(c) && Idle(c) && !c.link.authed
    ensures forall t <- c.tasks :: c.tasks[t].pc.Over?
  {
    forall t <- c.tasks ensures c.tasks[t].pc.Over? {
      assert TaskOk(c, t) && !Runnable(c.tasks[t].pc);
    }
  }

  lemma ConnectKeeps(c: Client, socketOk: bool)
    requires Inv(c) && Idle(c) && c.link.retry
    ensures Inv(Connect(c, socketOk))
  {
    NothingLeft(c);
    var d := Connect(c, socketOk);
    hide BookOk;
    forall u <- d.tasks ensures TaskOk(d, u) { assert TaskOk(c, u); }
  }

  lemma OpenKeeps(c: Client)
    requires Inv(c) && Idle(c) && c.link.socket.Connecting?
    ensures Inv(c.(link := c.link.(socket := Open)))
  {
    NothingLeft(c);
    var d := c.(link := c.link.(socket := Open));
    hide BookOk;
    forall u <- d.tasks ensures TaskOk(d, u) { assert TaskOk(c, u); }
  }

  lemma DeliveredKeeps(c: Client, id: nat)
    requires Inv(c) && 1 <= id <= c.book.sequence && (id in c.book.pending ==> !c.link.socket.Open?)
    requires forall i | 0 <= i < |c.book.delivered| :: c.book.delivered[i] != id
    ensures Inv(c.(book := c.book.(delivered := c.book.delivered + [id])))
  {
    var d := c.(book := c.book.(delivered := c.book.delivered + [id]));
    assert BookOk(d.book) && LinkOk(d.link, d.book) && DeliveredOk(d.book, d.link);
    hide BookOk, LinkOk, DeliveredOk;
    forall u <- d.tasks ensures TaskOk(d, u) { assert TaskOk(c, u); }
    AwaitIsOver(c, d);
  }

  /** A correlated reply: handed to the handler, then settled; or the handler failed. */
  lemma CorrelatedKeeps(c: Client, id: nat, result: Settled, handled: bool)
    requires Inv(c) && id in c.book.pending && c.link.socket.Open?
    ensures Inv(Settle(c, id, result))
    ensures var b := c.book.(delivered := c.book.delivered + [id]);
            && Inv(Settle(c.(book := b), id, result))
            && Inv(c.(book := b, link := Shut(c.link)))
  {
    assert 1 <= id <= c.book.sequence;
    assert forall i | 0 <= i < |c.book.delivered| :: c.book.delivered[i] != id;
    SettleKeeps(c, id, result);
    var d := Settle(c, id, result);
    assert id !in d.book.pending && d.book.delivered == c.book.delivered && d.book.sequence == c.book.sequence;
    var b := c.book.(delivered := c.book.delivered + [id]);
    assert Settle(c.(book := b), id, result) == d.(book := d.book.(delivered := d.book.delivered + [id]));
    QuietKeeps(c, Shut(c.link), c.scope);
    var e := c.(link := Shut(c.link), scope := c.scope);
    assert !e.link.socket.Open?;
    hide Inv;
    DeliveredKeeps(d, id);
    DeliveredKeeps(e, id);
    assert e.(book := e.book.(delivered := e.book.delivered + [id])) == c.(book := b, link := Shut(c.link));
  }

  lemma AuthorizedKeeps(c: Client)
    requires Inv(c) && Idle(c) && c.link.socket.Open? && !c.link.authed
    ensures Inv(c.(link := c.link.(authed := true))) && !c.link.dead && forall t <- c.tasks :: !Syncing(c, t)
  {
    NothingLeft(c);
    var d := c.(link := c.link.(authed := true));
    hide BookOk;
    forall u <- d.tasks ensures TaskOk(d, u) { assert TaskOk(c, u); }
  }

  lemma ReceiveKeeps(c: Client, m: Incoming, t: nat, handlerOk: bool, sendOk: bool)
    requires Inv(c) && Idle(c) && c.link.socket.Open? && t !in c.tasks
    ensures Inv(Receive(c, m, t, handlerOk, sendOk))
  {
    hide Inv, Synchronize, Settle, Idle;
    QuietKeeps(c, Shut(c.link), c.scope);
    assert c.(link := Shut(c.link), scope := c.scope) == c.(link := Shut(c.link));
    if m.decodes && m.kind == "auth" && m.authOk && !c.link.authed {
      AuthorizedKeeps(c);
      var target := if c.scope.desired != "" then c.scope.desired else m.reply.workspace;
      var d := c.(link := c.link.(authed := true));
      assert forall u <- d.tasks :: !Syncing(d, u) by { assert forall u <- d.tasks :: Syncing(d, u) == Syncing(c, u); }
      SynchronizeKeeps(d, t, false, target, sendOk);
    } else if m.decodes && m.kind != "auth" && m.id.Some? && m.id.value in c.book.pending {
      CorrelatedKeeps(c, m.id.value, if m.kind == "error" then Refused(Rejected) else Resolved(m.reply), handlerOk);
    }
  }

  lemma StepKeeps(c: Client, a: Action)
    requires Inv(c) && Enabled(c, a)
    ensures Inv(Perform(c, a))
  {
    hide Inv, RejectPending, Resume, Receive, Connect, Timeout, SetWorkspace, StartChat, Issue, Start;
    if a.DoStartChat? || a.DoCreate? || a.DoSelect? || a.DoDelete? || a.DoRename? || a.DoPlain? {
      CallKeeps(c, a);
    } else if a.DoResume? {
      ResumeKeeps(c, a.task, a.sendOk);
    } else if a.DoMessage? {
      ReceiveKeeps(c, a.message, a.task, a.handlerOk, a.sendOk);
    } else if a.DoConnect? {
      ConnectKeeps(c, a.socketOk);
    } else if a.DoSocketOpen? {
      OpenKeeps(c);
    } else if a.DoSetWorkspace? {
      SetWorkspaceKeeps(c, a.task, a.target, a.sendOk);
    } else if a.DoTimeout? {
      TimeoutKeeps(c, a.id);
    } else {
      CloseKeeps(c, a);
    }
  }

  lemma CloseKeeps(c: Client, a: Action)
    requires Inv(c) && Enabled(c, a) && (a.DoClose? || a.DoSocketClosed? || a.DoHandshakeFails?)
    ensures Inv(Perform(c, a))
  {
    hide Inv, RejectPending;
    if a.DoClose? {
      RejectKeeps(c, c.link.(dead := true, generation := c.link.generation + 1, authed := false, ready := false,
                             retry := false, socket := Absent));
    } else if a.DoSocketClosed? {
      assert !c.link.dead by { ClosedIsAlive(c); }
      RejectKeeps(c, c.link.(ready := false, authed := false, synchronizing := false, socket := Closed, retry := true));
    } else {
      QuietKeeps(c, Shut(c.link), c.scope);
    }
  }

  lemma ClosedIsAlive(c: Client)
    requires Inv(c) && !c.link.socket.Absent?
    ensures !c.link.dead
  {
  }

  lemma SetWorkspaceKeeps(c: Client, t: nat, target: string, sendOk: bool)
    requires Inv(c) && t !in c.tasks
    ensures Inv(SetWorkspace(c, t, target, sendOk))
  {
    if c.link.ready && !c.link.synchronizing {
      assert c.link.dead || forall u <- c.tasks :: !Syncing(c, u);
      hide Inv, Synchronize;
      SynchronizeKeeps(c, t, true, target, sendOk);
    }
  }

  lemma TimeoutKeeps(c: Client, id: nat)
    requires Inv(c) && id in c.book.timers
    ensures Inv(Timeout(c, id))
  {
    assert id in c.book.pending;
    hide Inv, Settle;
    SettleKeeps(c, id, Refused(Uncertain));
    var d := Settle(c, id, Refused(Uncertain));
    assert d.link == c.link by { SettleKeepsLink(c, id); }
    QuietKeeps(d, Shut(d.link), d.scope);
    assert d.(link := Shut(d.link), scope := d.scope) == d.(link := Shut(d.link));
  }

  lemma SettleKeepsLink(c: Client, id: nat)
    requires id in c.book.pending
    ensures Settle(c, id, Refused(Uncertain)).link == c.link
  {
  }

  // ---- Whole runs ----

  lemma InitialHolds()
    ensures Inv(INITIAL)
  {
  }

  lemma {:induction false} ReachKeeps(actions: seq<Action>)
    ensures Inv(Reach(INITIAL, actions))
  {
    hide Inv, Enabled, Perform;
    if actions == [] {
      InitialHolds();
    } else {
      var init, a := actions[..|actions| - 1], actions[|actions| - 1];
      ReachKeeps(init);
      var c := Reach(INITIAL, init);
      if Enabled(c, a) { StepKeeps(c, a); }
    }
  }

  lemma ReachableHolds(c: Client)
    requires Reachable(c)
    ensures Inv(c)
  {
    hide Inv;
    var actions :| Reach(INITIAL, actions) == c;
    ReachKeeps(actions);
  }

  /** Every request settles at most once, and is settled exactly when it is no longer pending, whatever
      replies, timers, failed sends and closes come in whatever order; its timer is armed exactly while
      it is pending; and its reply reaches the message handler at most once. */
  lemma RequestsSettleOnce(c: Client, id: nat)
    requires Reachable(c)
    ensures var b := c.book;
            && (1 <= id <= b.sequence ==> b.settled[id] == if id in b.pending then 0 else 1)
            && (id == 0 || id > b.sequence ==> b.settled[id] == 0 && id !in b.pending)
            && (id in b.timers <==> id in b.pending)
            && multiset(b.delivered)[id] <= 1
  {
    ReachableHolds(c);
    AtMostOnce(c.book.delivered, id);
  }

  lemma {:induction false} AtMostOnce(ids: seq<nat>, id: nat)
    requires forall i, j | 0 <= i < j < |ids| :: ids[i] != ids[j]
    ensures multiset(ids)[id] <= 1
    decreases |ids|
  {
    if ids != [] {
      var init, last := ids[..|ids| - 1], ids[|ids| - 1];
      AtMostOnce(init, id);
      assert ids == init + [last];
      assert multiset(ids) == multiset(init) + multiset{last};
      assert last !in init;
    }
  }

  /** A reply to a request that is settled, or was never made, changes nothing and reaches nobody. */
  lemma LateRepliesAreInert(c: Client, m: Incoming, t: nat, handlerOk: bool, sendOk: bool)
    requires Reachable(c) && m.decodes && m.kind != "auth" && m.id.Some?
    requires c.book.settled[m.id.value] > 0 || m.id.value == 0 || m.id.value > c.book.sequence
    ensures Step(c, DoMessage(m, t, handlerOk, sendOk)) == c
  {
    ReachableHolds(c);
  }

  /** Every command of a coroutine, the first and the dependent ones, goes out on the connection, in the
      scope and to the workspace in which the coroutine began; and a chat coroutine sends its prompt at
      most once, for the session it was given or the one it created. */
  lemma CommandsStayInScope(c: Client, i: nat, j: nat)
    requires Reachable(c) && i < |c.book.sent| && j < |c.book.sent|
    ensures var e, f := c.book.sent[i], c.book.sent[j];
            && e.task in c.tasks
            && (!c.tasks[e.task].job.SyncJob? ==>
                  e.generation == c.tasks[e.task].generation && e.version == c.tasks[e.task].version
                  && e.workspace == c.tasks[e.task].home)
            && (e.kind == "chat.req" ==>
                  && c.tasks[e.task].job.ChatJob? && e.session == c.tasks[e.task].session
                  && (c.tasks[e.task].job.given.Some? ==> e.session == c.tasks[e.task].job.given.value))
            && (e.kind == "chat.req" && f.kind == "chat.req" && e.task == f.task ==> i == j)
  {
    ReachableHolds(c);
    assert EntryOk(c.book.sent[i], c.tasks);
    assert TaskOk(c, c.book.sent[i].task);
    if i != j && c.book.sent[i].kind == "chat.req" && c.book.sent[j].kind == "chat.req" {
      if i < j { assert c.book.sent[i].task != c.book.sent[j].task; }
      else { assert c.book.sent[j].task != c.book.sent[i].task; }
    }
  }

  /** No coroutine outlives its connection: when a new connection is made, every one is over. */
  lemma NothingOutlivesTheConnection(c: Client, socketOk: bool)
    requires Reachable(c) && Enabled(c, DoConnect(socketOk))
    ensures c.book.pending == map[] && forall t <- c.tasks :: c.tasks[t].pc.Over?
  {
    ReachableHolds(c);
    NothingLeft(c);
  }
}
