/** What the command client gets done when its commands are answered: every coroutine sends its commands in
    order, each to the session it is meant for, and comes to its end. */
module ClientProgress {
  import opened Transcript
  import opened ClientSpec

  /** The coroutine's connection and scope stand, and it may send. */
  predicate Steady(c: Client, t: nat) {
    && t in c.tasks && Guard(c, t) && c.link.authed && c.link.socket.Open?
    && (c.link.ready || c.tasks[t].job.SyncJob?)
  }

  /** The coroutine waits for this request, and nobody else is about to do anything. */
  predicate Waits(c: Client, t: nat, stage: Stage, id: nat) {
    && Steady(c, t) && c.tasks[t].pc == Await(stage, id) && Idle(c)
    && id in c.book.pending && c.book.pending[id].task == t && c.book.pending[id].expected !in {"auth", "error"}
  }

  /** The reply a request waits for. */
  function Answer(c: Client, id: nat, reply: Reply): Incoming
    requires id in c.book.pending
  {
    Incoming(true, c.book.pending[id].expected, Some(id), false, reply)
  }

  /** One exchange: the coroutine's request is answered, and it goes on as far as it can. */
  function Served(c: Client, t: nat, other: nat, reply: Reply): Client {
    if t in c.tasks && c.tasks[t].pc.Await? && c.tasks[t].pc.id in c.book.pending then
      var m := Step(c, DoMessage(Answer(c, c.tasks[t].pc.id, reply), other, true, true));
      Step(Step(m, DoResume(t, true)), DoResume(t, true))
    else c
  }

  /** The next thing the coroutine does is to send this command on the same connection, in the same scope and to
      this workspace, and to wait for its reply. */
  predicate Sends(c: Client, d: Client, t: nat, kind: string, session: string, workspace: string, stage: Stage) {
    var id := c.book.sequence + 1;
    && d.link == c.link && d.scope.version == c.scope.version && d.scope.confirmed == workspace
    && d.book.sequence == id && Waits(d, t, stage, id)
    && d.book.sent == c.book.sent + [Sent(id, t, kind, session, c.link.generation, c.scope.version, workspace)]
    && d.book.pending[id].expected == (if kind == "chat.req" then "session.data" else kind)
  }

  predicate Ends(c: Client, d: Client, t: nat) {
    && d.link == c.link && d.scope.version == c.scope.version && d.scope.confirmed == c.scope.confirmed
    && t in d.tasks && d.tasks[t].pc.Over? && d.book.sent == c.book.sent && Idle(d)
  }

  /** The reply a request waits for settles it, stops its timer, is handed on once, and lets its coroutine go on
      with it. */
  lemma ReplyArrives(c: Client, t: nat, stage: Stage, id: nat, other: nat, reply: Reply)
    requires Waits(c, t, stage, id) && other !in c.tasks
    ensures var b := c.book;
            Step(c, DoMessage(Answer(c, id, reply), other, true, true)) ==
            c.(book := b.(pending := b.pending - {id}, timers := b.timers - {id},
                          settled := b.settled + multiset{id}, delivered := b.delivered + [id]),
               tasks := c.tasks[t := c.tasks[t].(pc := Ready(stage, Resolved(reply)))])
  {
  }

  lemma IssueSends(c: Client, t: nat, kind: string, session: string, stage: Stage)
    requires Steady(c, t) && kind !in {"auth", "error"} && kind != "session.subscribe"
    requires forall u <- c.tasks :: u != t ==> !Runnable(c.tasks[u].pc)
    ensures Sends(c, Issue(c, t, kind, session, stage, true), t, kind, session, c.scope.confirmed, stage)
    ensures var d := Issue(c, t, kind, session, stage, true);
            d.scope == c.scope && d.tasks == c.tasks[t := d.tasks[t]] && d.tasks[t] == c.tasks[t].(pc := d.tasks[t].pc)
  {
  }

  /** The client once the reply has come: only this coroutine can go on. */
  predicate Replied(c: Client, d: Client, t: nat, stage: Stage, reply: Reply) {
    && d.link == c.link && d.scope == c.scope && d.book.sent == c.book.sent && d.book.sequence == c.book.sequence
    && t in c.tasks && d.tasks == c.tasks[t := c.tasks[t].(pc := Ready(stage, Resolved(reply)))]
    && Steady(d, t) && forall u <- d.tasks :: u != t ==> !Runnable(d.tasks[u].pc)
  }

  lemma GoesOn(c: Client, t: nat, stage: Stage, id: nat, other: nat, reply: Reply) returns (m: Client)
    requires Waits(c, t, stage, id) && other !in c.tasks
    ensures Replied(c, m, t, stage, reply)
    ensures Served(c, t, other, reply) == Step(Step(m, DoResume(t, true)), DoResume(t, true))
  {
    m := Step(c, DoMessage(Answer(c, id, reply), other, true, true));
    ReplyArrives(c, t, stage, id, other, reply);
    hide Step;
  }

  /** A coroutine that can go on does, and one that waits or is over does not. */
  lemma Resumes(c: Client, t: nat)
    requires t in c.tasks
    ensures Step(c, DoResume(t, true)) == if Runnable(c.tasks[t].pc) then Resume(c, t, true) else c
  {
    hide Resume;
  }

  /** A command that is sent from here is the last thing that happens before its reply. */
  lemma SendsAndWaits(c: Client, m: Client, n: Client, t: nat, kind: string, session: string, stage: Stage)
    requires m.link == c.link && m.book.sent == c.book.sent && m.book.sequence == c.book.sequence
    requires m.scope.version == c.scope.version && Steady(m, t) && n == Issue(m, t, kind, session, stage, true)
    requires kind !in {"auth", "error"} && kind != "session.subscribe"
    requires forall u <- m.tasks :: u != t ==> !Runnable(m.tasks[u].pc)
    ensures Sends(c, n, t, kind, session, m.scope.confirmed, stage)
    ensures n.scope == m.scope && n.tasks.Keys == m.tasks.Keys
    ensures n.tasks[t].job == m.tasks[t].job && n.tasks[t].session == m.tasks[t].session
    ensures Step(n, DoResume(t, true)) == n
  {
    IssueSends(m, t, kind, session, stage);
    hide Issue;
    Resumes(n, t);
  }

  /** createSession, and startChat without a session: the new session is wanted and active, and asked for. */
  lemma CreatingGoesOn(c: Client, t: nat, id: nat, other: nat, reply: Reply)
    requires Waits(c, t, Creating, id) && other !in c.tasks
    ensures var d := Served(c, t, other, reply);
            && Sends(c, d, t, "session.data", reply.id, c.scope.confirmed, Selecting)
            && d.tasks.Keys == c.tasks.Keys && d.tasks[t].job == c.tasks[t].job && d.tasks[t].session == reply.id
            && d.scope == Activate(Want(c.scope, reply.id), reply.id)
  {
    hide Step, Issue, Want, Sends;
    var m := GoesOn(c, t, Creating, id, other, reply);
    Resumes(m, t);
    var n := m.(scope := Activate(Want(m.scope, reply.id), reply.id),
                tasks := m.tasks[t := m.tasks[t].(session := reply.id)]);
    ScopeKept(m.scope, reply.id);
    SendsAndWaits(c, n, Issue(n, t, "session.data", reply.id, Selecting, true), t, "session.data", reply.id, Selecting);
  }

  lemma ScopeKept(s: Scope, id: string)
    ensures var w := Want(s, id); w.version == s.version && w.confirmed == s.confirmed && w.active == s.active
    ensures var f := Forget(s, id); f.version == s.version && f.confirmed == s.confirmed
  {
    hide Desired, Removing;
  }

  /** selectSession: the session becomes the active one; as part of createSession the list is asked for next. */
  lemma SelectingGoesOn(c: Client, t: nat, id: nat, other: nat, reply: Reply)
    requires Waits(c, t, Selecting, id) && other !in c.tasks
    ensures var d := Served(c, t, other, reply);
            && d.tasks.Keys == c.tasks.Keys && d.tasks[t].job == c.tasks[t].job
            && d.tasks[t].session == c.tasks[t].session && d.scope == Activate(c.scope, c.tasks[t].session)
            && if c.tasks[t].job.SelectJob? then Ends(c, d, t)
               else Sends(c, d, t, "session.list", "", c.scope.confirmed, Listing)
  {
    hide Step, Issue, Sends;
    var m := GoesOn(c, t, Selecting, id, other, reply);
    Resumes(m, t);
    var n := Resume(m, t, true);
    Resumes(n, t);
    if !c.tasks[t].job.SelectJob? {
      SendsAndWaits(c, n, Issue(n, t, "session.list", "", Listing, true), t, "session.list", "", Listing);
    }
  }

  /** createSession is over, and startChat sends its prompt to the session that was created. */
  lemma ListingGoesOn(c: Client, t: nat, id: nat, other: nat, reply: Reply)
    requires Waits(c, t, Listing, id) && other !in c.tasks
    ensures var d := Served(c, t, other, reply);
            && d.tasks.Keys == c.tasks.Keys && d.tasks[t].job == c.tasks[t].job
            && if !c.tasks[t].job.ChatJob? then Ends(c, d, t)
               else Sends(c, d, t, "chat.req", c.tasks[t].session, c.scope.confirmed, Chatting)
  {
    hide Step, Issue, Want, Sends;
    var m := GoesOn(c, t, Listing, id, other, reply);
    Resumes(m, t);
    var n := Resume(m, t, true);
    Resumes(n, t);
    if c.tasks[t].job.ChatJob? {
      var session := c.tasks[t].session;
      ScopeKept(n.scope, session);
      var w := n.(scope := Want(n.scope, session));
      SendsAndWaits(c, w, Issue(w, t, "chat.req", session, Chatting, true), t, "chat.req", session, Chatting);
    }
  }

  /** Deleting a session: it is no longer wanted nor active, it is unsubscribed, and the list is asked for. */
  lemma DeletingGoesOn(c: Client, t: nat, stage: Stage, id: nat, other: nat, reply: Reply)
    requires stage.Deleting? || stage.Unsubscribing? || stage.Renaming?
    requires Waits(c, t, stage, id) && other !in c.tasks
    ensures var d := Served(c, t, other, reply);
            && d.tasks.Keys == c.tasks.Keys && d.tasks[t].job == c.tasks[t].job
            && (stage.Deleting? ==>
                  && Sends(c, d, t, "session.unsubscribe", c.tasks[t].session, c.scope.confirmed, Unsubscribing)
                  && d.scope == Forget(c.scope, c.tasks[t].session))
            && (!stage.Deleting? ==>
                  && Sends(c, d, t, "session.list", "", c.scope.confirmed, Relisting)
                  && d.scope == c.scope)
  {
    hide Step, Issue, Forget, Sends;
    var m := GoesOn(c, t, stage, id, other, reply);
    Resumes(m, t);
    var session := c.tasks[t].session;
    ScopeKept(m.scope, session);
    if stage.Deleting? {
      var n := m.(scope := Forget(m.scope, session));
      SendsAndWaits(c, n, Issue(n, t, "session.unsubscribe", session, Unsubscribing, true), t, "session.unsubscribe",
                    session, Unsubscribing);
    } else {
      SendsAndWaits(c, m, Issue(m, t, "session.list", "", Relisting, true), t, "session.list", "", Relisting);
    }
  }

  /** The last reply of a coroutine ends it. */
  lemma LastGoesOn(c: Client, t: nat, stage: Stage, id: nat, other: nat, reply: Reply)
    requires stage.Chatting? || stage.Single? || stage.Relisting?
    requires Waits(c, t, stage, id) && other !in c.tasks
    ensures Ends(c, Served(c, t, other, reply), t)
  {
    hide Step, Served;
    var m := GoesOn(c, t, stage, id, other, reply);
    Resumes(m, t);
    Resumes(SetPc(m, t, Over), t);
  }

  // ---- Calls ----

  predicate CanCall(c: Client) { !c.link.dead && c.link.ready && c.link.authed && c.link.socket.Open? && Idle(c) }

  /** The first command of a call, with the session it is about. */
  function FirstCommand(a: Action): Option<(string, string, Stage)> {
    match a
    case DoStartChat(_, given, _) =>
      if given.Some? then Some(("chat.req", given.value, Chatting)) else Some(("session.create", "", Creating))
    case DoCreate(_, _) => Some(("session.create", "", Creating))
    case DoSelect(_, session, _) => Some(("session.data", session, Selecting))
    case DoDelete(_, session, _) => Some(("session.delete", session, Deleting))
    case DoRename(_, session, _) => Some(("session.rename", session, Renaming))
    case DoPlain(_, kind, _) => Some((kind, "", Single))
    case _ => None
  }

  predicate IsCall(a: Action) {
    a.DoStartChat? || a.DoCreate? || a.DoSelect? || a.DoDelete? || a.DoRename?
    || (a.DoPlain? && a.kind !in {"auth", "error", "session.subscribe"})
  }

  /** A call of a ready client sends its first command at once; a call of a client that is not ready sends
      nothing, and its caller is told so. */
  lemma CallGoesOut(c: Client, a: Action)
    requires IsCall(a) && Enabled(c, a) && a.sendOk
    ensures CanCall(c) ==>
              var (kind, session, stage) := FirstCommand(a).value;
              && Sends(c, Step(c, a), a.task, kind, session, c.scope.confirmed, stage)
              && (a.DoStartChat? ==> Step(c, a).tasks[a.task].job == ChatJob(a.given))
              && Step(c, a).scope ==
                 if a.DoSelect? || (a.DoStartChat? && a.given.Some?) then Want(c.scope, session) else c.scope
    ensures !c.link.ready ==>
              && Step(c, a).book == c.book && a.task in Step(c, a).tasks
              && Step(c, a).tasks[a.task].pc == Unwinding(Unsent)
  {
    hide Sends, Issue, Want, Idle;
    var t := a.task;
    if CanCall(c) {
      var (kind, session, stage) := FirstCommand(a).value;
      var n := Begun(c, a);
      BegunIsSteady(c, a);
      SendsAndWaits(c, n, Issue(n, t, kind, session, stage, true), t, kind, session, stage);
    }
    if !c.link.ready { NotSent(c, a); }
  }

  /** The client when the call's coroutine has started. */
  function Begun(c: Client, a: Action): Client
    requires IsCall(a)
  {
    match a
    case DoStartChat(t, given, _) =>
      if given.Some? then Start(c, t, ChatJob(given), given.value).(scope := Want(c.scope, given.value))
      else Start(c, t, ChatJob(None), "")
    case DoCreate(t, _) => Start(c, t, CreateJob, "")
    case DoSelect(t, session, _) => Start(c, t, SelectJob, session).(scope := Want(c.scope, session))
    case DoDelete(t, session, _) => Start(c, t, DeleteJob, session)
    case DoRename(t, session, _) => Start(c, t, RenameJob, session)
    case DoPlain(t, _, _) => Start(c, t, PlainJob, "")
  }

  lemma BegunIsSteady(c: Client, a: Action)
    requires IsCall(a) && Enabled(c, a) && CanCall(c) && a.sendOk
    ensures var n := Begun(c, a);
            var (kind, session, stage) := FirstCommand(a).value;
            && Steady(n, a.task) && n.link == c.link && n.book == c.book
            && n.scope.version == c.scope.version && n.scope.confirmed == c.scope.confirmed
            && n.scope == (if a.DoSelect? || (a.DoStartChat? && a.given.Some?) then Want(c.scope, session) else c.scope)
            && (forall u <- n.tasks :: u != a.task ==> !Runnable(n.tasks[u].pc))
            && n.tasks[a.task].version == c.scope.version
            && Step(c, a) == Issue(n, a.task, kind, session, stage, true)
  {
    hide Issue, Desired;
  }

  lemma NotSent(c: Client, a: Action)
    requires IsCall(a) && Enabled(c, a) && !c.link.ready
    ensures var d := Step(c, a); d.book == c.book && a.task in d.tasks && d.tasks[a.task].pc == Unwinding(Unsent)
  {
  }

  function AllServed(c: Client, t: nat, other: nat, replies: seq<Reply>): Client {
    if replies == [] then c
    else Served(AllServed(c, t, other, replies[..|replies| - 1]), t, other, replies[|replies| - 1])
  }

  lemma FourServed(c: Client, t: nat, other: nat, r: seq<Reply>)
    requires |r| == 4
    ensures AllServed(c, t, other, r) ==
            Served(Served(Served(Served(c, t, other, r[0]), t, other, r[1]), t, other, r[2]), t, other, r[3])
  {
    hide Served;
    var r3, r2, r1 := r[..3], r[..2], r[..1];
    assert r3[..2] == r2 && r2[..1] == r1 && r1[..0] == [];
    assert AllServed(c, t, other, r1) == Served(AllServed(c, t, other, []), t, other, r[0]);
    assert AllServed(c, t, other, r2) == Served(AllServed(c, t, other, r1), t, other, r[1]);
    assert AllServed(c, t, other, r3) == Served(AllServed(c, t, other, r2), t, other, r[2]);
  }

  /** startChat without a session, from the call to its end, when every command is answered: it creates a
      session, asks for it, asks for the list, and sends its one prompt to the session it created. */
  lemma NewChatGoesThrough(c: Client, t: nat, other: nat, r: seq<Reply>)
    requires CanCall(c) && t !in c.tasks && other !in c.tasks && other != t && |r| == 4
    ensures var d := AllServed(Step(c, DoStartChat(t, None, true)), t, other, r);
            && t in d.tasks && d.tasks[t].pc.Over?
            && d.book.sent == c.book.sent
               + Prompted(c.book.sequence, t, r[0].id, c.link.generation, c.scope.version, c.scope.confirmed)
  {
    hide Enabled, Perform, Step, Served, AllServed, CanCall, Waits, Sends, Ends, Prompted;
    var a := DoStartChat(t, None, true);
    var c1 := Step(c, a);
    FourServed(c1, t, other, r);
    ChatBegins(c, t);
    NewSession(c1, t, c.book.sequence + 1, other, r[0], r[1]);
    var c3 := Served(Served(c1, t, other, r[0]), t, other, r[1]);
    FirstPrompt(c3, t, c.book.sequence + 3, other, r[2], r[3]);
    Joined(c.book.sent, c.book.sequence, t, r[0].id, c.link.generation, c.scope.version, c.scope.confirmed);
  }

  lemma Joined(before: seq<Sent>, n: nat, t: nat, session: string, generation: nat, version: nat, workspace: string)
    ensures before + [Sent(n + 1, t, "session.create", "", generation, version, workspace)]
            + [Sent(n + 2, t, "session.data", session, generation, version, workspace),
               Sent(n + 3, t, "session.list", "", generation, version, workspace)]
            + [Sent(n + 4, t, "chat.req", session, generation, version, workspace)]
            == before + Prompted(n, t, session, generation, version, workspace)
  {
  }

  lemma ChatBegins(c: Client, t: nat)
    requires CanCall(c) && t !in c.tasks
    ensures var d := Step(c, DoStartChat(t, None, true));
            && Waits(d, t, Creating, c.book.sequence + 1) && d.book.sequence == c.book.sequence + 1
            && d.link == c.link && d.scope.version == c.scope.version && d.scope.confirmed == c.scope.confirmed
            && t in d.tasks && d.tasks[t].job.ChatJob? && d.tasks.Keys == c.tasks.Keys + {t}
            && d.book.sent == c.book.sent + [Sent(c.book.sequence + 1, t, "session.create", "", c.link.generation,
                                                  c.scope.version, c.scope.confirmed)]
  {
    hide Step, Enabled, CanCall, Waits, Sends;
    var a := DoStartChat(t, None, true);
    NewTask(c, a);
    CallGoesOut(c, a);
    SendsMeans(c, Step(c, a), t, "session.create", "", c.scope.confirmed, Creating);
  }

  lemma NewSession(c: Client, t: nat, id: nat, other: nat, created: Reply, data: Reply)
    requires Waits(c, t, Creating, id) && id == c.book.sequence && other !in c.tasks && c.tasks[t].job.ChatJob?
    ensures var d := Served(Served(c, t, other, created), t, other, data);
            && Waits(d, t, Listing, id + 2) && d.book.sequence == id + 2 && d.link == c.link
            && d.scope.version == c.scope.version && d.scope.confirmed == c.scope.confirmed
            && d.tasks.Keys == c.tasks.Keys && d.tasks[t].job.ChatJob? && d.tasks[t].session == created.id
            && d.book.sent == c.book.sent
               + [Sent(id + 1, t, "session.data", created.id, c.link.generation, c.scope.version, c.scope.confirmed),
                  Sent(id + 2, t, "session.list", "", c.link.generation, c.scope.version, c.scope.confirmed)]
  {
    hide Served, Waits, Sends;
    CreatingGoesOn(c, t, id, other, created);
    var m := Served(c, t, other, created);
    SendsMeans(c, m, t, "session.data", created.id, c.scope.confirmed, Selecting);
    SelectingGoesOn(m, t, id + 1, other, data);
    SendsMeans(m, Served(m, t, other, data), t, "session.list", "", c.scope.confirmed, Listing);
  }

  lemma FirstPrompt(c: Client, t: nat, id: nat, other: nat, list: Reply, accepted: Reply)
    requires Waits(c, t, Listing, id) && id == c.book.sequence && other !in c.tasks && c.tasks[t].job.ChatJob?
    ensures var d := Served(Served(c, t, other, list), t, other, accepted);
            && t in d.tasks && d.tasks[t].pc.Over?
            && d.book.sent == c.book.sent + [Sent(id + 1, t, "chat.req", c.tasks[t].session, c.link.generation,
                                                  c.scope.version, c.scope.confirmed)]
  {
    WaitsHere(c, t, Listing, id);
    var session := c.tasks[t].session;
    hide Served, Waits, Sends, Ends;
    ListingGoesOn(c, t, id, other, list);
    var m := Served(c, t, other, list);
    SendsMeans(c, m, t, "chat.req", session, c.scope.confirmed, Chatting);
    LastGoesOn(m, t, Chatting, id + 1, other, accepted);
    EndsMeans(m, Served(m, t, other, accepted), t);
  }

  lemma SendsMeans(c: Client, d: Client, t: nat, kind: string, session: string, workspace: string, stage: Stage)
    requires Sends(c, d, t, kind, session, workspace, stage)
    ensures var id := c.book.sequence + 1;
            && d.link == c.link && d.scope.version == c.scope.version && d.scope.confirmed == workspace
            && d.book.sequence == id && Waits(d, t, stage, id) && t in d.tasks
            && d.book.sent == c.book.sent + [Sent(id, t, kind, session, c.link.generation, c.scope.version, workspace)]
  {
  }

  lemma EndsMeans(c: Client, d: Client, t: nat)
    requires Ends(c, d, t)
    ensures t in d.tasks && d.tasks[t].pc.Over? && d.book.sent == c.book.sent
  {
  }

  lemma NewTask(c: Client, a: Action)
    requires a.DoStartChat? && a.task !in c.tasks
    ensures Enabled(c, a) && Step(c, a).tasks.Keys == c.tasks.Keys + {a.task}
  {
  }

  /** The four commands of a chat with a new session. */
  function Prompted(n: nat, t: nat, session: string, generation: nat, version: nat, workspace: string): seq<Sent> {
    [Sent(n + 1, t, "session.create", "", generation, version, workspace),
     Sent(n + 2, t, "session.data", session, generation, version, workspace),
     Sent(n + 3, t, "session.list", "", generation, version, workspace),
     Sent(n + 4, t, "chat.req", session, generation, version, workspace)]
  }

  // ---- Synchronization ----

  /** The client is ready again, and nothing else has changed since. */
  predicate Settles(c: Client, d: Client, t: nat) {
    && d.link == c.link.(ready := true, synchronizing := false) && d.scope == c.scope && d.book.sent == c.book.sent
    && t in d.tasks && d.tasks[t].pc.Over?
  }

  /** The sessions that are still to be restored, or readiness. */
  predicate Restores(c: Client, d: Client, t: nat, scope: Scope, rest: seq<string>) {
    if rest == [] then Settles(c.(scope := scope), d, t)
    else
      && Sends(c.(scope := scope), d, t, "session.data", rest[0], scope.confirmed, SyncData(rest[1..]))
      && d.scope == scope
  }

  lemma NextDataRestores(c: Client, m: Client, t: nat, rest: seq<string>)
    requires t in m.tasks && Steady(m, t) && m.tasks[t].job.SyncJob? && m.link == c.link && m.book.sent == c.book.sent
    requires m.book.sequence == c.book.sequence && m.scope.version == c.scope.version
    requires forall u <- m.tasks :: u != t ==> !Runnable(m.tasks[u].pc)
    ensures var d := NextData(m, t, rest, true);
            && Restores(c, d, t, m.scope, rest) && d.tasks.Keys == m.tasks.Keys && d.tasks[t].job == m.tasks[t].job
            && Step(d, DoResume(t, true)) == d
  {
    hide Step, Issue, Sends, Steady;
    var d := NextData(m, t, rest, true);
    if rest == [] { Resumes(d, t); }
    else {
      SendsAndWaits(c.(scope := m.scope), m, Issue(m, t, "session.data", rest[0], SyncData(rest[1..]), true), t,
                    "session.data", rest[0], SyncData(rest[1..]));
    }
  }

  /** Each answered step of a synchronization leads to the next: the workspace that was confirmed becomes the
      client's, then the settings and the list are asked for, then the sessions are restored one by one. */
  lemma SyncGoesOn(c: Client, t: nat, stage: Stage, id: nat, other: nat, reply: Reply)
    requires stage.SyncWorkspace? || stage.SyncSettings? || stage.SyncList? || stage.SyncData?
    requires Waits(c, t, stage, id) && other !in c.tasks && c.tasks[t].job.SyncJob?
    ensures var d := Served(c, t, other, reply);
            && d.tasks.Keys == c.tasks.Keys && d.tasks[t].job == c.tasks[t].job
            && match stage
               case SyncWorkspace =>
                 && Sends(c, d, t, "settings.get", "", reply.workspace, SyncSettings)
                 && d.scope == c.scope.(desired := reply.workspace, confirmed := reply.workspace)
               case SyncSettings =>
                 Sends(c, d, t, "session.list", "", c.scope.confirmed, SyncList) && d.scope == c.scope
               case SyncList =>
                 var scope := FirstActive(c.scope, reply.sessions); Restores(c, d, t, scope, Restored(scope))
               case SyncData(rest) => Restores(c, d, t, c.scope, rest)
               case _ => true
  {
    hide Step, Issue, Sends, Served, Restored, FirstActive, Restores, NextData;
    var m := GoesOn(c, t, stage, id, other, reply);
    Resumes(m, t);
    match stage
    case SyncWorkspace =>
      var n := m.(scope := m.scope.(desired := reply.workspace, confirmed := reply.workspace));
      SendsAndWaits(c, n, Issue(n, t, "settings.get", "", SyncSettings, true), t, "settings.get", "", SyncSettings);
    case SyncSettings =>
      SendsAndWaits(c, m, Issue(m, t, "session.list", "", SyncList, true), t, "session.list", "", SyncList);
    case SyncList =>
      FirstActiveKeeps(m.scope, reply.sessions);
      var n := m.(scope := FirstActive(m.scope, reply.sessions));
      NextDataRestores(c, n, t, Restored(n.scope));
    case SyncData(rest) => NextDataRestores(c, m, t, rest);
  }

  lemma FirstActiveKeeps(s: Scope, sessions: seq<string>)
    ensures var f := FirstActive(s, sessions); f.version == s.version && f.confirmed == s.confirmed
  {
    hide Desired;
  }

  /** The commands that restore these sessions, one for each and in order. */
  function Restoring(n: nat, t: nat, rest: seq<string>, generation: nat, version: nat, workspace: string): seq<Sent>
    decreases |rest|
  {
    if rest == [] then []
    else [Sent(n + 1, t, "session.data", rest[0], generation, version, workspace)]
         + Restoring(n + 1, t, rest[1..], generation, version, workspace)
  }

  lemma {:induction false} ServedFirst(c: Client, t: nat, other: nat, reply: Reply, rest: seq<Reply>)
    ensures AllServed(c, t, other, [reply] + rest) == AllServed(Served(c, t, other, reply), t, other, rest)
    decreases |rest|
  {
    hide Served;
    var all := [reply] + rest;
    if rest == [] {
      assert all == [reply] && all[..0] == [];
    } else {
      assert all[..|all| - 1] == [reply] + rest[..|rest| - 1];
      ServedFirst(c, t, other, reply, rest[..|rest| - 1]);
    }
  }

  lemma {:induction false} RestoringGoesThrough(c: Client, t: nat, id: nat, rest: seq<string>, other: nat,
                                                replies: seq<Reply>)
    requires Waits(c, t, SyncData(rest), id) && id == c.book.sequence && other !in c.tasks && c.tasks[t].job.SyncJob?
    requires |replies| == |rest| + 1
    ensures var d := AllServed(c, t, other, replies);
            && d.link == c.link.(ready := true, synchronizing := false) && d.scope == c.scope
            && t in d.tasks && d.tasks[t].pc.Over?
            && d.book.sent == c.book.sent
               + Restoring(id, t, rest, c.link.generation, c.scope.version, c.scope.confirmed)
    decreases |rest|
  {
    hide Served, AllServed, Waits, Sends;
    assert t in c.tasks by { WaitsHere(c, t, SyncData(rest), id); }
    SyncGoesOn(c, t, SyncData(rest), id, other, replies[0]);
    var d := Served(c, t, other, replies[0]);
    assert replies == [replies[0]] + replies[1..];
    ServedFirst(c, t, other, replies[0], replies[1..]);
    if rest == [] {
      NoneServed(d, t, other);
    } else {
      SendsMeans(c, d, t, "session.data", rest[0], c.scope.confirmed, SyncData(rest[1..]));
      RestoringGoesThrough(d, t, id + 1, rest[1..], other, replies[1..]);
    }
  }

  lemma WaitsHere(c: Client, t: nat, stage: Stage, id: nat)
    requires Waits(c, t, stage, id)
    ensures t in c.tasks
  {
  }

  lemma NoneServed(c: Client, t: nat, other: nat)
    ensures AllServed(c, t, other, []) == c
  {
  }

  /** A synchronization whose commands are all answered ends with a ready client in the confirmed workspace,
      and has asked for the workspace, the settings, the list, and each session to restore, in this order. */
  lemma SynchronizationCompletes(c: Client, t: nat, other: nat, workspace: Reply, settings: Reply, list: Reply,
                                 replies: seq<Reply>)
    requires Waits(c, t, SyncWorkspace, c.book.sequence) && other !in c.tasks && c.tasks[t].job.SyncJob?
    requires var ws := workspace.workspace;
             var s := FirstActive(c.scope.(desired := ws, confirmed := ws), list.sessions);
             |replies| == |Restored(s)|
    ensures var d := AllServed(c, t, other, [workspace, settings, list] + replies);
            var (generation, version, ws) := (c.link.generation, c.scope.version, workspace.workspace);
            var s := FirstActive(c.scope.(desired := ws, confirmed := ws), list.sessions);
            var n := c.book.sequence;
            && d.link == c.link.(ready := true, synchronizing := false) && d.scope == s
            && t in d.tasks && d.tasks[t].pc.Over?
            && d.book.sent == c.book.sent
               + [Sent(n + 1, t, "settings.get", "", generation, version, ws),
                  Sent(n + 2, t, "session.list", "", generation, version, ws)]
               + Restoring(n + 2, t, Restored(s), generation, version, ws)
  {
    hide Served, AllServed, Waits, Sends, FirstActive, Restored;
    var n := c.book.sequence;
    assert t in c.tasks by { WaitsHere(c, t, SyncWorkspace, n); }
    assert [workspace, settings, list] + replies == [workspace] + ([settings] + ([list] + replies));
    ServedFirst(c, t, other, workspace, [settings] + ([list] + replies));
    SyncGoesOn(c, t, SyncWorkspace, n, other, workspace);
    var c1 := Served(c, t, other, workspace);
    SendsMeans(c, c1, t, "settings.get", "", workspace.workspace, SyncSettings);
    ServedFirst(c1, t, other, settings, [list] + replies);
    SyncGoesOn(c1, t, SyncSettings, n + 1, other, settings);
    var c2 := Served(c1, t, other, settings);
    SendsMeans(c1, c2, t, "session.list", "", workspace.workspace, SyncList);
    ListRestores(c2, t, n + 2, other, list, replies);
  }

  lemma ListRestores(c: Client, t: nat, id: nat, other: nat, list: Reply, replies: seq<Reply>)
    requires Waits(c, t, SyncList, id) && id == c.book.sequence && other !in c.tasks && c.tasks[t].job.SyncJob?
    requires |replies| == |Restored(FirstActive(c.scope, list.sessions))|
    ensures var d := AllServed(c, t, other, [list] + replies);
            var s := FirstActive(c.scope, list.sessions);
            && d.link == c.link.(ready := true, synchronizing := false) && d.scope == s
            && t in d.tasks && d.tasks[t].pc.Over?
            && d.book.sent == c.book.sent
               + Restoring(id, t, Restored(s), c.link.generation, c.scope.version, c.scope.confirmed)
  {
    hide Served, AllServed, Waits, Sends, FirstActive, Restored;
    assert t in c.tasks by { WaitsHere(c, t, SyncList, id); }
    ServedFirst(c, t, other, list, replies);
    SyncGoesOn(c, t, SyncList, id, other, list);
    var s := FirstActive(c.scope, list.sessions);
    FirstActiveKeeps(c.scope, list.sessions);
    var d, rest := Served(c, t, other, list), Restored(s);
    if rest == [] {
      NoneServed(d, t, other);
    } else {
      SendsMeans(c.(scope := s), d, t, "session.data", rest[0], s.confirmed, SyncData(rest[1..]));
      RestoringGoesThrough(d, t, id + 1, rest[1..], other, replies);
    }
  }

  /** What is restored: the active session first, and every wanted session once. */
  lemma RestoredMeans(s: Scope, id: string)
    requires forall i, j :: 0 <= i < j < |Desired(s)| ==> Desired(s)[i] != Desired(s)[j]
    ensures var all := Restored(s);
            var active := if s.confirmed in s.active then s.active[s.confirmed] else "";
            && (active != "" ==> all != [] && all[0] == active)
            && (id in all <==> id in Desired(s) || (active != "" && id == active))
            && multiset(all)[id] <= 1
  {
    RemovingMeans(Desired(s), if s.confirmed in s.active then s.active[s.confirmed] else "", id);
    Once(Desired(s), id);
    if s.confirmed in s.active && s.active[s.confirmed] != "" {
      var active := s.active[s.confirmed];
      assert multiset(Restored(s)) == multiset{active} + multiset(Removing(Desired(s), active));
    }
  }

  lemma {:induction false} RemovingMeans(ids: seq<string>, gone: string, id: string)
    ensures multiset(Removing(ids, gone))[id] == if id == gone then 0 else multiset(ids)[id]
    ensures id in Removing(ids, gone) <==> id in ids && id != gone
  {
    if ids != [] {
      RemovingMeans(ids[1..], gone, id);
      assert ids == [ids[0]] + ids[1..];
      assert multiset(ids) == multiset{ids[0]} + multiset(ids[1..]);
      assert multiset(Removing(ids, gone)) ==
             (if ids[0] == gone then multiset{} else multiset{ids[0]}) + multiset(Removing(ids[1..], gone));
    }
  }

  lemma {:induction false} Once(ids: seq<string>, id: string)
    requires forall i, j :: 0 <= i < j < |ids| ==> ids[i] != ids[j]
    ensures multiset(ids)[id] <= 1
    decreases |ids|
  {
    if ids != [] {
      Once(ids[1..], id);
      assert ids == [ids[0]] + ids[1..];
      assert multiset(ids) == multiset{ids[0]} + multiset(ids[1..]);
      assert forall k :: 0 <= k < |ids[1..]| ==> ids[1..][k] == ids[k + 1] != ids[0];
    }
  }

  /** Where no session is active the first one of the list becomes active and wanted; otherwise nothing changes. */
  lemma FirstActiveMeans(s: Scope, sessions: seq<string>)
    ensures var f := FirstActive(s, sessions);
            if s.confirmed in s.active || sessions == [] then f == s
            else f.active == s.active[s.confirmed := sessions[0]] && sessions[0] in Desired(f)
                 && f == s.(active := f.active, subscriptions := s.subscriptions[s.confirmed := Desired(f)])
  {
  }

  /** A session that is wanted is among the wanted ones, once; a deleted one is neither wanted nor active. */
  lemma WantMeans(s: Scope, id: string, x: string)
    ensures var w := Desired(Want(s, id));
            && (x in w <==> x in Desired(s) || x == id)
            && multiset(w)[id] == (if id in Desired(s) then multiset(Desired(s))[id] else 1)
            && Want(s, id).active == s.active
    ensures Activate(s, id) == s.(active := s.active[s.confirmed := id])
    ensures var f := Forget(s, id);
            && (x in Desired(f) <==> x in Desired(s) && x != id)
            && (s.confirmed in f.active ==> f.active[s.confirmed] != id)
  {
    RemovingMeans(Desired(s), id, x);
    var w := Desired(Want(s, id));
    if id !in Desired(s) {
      assert w == Desired(s) + [id];
      assert multiset(w) == multiset(Desired(s)) + multiset{id};
    }
  }

  /** A good authentication begins a synchronization at once: in a new scope, to the workspace that was wanted, or
      to the engine's own. */
  lemma AuthenticationBegins(c: Client, m: Incoming, t: nat, handlerOk: bool)
    requires Enabled(c, DoMessage(m, t, handlerOk, true)) && !c.link.dead
    requires m.decodes && m.kind == "auth" && m.authOk && !c.link.authed
    ensures var d := Step(c, DoMessage(m, t, handlerOk, true));
            var n := c.book.sequence + 1;
            && Waits(d, t, SyncWorkspace, n) && d.book.sequence == n && d.tasks[t].job == SyncJob(false)
            && d.tasks[t].session == (if c.scope.desired != "" then c.scope.desired else m.reply.workspace)
            && d.link == c.link.(authed := true, synchronizing := true, ready := false)
            && d.scope == c.scope.(version := c.scope.version + 1)
            && d.book.sent == c.book.sent
               + [Sent(n, t, "workspace.set", "", c.link.generation, c.scope.version + 1, c.scope.confirmed)]
  {
    hide Issue, Sends;
    var target := if c.scope.desired != "" then c.scope.desired else m.reply.workspace;
    SynchronizeBegins(c.(link := c.link.(authed := true)), t, false, target);
  }

  lemma SynchronizeBegins(c: Client, t: nat, bySet: bool, target: string)
    requires t !in c.tasks && Idle(c) && !c.link.dead && c.link.authed && c.link.socket.Open?
    ensures var d := Synchronize(c, t, bySet, target, true);
            var n := c.book.sequence + 1;
            && Waits(d, t, SyncWorkspace, n) && d.book.sequence == n
            && d.tasks[t].job == SyncJob(bySet) && d.tasks[t].session == target
            && d.link == c.link.(synchronizing := true, ready := false)
            && d.scope == c.scope.(version := c.scope.version + 1)
            && d.book.sent == c.book.sent
               + [Sent(n, t, "workspace.set", "", c.link.generation, c.scope.version + 1, c.scope.confirmed)]
  {
    hide Issue;
    var m := Start(c.(scope := c.scope.(version := c.scope.version + 1),
                      link := c.link.(synchronizing := true, ready := false)), t, SyncJob(bySet), target);
    IssueSends(m, t, "workspace.set", "", SyncWorkspace);
  }

  // ---- What goes wrong ----

  /** A command that is refused ends its coroutine: nothing more is sent, and the scope stays. A refused choice of
      a workspace leaves the client ready where it was; a refused first synchronization closes the socket. */
  lemma RefusalEnds(c: Client, t: nat, stage: Stage, id: nat, other: nat, reply: Reply, handlerOk: bool)
    requires Waits(c, t, stage, id) && other !in c.tasks
    ensures var m := Incoming(true, "error", Some(id), false, reply);
            var d := Step(Step(Step(c, DoMessage(m, other, handlerOk, true)), DoResume(t, true)), DoResume(t, true));
            && t in d.tasks && d.tasks[t].pc.Over? && d.book.sent == c.book.sent && d.scope == c.scope
            && id !in d.book.pending && d.book.delivered == c.book.delivered
            && d.link == match c.tasks[t].job
                         case SyncJob(true) => c.link.(ready := true, synchronizing := false)
                         case SyncJob(false) => c.link.(socket := Closing)
                         case _ => c.link
  {
    var m := Incoming(true, "error", Some(id), false, reply);
    var c1 := Step(c, DoMessage(m, other, handlerOk, true));
    RefusalArrives(c, t, stage, id, other, reply, handlerOk);
    hide Step;
    Resumes(c1, t);
    var c2 := SetPc(c1, t, Unwinding(Rejected));
    Resumes(c2, t);
  }

  lemma RefusalArrives(c: Client, t: nat, stage: Stage, id: nat, other: nat, reply: Reply, handlerOk: bool)
    requires Waits(c, t, stage, id) && other !in c.tasks
    ensures var b := c.book;
            Step(c, DoMessage(Incoming(true, "error", Some(id), false, reply), other, handlerOk, true)) ==
            c.(book := b.(pending := b.pending - {id}, timers := b.timers - {id}, settled := b.settled + multiset{id}),
               tasks := c.tasks[t := c.tasks[t].(pc := Ready(stage, Refused(Rejected)))])
  {
  }

  /** A request that times out is given up as uncertain and its socket is closed, and so is the socket on which a
      message comes that cannot be read, answers the wrong command, or is not handled. */
  lemma FailuresClose(c: Client, id: nat, m: Incoming, t: nat, handlerOk: bool, sendOk: bool)
    requires c.link.socket.Open?
    ensures id in c.book.timers && Idle(c) ==>
              var d := Step(c, DoTimeout(id));
              d.link.socket.Closing? && id !in d.book.pending && id !in d.book.timers && d.book.sent == c.book.sent
    ensures Enabled(c, DoMessage(m, t, handlerOk, sendOk))
            && (!m.decodes || (m.kind == "auth" && (!m.authOk || c.link.authed))
                || (m.kind != "auth" && m.id.Some? && m.id.value in c.book.pending && m.kind != "error"
                    && (m.kind != c.book.pending[m.id.value].expected || !handlerOk))) ==>
              var d := Step(c, DoMessage(m, t, handlerOk, sendOk));
              d.link == c.link.(socket := Closing) && d.book.sent == c.book.sent && d.book.pending == c.book.pending
  {
    hide Synchronize;
  }

  /** After a close the client is dead for good: nothing is pending, and whatever happens afterwards, nothing is
      ever sent and no connection is made. */
  lemma {:induction false} ClosedIsSilent(c: Client, later: seq<Action>)
    ensures var d := Reach(CloseClient(c), later);
            && d.link.dead && !d.link.authed && d.link.socket.Absent? && !d.link.retry
            && d.book.sent == c.book.sent && d.book.pending == map[]
    decreases |later|
  {
    hide Step, CloseClient;
    if later == [] {
      CloseMeans(c);
    } else {
      ClosedIsSilent(c, later[..|later| - 1]);
      DeadStaysDead(Reach(CloseClient(c), later[..|later| - 1]), later[|later| - 1]);
    }
  }

  predicate Dead(c: Client) {
    c.link.dead && !c.link.authed && c.link.socket.Absent? && !c.link.retry && c.book.pending == map[]
  }

  lemma CloseMeans(c: Client)
    ensures Dead(CloseClient(c)) && CloseClient(c).book.sent == c.book.sent
  {
  }

  lemma DeadStaysDead(c: Client, a: Action)
    requires Dead(c)
    ensures Dead(Step(c, a)) && Step(c, a).book.sent == c.book.sent
  {
    if a.DoResume? { DeadResumes(c, a); }
    else if a.DoClose? {}
    else if a.DoStartChat? {}
    else if IsCall(a) {}
    else {}
  }

  lemma DeadResumes(c: Client, a: Action)
    requires Dead(c) && a.DoResume?
    ensures Dead(Step(c, a)) && Step(c, a).book.sent == c.book.sent
  {
    hide Advance, AfterHop;
  }

  /** A connection is made once, under a new generation and not yet authenticated; a socket that closes leaves the
      client neither ready nor authenticated, with nothing pending, and about to connect again. */
  lemma ConnectionMeans(c: Client, socketOk: bool)
    requires !c.link.dead
    ensures var d := Connect(c, socketOk);
            && d.link.generation == c.link.generation + 1 && !d.link.ready && !d.link.authed && !d.link.dead
            && (socketOk ==> d.link.socket.Connecting? && !d.link.retry)
            && (!socketOk ==> d.link.socket.Absent? && d.link.retry)
            && d == c.(link := d.link)
    ensures var d := SocketClosed(c);
            && !d.link.ready && !d.link.authed && !d.link.synchronizing && d.link.retry && d.link.socket.Closed?
            && d.link.generation == c.link.generation && d.book.pending == map[] && d.book.sent == c.book.sent
            && d.scope == c.scope
  {
  }

  /** A workspace is chosen only by a client that is ready and not synchronizing; otherwise nothing happens. */
  lemma SetWorkspaceMeans(c: Client, t: nat, target: string)
    requires t !in c.tasks && Idle(c) && !c.link.dead && c.link.authed && c.link.socket.Open?
    ensures var d := Step(c, DoSetWorkspace(t, target, true));
            if c.link.ready && !c.link.synchronizing then
              && Waits(d, t, SyncWorkspace, c.book.sequence + 1) && d.tasks[t].job == SyncJob(true)
              && d.tasks[t].session == target && d.scope == c.scope.(version := c.scope.version + 1)
            else d == c
  {
    hide Issue, Synchronize;
    if c.link.ready && !c.link.synchronizing { SynchronizeBegins(c, t, true, target); }
  }
}
