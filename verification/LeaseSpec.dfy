/** Ownership of a session directory: pkg/session/lease.go and the lease gate of pkg/session/session.go.

    Any number of processes open any number of stores. A directory is named by its resolved path, which
    is also its lease key. An operation holds its store's mutex between its two steps, taking the lease
    and touching the files, and everything else may happen in between, including the death of a process. */
module LeaseSpec {
  import opened Transcript

  datatype Op = Save(record: Record) | Load(id: string) | List | Delete(id: string)

  datatype Reply = Saved | Loaded(record: Record) | Listed(sessions: map<string, Record>) | Deleted

  datatype Error = StoreClosed | StoreOwned | IoFailed | BadId | DirEmpty | NotFound

  datatype Result<+T> = Ok(value: T) | Err(error: Error)

  datatype Store = Store(proc: nat, dir: string, holds: bool, closed: bool, busy: Option<Op>)

  type Leases = map<string, int>
  type Locks = map<string, nat>
  type Files = map<string, Record>

  datatype World = World(tables: map<nat, Leases>, locks: Locks, stores: map<nat, Store>, disk: map<string, Files>)

  const INITIAL := World(map[], map[], map[], map[])

  /** White space, as the language's own trimming has it. */
  predicate Space(c: char) {
    || '\t' <= c <= '\r' || c in " \U{85}\U{A0}\U{1680}" || '\U{2000}' <= c <= '\U{200A}'
    || c in "\U{2028}\U{2029}\U{202F}\U{205F}\U{3000}"
  }

  predicate Blank(s: string) { forall c <- s :: Space(c) }

  /** Leaves out the space at both ends. */
  function Trim(s: string): (r: string)
    ensures r == "" <==> Blank(s)
    ensures r != "" ==> !Space(r[0]) && !Space(r[|r| - 1])
    decreases |s|
  {
    if s == "" then ""
    else if Space(s[0]) then assert s == [s[0]] + s[1..]; Trim(s[1..])
    else if Space(s[|s| - 1]) then Trim(s[..|s| - 1])
    else s
  }

  predicate Alnum(c: char) { 'a' <= c <= 'z' || 'A' <= c <= 'Z' || '0' <= c <= '9' }

  /** Trimming takes nothing but space away, and only from the ends. */
  lemma {:induction false} TrimMeans(s: string) returns (before: string, after: string)
    ensures s == before + Trim(s) + after && Blank(before) && Blank(after)
    decreases |s|
  {
    hide Space, Blank;
    before, after := "", "";
    assert Blank("") by { NothingIsBlank(); }
    if s == "" {
    } else if Space(s[0]) {
      before, after := TrimMeans(s[1..]);
      calc {
        s;
        [s[0]] + s[1..];
        [s[0]] + (before + Trim(s) + after);
        [s[0]] + before + Trim(s) + after;
      }
      BlankJoins([s[0]], before);
      before := [s[0]] + before;
    } else if Space(s[|s| - 1]) {
      var last := s[|s| - 1];
      before, after := TrimMeans(s[..|s| - 1]);
      calc {
        s;
        s[..|s| - 1] + [last];
        before + Trim(s) + after + [last];
        before + Trim(s) + (after + [last]);
      }
      BlankJoins(after, [last]);
      after := after + [last];
    }
  }

  lemma NothingIsBlank()
    ensures Blank("")
  {
  }

  lemma BlankJoins(a: string, b: string)
    requires (Blank(a) || (|a| == 1 && Space(a[0]))) && (Blank(b) || (|b| == 1 && Space(b[0])))
    ensures Blank(a + b)
  {
    hide Space;
  }

  /** One letter or digit, then one to sixty-three letters, digits, dots, underscores or hyphens. */
  predicate ValidId(id: string) {
    2 <= |id| <= 64 && Alnum(id[0]) && forall c <- id[1..] :: Alnum(c) || c in "._-"
  }

  // ---- The lease table of one process, over the locks of the operating system ----

  function Acquire(leases: Leases, locks: Locks, proc: nat, key: string, ioOk: bool): (r: (Leases, Locks, Result<()>)) {
    if key in leases then (leases[key := leases[key] + 1], locks, Ok(()))
    else if !ioOk then (leases, locks, Err(IoFailed))
    else if key in locks then (leases, locks, Err(StoreOwned))
    else (leases[key := 1], locks[key := proc], Ok(()))
  }

  function Release(leases: Leases, locks: Locks, key: string): (r: (Leases, Locks)) {
    if key !in leases then (leases, locks)
    else if leases[key] - 1 <= 0 then (leases - {key}, locks - {key})
    else (leases[key := leases[key] - 1], locks)
  }

  // ---- One store ----

  function Ensure(s: Store, leases: Leases, locks: Locks, ioOk: bool): (r: (Store, Leases, Locks, Result<()>)) {
    if s.closed then (s, leases, locks, Err(StoreClosed))
    else if s.holds || Blank(s.dir) then (s, leases, locks, Ok(()))
    else
      var (leases', locks', got) := Acquire(leases, locks, s.proc, s.dir, ioOk);
      (if got.Ok? then s.(holds := true) else s, leases', locks', got)
  }

  function Close(s: Store, leases: Leases, locks: Locks): (r: (Store, Leases, Locks)) {
    if s.holds then
      var (leases', locks') := Release(leases, locks, s.dir);
      (s.(closed := true, holds := false), leases', locks')
    else (s.(closed := true), leases, locks)
  }

  /** What an operation does once the lease is in hand. */
  function Operate(dir: string, files: Files, op: Op, ioOk: bool): (r: (Files, Result<Reply>)) {
    match op
    case Save(record) =>
      if !ValidId(Trim(record.id)) then (files, Err(BadId))
      else if Blank(dir) then (files, Err(DirEmpty))
      else if !ioOk then (files, Err(IoFailed))
      else (files[Trim(record.id) := record], Ok(Saved))
    case Load(id) =>
      if !ValidId(Trim(id)) then (files, Err(BadId))
      else if Blank(dir) then (files, Err(DirEmpty))
      else if Trim(id) !in files then (files, Err(NotFound))
      else if !ioOk then (files, Err(IoFailed))
      else (files, Ok(Loaded(files[Trim(id)])))
    case List =>
      if Blank(dir) then (files, Err(DirEmpty))
      else if !ioOk then (files, Err(IoFailed))
      else (files, Ok(Listed(files)))
    case Delete(id) =>
      if !ValidId(Trim(id)) then (files, Err(BadId))
      else if Blank(dir) then (files, Err(DirEmpty))
      else if !ioOk then (files, Err(IoFailed))
      else (files - {Trim(id)}, Ok(Deleted))
  }

  // ---- All processes ----

  function TableOf(w: World, proc: nat): Leases { if proc in w.tables then w.tables[proc] else map[] }

  function FilesIn(disk: map<string, Files>, dir: string): Files { if dir in disk then disk[dir] else map[] }

  function FilesOf(w: World, dir: string): Files { FilesIn(w.disk, dir) }

  /** The directories after an operation on one of them has left these files there. */
  function Written(disk: map<string, Files>, dir: string, files: Files): map<string, Files> {
    if files == FilesIn(disk, dir) then disk else disk[dir := files]
  }

  lemma SaveWrites(disk: map<string, Files>, dir: string, id: string, record: Record)
    ensures var files := FilesIn(disk, dir)[id := record]; disk[dir := files] == Written(disk, dir, files)
  {
    assert id in FilesIn(disk, dir)[id := record];
  }

  function WithStore(w: World, i: nat, s: Store, leases: Leases, locks: Locks): World {
    w.(tables := w.tables[s.proc := leases], locks := locks, stores := w.stores[i := s])
  }

  function EnsureIn(w: World, i: nat, ioOk: bool): (r: (World, Result<()>))
    requires i in w.stores
  {
    var s := w.stores[i];
    var (s', leases, locks, got) := Ensure(s, TableOf(w, s.proc), w.locks, ioOk);
    (WithStore(w, i, s', leases, locks), got)
  }

  function Begin(w: World, i: nat, op: Op, ioOk: bool): (r: (World, Result<()>))
    requires i in w.stores
  {
    var (w', got) := EnsureIn(w, i, ioOk);
    (if got.Ok? then w'.(stores := w'.stores[i := w'.stores[i].(busy := Some(op))]) else w', got)
  }

  function Finish(w: World, i: nat, ioOk: bool): (r: (World, Result<Reply>))
    requires i in w.stores && w.stores[i].busy.Some?
  {
    var s := w.stores[i];
    var (files, reply) := Operate(s.dir, FilesOf(w, s.dir), s.busy.value, ioOk);
    (w.(stores := w.stores[i := s.(busy := None)], disk := Written(w.disk, s.dir, files)), reply)
  }

  function CloseIn(w: World, i: nat): World
    requires i in w.stores
  {
    var s := w.stores[i];
    var (s', leases, locks) := Close(s, TableOf(w, s.proc), w.locks);
    WithStore(w, i, s', leases, locks)
  }

  /** The operating system gives back what a process held. */
  function Die(w: World, proc: nat): World {
    w.(tables := w.tables - {proc},
       locks := map k | k in w.locks && w.locks[k] != proc :: w.locks[k],
       stores := map i | i in w.stores && w.stores[i].proc != proc :: w.stores[i])
  }

  datatype Action =
    | DoOpen(store: nat, proc: nat, dir: string, ioOk: bool)
    | DoLeaseError(store: nat, ioOk: bool)
    | DoBegin(store: nat, op: Op, ioOk: bool)
    | DoFinish(store: nat, ioOk: bool)
    | DoClose(store: nat)
    | DoDie(proc: nat)

  predicate Enabled(w: World, a: Action) {
    match a
    case DoOpen(i, _, _, _) => i !in w.stores
    case DoLeaseError(i, _) => i in w.stores && w.stores[i].busy.None?
    case DoBegin(i, _, _) => i in w.stores && w.stores[i].busy.None?
    case DoFinish(i, _) => i in w.stores && w.stores[i].busy.Some?
    case DoClose(i) => i in w.stores && w.stores[i].busy.None?
    case DoDie(_) => true
  }

  function Perform(w: World, a: Action): World
    requires Enabled(w, a)
  {
    match a
    case DoOpen(i, proc, dir, ioOk) =>
      EnsureIn(w.(stores := w.stores[i := Store(proc, dir, false, false, None)]), i, ioOk).0
    case DoLeaseError(i, ioOk) => EnsureIn(w, i, ioOk).0
    case DoBegin(i, op, ioOk) => Begin(w, i, op, ioOk).0
    case DoFinish(i, ioOk) => Finish(w, i, ioOk).0
    case DoClose(i) => CloseIn(w, i)
    case DoDie(proc) => Die(w, proc)
  }

  function Step(w: World, a: Action): World { if Enabled(w, a) then Perform(w, a) else w }

  function Reach(w: World, actions: seq<Action>): World {
    if actions == [] then w else Step(Reach(w, actions[..|actions| - 1]), actions[|actions| - 1])
  }

  /** An operation of one store that nothing else comes between. */
  function Undisturbed(w: World, i: nat, op: Op, leaseOk: bool, ioOk: bool): World {
    Reach(w, [DoBegin(i, op, leaseOk), DoFinish(i, ioOk)])
  }

  lemma TwoSteps(w: World, a: Action, b: Action)
    ensures Reach(w, [a, b]) == Step(Step(w, a), b)
  {
    hide Step;
    assert [a, b][..1] == [a] && [a][..0] == [];
    assert Reach(w, [a]) == Step(w, a);
  }

  /** It takes the lease, and touches the files if it got it. */
  lemma UndisturbedParts(w: World, i: nat, op: Op, leaseOk: bool, ioOk: bool)
    requires i in w.stores && w.stores[i].busy.None?
    ensures var s := w.stores[i];
            var (s', leases, locks, got) := Ensure(s, TableOf(w, s.proc), w.locks, leaseOk);
            Undisturbed(w, i, op, leaseOk, ioOk) ==
            if got.Err? then WithStore(w, i, s', leases, locks)
            else WithStore(w, i, s', leases, locks)
                 .(disk := Written(w.disk, s.dir, Operate(s.dir, FilesOf(w, s.dir), op, ioOk).0))
  {
    TwoSteps(w, DoBegin(i, op, leaseOk), DoFinish(i, ioOk));
    hide Operate, Acquire, Written, Reach;
    var s := w.stores[i];
    var (s', leases, locks, got) := Ensure(s, TableOf(w, s.proc), w.locks, leaseOk);
    assert s'.busy.None? && s'.dir == s.dir;
    hide Ensure;
    var base := WithStore(w, i, s', leases, locks);
    if got.Err? {
      assert Step(w, DoBegin(i, op, leaseOk)) == base;
    } else {
      BusyStep(base, i, op, ioOk);
    }
  }

  /** A store that has its lease does its operation and is idle again. */
  lemma BusyStep(w: World, i: nat, op: Op, ioOk: bool)
    requires i in w.stores && w.stores[i].busy.None?
    ensures var s := w.stores[i];
            Step(w.(stores := w.stores[i := s.(busy := Some(op))]), DoFinish(i, ioOk)) ==
            w.(disk := Written(w.disk, s.dir, Operate(s.dir, FilesOf(w, s.dir), op, ioOk).0))
  {
    hide Operate, Written;
    var s := w.stores[i];
    assert w.stores[i := s.(busy := Some(op))][i := s] == w.stores;
  }

  /** One of the world's stores, the lease table of its process, and the world's locks and directories. */
  predicate Has(w: World, i: nat, s: Store, leases: Leases, locks: Locks, disk: map<string, Files>) {
    i in w.stores && w.stores[i] == s && TableOf(w, s.proc) == leases && w.locks == locks && w.disk == disk
  }

  lemma UndisturbedHas(s: Store, leases: Leases, locks: Locks, disk: map<string, Files>, op: Op, leaseOk: bool,
                       ioOk: bool)
    requires s.busy.None?
    ensures var (s', leases', locks', got) := Ensure(s, leases, locks, leaseOk);
            var disk' := if got.Err? then disk
                         else Written(disk, s.dir, Operate(s.dir, FilesIn(disk, s.dir), op, ioOk).0);
            forall w, i | Has(w, i, s, leases, locks, disk) ::
              Has(Undisturbed(w, i, op, leaseOk, ioOk), i, s', leases', locks', disk')
  {
    hide Undisturbed, Operate, Written, Acquire;
    var (s', leases', locks', got) := Ensure(s, leases, locks, leaseOk);
    assert s'.proc == s.proc;
    forall w, i | Has(w, i, s, leases, locks, disk)
      ensures Has(Undisturbed(w, i, op, leaseOk, ioOk), i, s', leases', locks',
                  if got.Err? then disk
                  else Written(disk, s.dir, Operate(s.dir, FilesIn(disk, s.dir), op, ioOk).0))
    {
      UndisturbedParts(w, i, op, leaseOk, ioOk);
    }
  }
}
