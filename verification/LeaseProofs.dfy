/** What every run of every process keeps. */
module LeaseProofs {
  import opened Transcript
  import opened LeaseSpec

  /** The stores of a process that hold a directory. */
  function Holders(stores: map<nat, Store>, proc: nat, key: string): set<nat> {
    set i | i in stores && stores[i].proc == proc && stores[i].dir == key && stores[i].holds
  }

  /** With n stores of a process holding a directory: the reference count is n, and the lock of the
      operating system is that process's exactly while n is positive. */
  ghost predicate Counted(n: nat, leases: Leases, locks: Locks, proc: nat, key: string) {
    && (key in leases <==> n > 0)
    && (key in leases ==> leases[key] == n)
    && (key in locks && locks[key] == proc <==> n > 0)
  }

  ghost predicate CountsOk(w: World, proc: nat, key: string) {
    Counted(|Holders(w.stores, proc, key)|, TableOf(w, proc), w.locks, proc, key)
  }

  predicate StoreOk(s: Store) {
    && (s.holds ==> !s.closed && !Blank(s.dir))
    && (s.busy.Some? ==> s.holds || Blank(s.dir))
  }

  ghost predicate LeaseInv(w: World) {
    && (forall proc, key :: CountsOk(w, proc, key))
    && (forall i <- w.stores :: StoreOk(w.stores[i]))
  }

  // ---- The table ----

  lemma AcquireCounts(n: nat, leases: Leases, locks: Locks, proc: nat, key: string, ioOk: bool)
    requires Counted(n, leases, locks, proc, key)
    ensures var (leases', locks', got) := Acquire(leases, locks, proc, key, ioOk);
            && Counted(if got.Ok? then n + 1 else n, leases', locks', proc, key)
            && (got.Err? ==> leases' == leases && locks' == locks)
            && (got.Ok? <==> n > 0 || (ioOk && key !in locks))
  {
  }

  lemma ReleaseCounts(n: nat, leases: Leases, locks: Locks, proc: nat, key: string)
    requires Counted(n, leases, locks, proc, key) && n > 0
    ensures var (leases', locks') := Release(leases, locks, key);
            Counted(n - 1, leases', locks', proc, key)
  {
  }

  /** The table and the locks change for one key only, and never under another process that holds it. */
  ghost predicate OnlyAt(leases: Leases, locks: Locks, leases': Leases, locks': Locks, proc: nat, key: string) {
    && (forall k | k != key :: (k in leases <==> k in leases') && (k in leases ==> leases[k] == leases'[k]))
    && (forall k | k != key :: (k in locks <==> k in locks') && (k in locks ==> locks[k] == locks'[k]))
    && (key in locks && locks[key] != proc ==> key in locks' && locks'[key] == locks[key])
    && (key in locks' && locks'[key] != proc ==> key in locks && locks[key] == locks'[key])
  }

  lemma AcquireIsLocal(n: nat, leases: Leases, locks: Locks, proc: nat, key: string, ioOk: bool)
    requires Counted(n, leases, locks, proc, key)
    ensures var (leases', locks', got) := Acquire(leases, locks, proc, key, ioOk);
            OnlyAt(leases, locks, leases', locks', proc, key)
  {
  }

  lemma ReleaseIsLocal(n: nat, leases: Leases, locks: Locks, proc: nat, key: string)
    requires Counted(n, leases, locks, proc, key) && n > 0
    ensures var (leases', locks') := Release(leases, locks, key);
            OnlyAt(leases, locks, leases', locks', proc, key)
  {
  }

  // ---- One step ----

  /** One store starts or stops holding; everybody else's count stays. */
  lemma StoreChanges(stores: map<nat, Store>, i: nat, s: Store)
    requires i in stores ==> stores[i].proc == s.proc && stores[i].dir == s.dir
    ensures forall proc, key | proc != s.proc || key != s.dir ::
              Holders(stores[i := s], proc, key) == Holders(stores, proc, key)
    ensures Holders(stores[i := s], s.proc, s.dir) ==
            if s.holds then Holders(stores, s.proc, s.dir) + {i} else Holders(stores, s.proc, s.dir) - {i}
  {
  }

  lemma CountElsewhere(w: World, s: Store, leases: Leases, locks: Locks, stores: map<nat, Store>, proc: nat,
                       key: string)
    requires CountsOk(w, proc, key) && (proc != s.proc || key != s.dir)
    requires Holders(stores, proc, key) == Holders(w.stores, proc, key)
    requires OnlyAt(TableOf(w, s.proc), w.locks, leases, locks, s.proc, s.dir)
    ensures Counted(|Holders(stores, proc, key)|, if proc == s.proc then leases else TableOf(w, proc), locks, proc, key)
  {
    hide Holders;
  }

  lemma CountFollows(w: World, i: nat, s: Store, leases: Leases, locks: Locks, proc: nat, key: string)
    requires CountsOk(w, proc, key)
    requires i in w.stores ==> w.stores[i].proc == s.proc && w.stores[i].dir == s.dir
    requires OnlyAt(TableOf(w, s.proc), w.locks, leases, locks, s.proc, s.dir)
    requires Counted(|Holders(w.stores[i := s], s.proc, s.dir)|, leases, locks, s.proc, s.dir)
    ensures CountsOk(WithStore(w, i, s, leases, locks), proc, key)
  {
    var d := WithStore(w, i, s, leases, locks);
    assert TableOf(d, proc) == if proc == s.proc then leases else TableOf(w, proc);
    if proc != s.proc || key != s.dir {
      StoreChanges(w.stores, i, s);
      hide Holders, OnlyAt, Counted;
      CountElsewhere(w, s, leases, locks, d.stores, proc, key);
    }
    hide Holders, OnlyAt, Counted;
  }

  lemma CountsFollow(w: World, i: nat, s: Store, leases: Leases, locks: Locks)
    requires LeaseInv(w) && StoreOk(s)
    requires i in w.stores ==> w.stores[i].proc == s.proc && w.stores[i].dir == s.dir
    requires OnlyAt(TableOf(w, s.proc), w.locks, leases, locks, s.proc, s.dir)
    requires Counted(|Holders(w.stores[i := s], s.proc, s.dir)|, leases, locks, s.proc, s.dir)
    ensures LeaseInv(WithStore(w, i, s, leases, locks))
  {
    var d := WithStore(w, i, s, leases, locks);
    hide Holders, StoreOk, LeaseInv, OnlyAt, Counted, CountsOk;
    forall proc, key ensures CountsOk(d, proc, key) {
      CountsAt(w, proc, key);
      CountFollows(w, i, s, leases, locks, proc, key);
    }
    StoresAfter(w, i, s);
    Assemble(d);
  }

  lemma CountsAt(w: World, proc: nat, key: string)
    requires LeaseInv(w)
    ensures CountsOk(w, proc, key)
  {
  }

  lemma StoresAfter(w: World, i: nat, s: Store)
    requires LeaseInv(w) && StoreOk(s)
    ensures var stores := w.stores[i := s]; forall j <- stores :: StoreOk(stores[j])
  {
  }

  lemma Assemble(w: World)
    requires (forall proc, key :: CountsOk(w, proc, key)) && (forall i <- w.stores :: StoreOk(w.stores[i]))
    ensures LeaseInv(w)
  {
  }

  lemma EnsureKeeps(w: World, i: nat, ioOk: bool)
    requires LeaseInv(w) && i in w.stores && w.stores[i].busy.None?
    ensures LeaseInv(EnsureIn(w, i, ioOk).0)
    ensures EnsureIn(w, i, ioOk).1.Ok? ==> EnsureIn(w, i, ioOk).0.stores[i].holds || Blank(w.stores[i].dir)
  {
    hide Blank;
    var s := w.stores[i];
    var (s', leases, locks, got) := Ensure(s, TableOf(w, s.proc), w.locks, ioOk);
    var n := |Holders(w.stores, s.proc, s.dir)|;
    assert Counted(n, TableOf(w, s.proc), w.locks, s.proc, s.dir) by { CountsAt(w, s.proc, s.dir); }
    StoreChanges(w.stores, i, s');
    assert StoreOk(s);
    if !s.closed && !s.holds && !Blank(s.dir) {
      AcquireCounts(n, TableOf(w, s.proc), w.locks, s.proc, s.dir, ioOk);
      AcquireIsLocal(n, TableOf(w, s.proc), w.locks, s.proc, s.dir, ioOk);
    }
    CountsFollow(w, i, s', leases, locks);
  }

  lemma CloseKeeps(w: World, i: nat)
    requires LeaseInv(w) && i in w.stores && w.stores[i].busy.None?
    ensures LeaseInv(CloseIn(w, i))
  {
    var s := w.stores[i];
    var (s', leases, locks) := Close(s, TableOf(w, s.proc), w.locks);
    var holders := Holders(w.stores, s.proc, s.dir);
    assert Counted(|holders|, TableOf(w, s.proc), w.locks, s.proc, s.dir) by { CountsAt(w, s.proc, s.dir); }
    StoreChanges(w.stores, i, s');
    if s.holds {
      assert i in holders;
      ReleaseCounts(|holders|, TableOf(w, s.proc), w.locks, s.proc, s.dir);
      ReleaseIsLocal(|holders|, TableOf(w, s.proc), w.locks, s.proc, s.dir);
    } else {
      assert i !in holders;
    }
    CountsFollow(w, i, s', leases, locks);
  }

  lemma SameHolders(w: World, d: World)
    requires LeaseInv(w) && d.tables == w.tables && d.locks == w.locks
    requires forall proc, key :: Holders(d.stores, proc, key) == Holders(w.stores, proc, key)
    requires forall i <- d.stores :: StoreOk(d.stores[i])
    ensures LeaseInv(d)
  {
    hide Holders;
    forall proc, key ensures CountsOk(d, proc, key) {
      assert CountsOk(w, proc, key);
    }
  }

  lemma DieKeeps(w: World, proc: nat)
    requires LeaseInv(w)
    ensures LeaseInv(Die(w, proc))
  {
    var d := Die(w, proc);
    forall p, key ensures CountsOk(d, p, key) {
      assert CountsOk(w, p, key);
      if p == proc {
        assert Holders(d.stores, p, key) == {};
      } else {
        assert Holders(d.stores, p, key) == Holders(w.stores, p, key);
      }
    }
    forall i <- d.stores ensures StoreOk(d.stores[i]) {
      assert StoreOk(w.stores[i]);
    }
  }

  lemma StepKeeps(w: World, a: Action)
    requires LeaseInv(w) && Enabled(w, a)
    ensures LeaseInv(Perform(w, a))
  {
    hide LeaseInv, EnsureIn, CloseIn, Die;
    match a
    case DoOpen(i, proc, dir, ioOk) =>
      var d := w.(stores := w.stores[i := Store(proc, dir, false, false, None)]);
      assert LeaseInv(d) by { QuietStore(w, i, d.stores[i]); }
      EnsureKeeps(d, i, ioOk);
    case DoLeaseError(i, ioOk) => EnsureKeeps(w, i, ioOk);
    case DoBegin(i, op, ioOk) => BeginKeeps(w, i, op, ioOk);
    case DoFinish(i, ioOk) =>
      var s := w.stores[i].(busy := None);
      var d := w.(stores := w.stores[i := s]);
      assert LeaseInv(d) by { StoresOk(w, i); QuietStore(w, i, s); }
      DiskIsFree(d, Perform(w, a));
    case DoClose(i) => CloseKeeps(w, i);
    case DoDie(proc) => DieKeeps(w, proc);
  }

  lemma DiskIsFree(w: World, d: World)
    requires LeaseInv(w) && d == w.(disk := d.disk)
    ensures LeaseInv(d)
  {
    forall proc, key ensures CountsOk(d, proc, key) { assert CountsOk(w, proc, key); }
  }

  lemma StoresOk(w: World, i: nat)
    requires LeaseInv(w) && i in w.stores
    ensures StoreOk(w.stores[i])
  {
  }

  /** A store that does not start or stop holding may change otherwise. */
  lemma QuietStore(w: World, i: nat, s: Store)
    requires LeaseInv(w) && StoreOk(s)
    requires if i in w.stores then w.stores[i].(busy := s.busy, closed := s.closed) == s else !s.holds
    ensures LeaseInv(w.(stores := w.stores[i := s]))
  {
    var d := w.(stores := w.stores[i := s]);
    assert forall proc, key :: Holders(d.stores, proc, key) == Holders(w.stores, proc, key);
    SameHolders(w, d);
  }

  lemma BeginKeeps(w: World, i: nat, op: Op, ioOk: bool)
    requires LeaseInv(w) && i in w.stores && w.stores[i].busy.None?
    ensures LeaseInv(Begin(w, i, op, ioOk).0)
  {
    EnsureKeeps(w, i, ioOk);
    var (d, got) := EnsureIn(w, i, ioOk);
    if got.Ok? {
      StoresOk(d, i);
      var s := d.stores[i].(busy := Some(op));
      assert s.dir == w.stores[i].dir;
      hide LeaseInv;
      QuietStore(d, i, s);
    }
  }

  lemma {:induction false} ReachKeeps(actions: seq<Action>)
    ensures LeaseInv(Reach(INITIAL, actions))
  {
    if actions != [] {
      var init, a := actions[..|actions| - 1], actions[|actions| - 1];
      ReachKeeps(init);
      if Enabled(Reach(INITIAL, init), a) {
        hide LeaseInv, Perform;
        StepKeeps(Reach(INITIAL, init), a);
      }
    }
  }

  // ---- Whole runs ----

  ghost predicate Reachable(w: World) { exists actions :: Reach(INITIAL, actions) == w }

  lemma ReachableHolds(w: World)
    requires Reachable(w)
    ensures LeaseInv(w)
  {
    var actions :| Reach(INITIAL, actions) == w;
    ReachKeeps(actions);
  }

  /** Whatever a step makes of a reachable world is reachable, and a step of one store leaves every other
      store as it was: objects that stand in one reachable world go on standing in one. */
  lemma StepReachable(w: World, a: Action)
    requires Reachable(w)
    ensures Reachable(Step(w, a))
    ensures !a.DoDie? ==> forall i <- w.stores | i != a.store ::
              i in Step(w, a).stores && Step(w, a).stores[i] == w.stores[i]
  {
    StoresStand(w, a);
    hide Step;
    var actions :| Reach(INITIAL, actions) == w;
    assert (actions + [a])[..|actions + [a]| - 1] == actions;
    assert Reach(INITIAL, actions + [a]) == Step(w, a);
  }

  lemma StoresStand(w: World, a: Action)
    ensures !a.DoDie? ==> forall i <- w.stores | i != a.store ::
              i in Step(w, a).stores && Step(w, a).stores[i] == w.stores[i]
  {
    hide Acquire, Release, Operate, Written, Die;
  }

  /** A process's reference count for a directory is the number of its stores that hold it; the lock of
      the operating system is that process's exactly while the count is positive; so all the stores
      that hold one directory belong to one process. */
  lemma LeaseCounts(w: World, proc: nat, key: string)
    requires Reachable(w)
    ensures var n := |Holders(w.stores, proc, key)|;
            && (if key in TableOf(w, proc) then TableOf(w, proc)[key] else 0) == n
            && (key in w.locks && w.locks[key] == proc <==> n > 0)
    ensures forall i, j | i in w.stores && j in w.stores && w.stores[i].holds && w.stores[j].holds
              && w.stores[i].dir == w.stores[j].dir :: w.stores[i].proc == w.stores[j].proc
  {
    ReachableHolds(w);
    assert CountsOk(w, proc, key);
    forall i, j | i in w.stores && j in w.stores && w.stores[i].holds && w.stores[j].holds
                  && w.stores[i].dir == w.stores[j].dir
      ensures w.stores[i].proc == w.stores[j].proc
    {
      HolderHasLock(w, i);
      HolderHasLock(w, j);
    }
  }

  lemma HolderHasLock(w: World, i: nat)
    requires LeaseInv(w) && i in w.stores && w.stores[i].holds
    ensures w.stores[i].dir in w.locks && w.locks[w.stores[i].dir] == w.stores[i].proc
  {
    var s := w.stores[i];
    assert CountsOk(w, s.proc, s.dir);
    assert i in Holders(w.stores, s.proc, s.dir);
  }

  /** A store gets the lease exactly when it is open and either has nothing to lease, or already holds
      it, or shares it with another store of its process, or no other process's store holds it (and the
      lock file can be opened). */
  lemma GrantedIff(w: World, i: nat, ioOk: bool)
    requires Reachable(w) && i in w.stores
    ensures var s := w.stores[i];
            var others := exists j <- w.stores :: w.stores[j].holds && w.stores[j].dir == s.dir
                                             && w.stores[j].proc != s.proc;
            EnsureIn(w, i, ioOk).1.Ok? <==>
            !s.closed && (s.holds || Blank(s.dir) || Holders(w.stores, s.proc, s.dir) != {} || (ioOk && !others))
  {
    ReachableHolds(w);
    var s := w.stores[i];
    var holders := Holders(w.stores, s.proc, s.dir);
    assert CountsOk(w, s.proc, s.dir);
    AcquireCounts(|holders|, TableOf(w, s.proc), w.locks, s.proc, s.dir, ioOk);
    assert |holders| > 0 <==> holders != {};
    if s.dir in w.locks && w.locks[s.dir] != s.proc {
      var other := w.locks[s.dir];
      assert CountsOk(w, other, s.dir);
      var j :| j in Holders(w.stores, other, s.dir);
      assert w.stores[j].holds && w.stores[j].proc != s.proc;
    }
    if j: nat :| j in w.stores && w.stores[j].holds && w.stores[j].dir == s.dir && w.stores[j].proc != s.proc {
      HolderHasLock(w, j);
    }
  }

  /** An operation succeeds only for the process that owns the directory, at the moment it touches the
      files, whatever the other processes have done since it took the lease; and nothing else changes
      a directory's files. */
  lemma OnlyTheOwnerOperates(w: World, i: nat, ioOk: bool)
    requires Reachable(w) && i in w.stores && w.stores[i].busy.Some?
    ensures var s := w.stores[i];
            Finish(w, i, ioOk).1.Ok? ==> s.holds && s.dir in w.locks && w.locks[s.dir] == s.proc
  {
    ReachableHolds(w);
    StoresOk(w, i);
    if w.stores[i].holds { HolderHasLock(w, i); }
  }

  lemma OtherStepsKeepDisk(w: World, a: Action)
    ensures !a.DoFinish? ==> Step(w, a).disk == w.disk
  {
    hide Ensure, Close, Finish;
  }

  lemma OnlyFinishWrites(w: World, a: Action, dir: string)
    requires FilesOf(Step(w, a), dir) != FilesOf(w, dir)
    ensures a.DoFinish? && a.store in w.stores && w.stores[a.store].busy.Some? && w.stores[a.store].dir == dir
            && Finish(w, a.store, a.ioOk).1.Ok?
  {
    hide Acquire, Release, Trim, Blank, ValidId;
    OtherStepsKeepDisk(w, a);
  }

  lemma OnlyTheOwnerWrites(w: World, a: Action, dir: string)
    requires Reachable(w) && FilesOf(Step(w, a), dir) != FilesOf(w, dir)
    ensures a.DoFinish? && a.store in w.stores && w.stores[a.store].dir == dir
    ensures dir in w.locks && w.locks[dir] == w.stores[a.store].proc
  {
    OnlyFinishWrites(w, a, dir);
    hide Step, Reachable;
    OnlyTheOwnerOperates(w, a.store, a.ioOk);
  }

  /** At every moment of a run the process owns the directory, and none of its stores finishes an
      operation on it. */
  ghost predicate KeepsOwnedAndIdle(w: World, actions: seq<Action>, proc: nat, dir: string)
    decreases |actions|
  {
    && dir in Reach(w, actions).locks && Reach(w, actions).locks[dir] == proc
    && (actions != [] ==>
          var a := actions[|actions| - 1];
          var before := Reach(w, actions[..|actions| - 1]);
          && !(a.DoFinish? && a.store in before.stores && before.stores[a.store].proc == proc
               && before.stores[a.store].dir == dir)
          && KeepsOwnedAndIdle(w, actions[..|actions| - 1], proc, dir))
  }

  lemma {:induction false} ReachConcat(w: World, a: seq<Action>, b: seq<Action>)
    ensures Reach(Reach(w, a), b) == Reach(w, a + b)
    decreases |b|
  {
    if b == [] {
      assert a + b == a;
    } else {
      assert (a + b)[..|a + b| - 1] == a + b[..|b| - 1];
      ReachConcat(w, a, b[..|b| - 1]);
    }
  }

  /** While a process keeps a directory, what it left there stays: no step of any other process, and no
      death, changes a file. */
  lemma {:induction false} OwnedFilesStay(w: World, actions: seq<Action>, proc: nat, dir: string)
    requires Reachable(w) && KeepsOwnedAndIdle(w, actions, proc, dir)
    ensures FilesOf(Reach(w, actions), dir) == FilesOf(w, dir)
    decreases |actions|
  {
    if actions != [] {
      var init, a := actions[..|actions| - 1], actions[|actions| - 1];
      OwnedFilesStay(w, init, proc, dir);
      var before := Reach(w, init);
      assert KeepsOwnedAndIdle(w, init, proc, dir);
      assert Reachable(before) by {
        var past :| Reach(INITIAL, past) == w;
        ReachConcat(INITIAL, past, init);
      }
      hide Step, Reach, Reachable;
      if FilesOf(Step(before, a), dir) != FilesOf(before, dir) {
        OnlyTheOwnerWrites(before, a, dir);
      }
    }
  }

  /** A directory is a register of records by trimmed id. An operation is refused for its id, its directory or
      the disk, in that order; what is saved is what is loaded and listed until it is deleted or saved again, and
      no other id notices. */
  lemma DirectoryIsRegister(dir: string, files: Files, record: Record, id: string)
    ensures var (after, r) := Operate(dir, files, Save(record), true);
            && (r.Ok? <==> ValidId(Trim(record.id)) && !Blank(dir))
            && (r.Err? ==> after == files && r.error == if ValidId(Trim(record.id)) then DirEmpty else BadId)
            && (r.Ok? ==>
                  && Operate(dir, after, List, true) == (after, Ok(Listed(after)))
                  && Operate(dir, after, Load(record.id), true) == (after, Ok(Loaded(record)))
                  && var gone := Operate(dir, after, Delete(record.id), true).0;
                     && Operate(dir, gone, Load(record.id), true).1 == Err(NotFound)
                     && (Trim(id) != Trim(record.id) ==>
                           && Operate(dir, after, Load(id), true).1 == Operate(dir, files, Load(id), true).1
                           && Operate(dir, gone, Load(id), true).1 == Operate(dir, files, Load(id), true).1))
    ensures var (after, r) := Operate(dir, files, Save(record), false); r.Err? && after == files
    ensures var (after, r) := Operate(dir, files, Delete(id), false); r.Err? && after == files
    ensures forall ioOk :: Operate(dir, files, Load(id), ioOk).0 == files && Operate(dir, files, List, ioOk).0 == files
  {
    hide Trim, Blank, ValidId;
  }

  /** A close gives back what the store holds and no more: the store is closed and holds nothing, and its process
      keeps the directory exactly while another of its stores holds it. */
  lemma CloseMeans(w: World, i: nat)
    requires Reachable(w) && i in w.stores && w.stores[i].busy.None?
    ensures var s, d := w.stores[i], CloseIn(w, i);
            && i in d.stores && d.stores[i] == s.(closed := true, holds := false) && d.disk == w.disk
            && Holders(d.stores, s.proc, s.dir) == Holders(w.stores, s.proc, s.dir) - {i}
            && (s.dir in d.locks && d.locks[s.dir] == s.proc <==> Holders(w.stores, s.proc, s.dir) - {i} != {})
            && (forall j <- w.stores :: j != i ==> j in d.stores && d.stores[j] == w.stores[j])
  {
    var s, d := w.stores[i], CloseIn(w, i);
    ReachableHolds(w);
    CloseKeeps(w, i);
    CountsAt(d, s.proc, s.dir);
    StoreChanges(w.stores, i, d.stores[i]);
    hide LeaseInv;
  }

  /** A closed store refuses every operation and changes nothing. */
  lemma ClosedStoreRefuses(w: World, i: nat, op: Op, leaseOk: bool, ioOk: bool)
    requires i in w.stores && w.stores[i].busy.None? && w.stores[i].closed
    ensures Undisturbed(w, i, op, leaseOk, ioOk) == WithStore(w, i, w.stores[i], TableOf(w, w.stores[i].proc), w.locks)
    ensures EnsureIn(w, i, leaseOk).1 == Err(StoreClosed)
  {
    hide Undisturbed, Operate;
    UndisturbedParts(w, i, op, leaseOk, ioOk);
  }
}
