/** The lease table and the store as the objects they are: pkg/session/lease.go, pkg/session/session.go. */
module DirStores {
  import opened Transcript
  import opened LeaseSpec

  /** What all processes share: the locks the operating system holds, and the directories. */
  class Host {
    var locks: Locks
    var disk: map<string, Files>

    constructor ()
      ensures locks == map[] && disk == map[]
    {
      locks, disk := map[], map[];
    }
  }

  class LeaseTable {
    const proc: nat
    const host: Host
    var refs: Leases

    constructor (proc: nat, host: Host)
      ensures this.proc == proc && this.host == host && refs == map[]
      ensures host.locks == map[] && host.disk == map[] ==> Stands(INITIAL)
    {
      this.proc, this.host, refs := proc, host, map[];
    }

    /** This object is the table of its process in the world. */
    ghost predicate Stands(w: World)
      reads this, host
    {
      TableOf(w, proc) == refs && w.locks == host.locks && w.disk == host.disk
    }

    method AcquireStoreLease(key: string, ioOk: bool) returns (r: Result<()>)
      modifies `refs, host`locks
      ensures (refs, host.locks, r) == Acquire(old(refs), old(host.locks), proc, key, ioOk)
    {
      if key in refs {
        refs := refs[key := refs[key] + 1];
        return Ok(());
      }
      if !ioOk { return Err(IoFailed); }
      if key in host.locks { return Err(StoreOwned); }
      host.locks := host.locks[key := proc];
      refs := refs[key := 1];
      return Ok(());
    }

    method ReleaseStoreLease(key: string)
      modifies `refs, host`locks
      ensures (refs, host.locks) == Release(old(refs), old(host.locks), key)
    {
      if key !in refs { return; }
      refs := refs[key := refs[key] - 1];
      if refs[key] <= 0 {
        refs := refs - {key};
        assert refs == old(refs) - {key};
        host.locks := host.locks - {key};
      }
    }
  }

  class DirStore {
    const dir: string
    const table: LeaseTable
    var holds: bool
    var closed: bool

    ghost function View(): Store reads this {
      Store(table.proc, dir, holds, closed, None)
    }

    /** This object is one of the stores of the world: it shares the world's locks and directories, and its
        table is that of its process. Every method is a step of that world, so what `LeaseProofs` says of a
        reachable world holds of the objects that stand in it. */
    ghost predicate Stands(w: World, i: nat)
      reads this, table, table.host
    {
      Has(w, i, View(), table.refs, table.host.locks, table.host.disk)
    }

    /** A new store asks for its lease at once, and exists whether or not it gets it. */
    constructor (dir: string, table: LeaseTable, ioOk: bool)
      modifies table`refs, table.host`locks
      ensures this.dir == dir && this.table == table
      ensures var (s, refs, locks, got) :=
                Ensure(Store(table.proc, dir, false, false, None), old(table.refs), old(table.host.locks), ioOk);
              View() == s && table.refs == refs && table.host.locks == locks
      ensures forall w: World, i: nat | old(table.Stands(w)) && i !in w.stores ::
                Stands(Step(w, DoOpen(i, table.proc, dir, ioOk)), i)
    {
      this.dir, this.table, holds, closed := dir, table, false, false;
      new;
      var _ := EnsureLease(ioOk);
    }

    method EnsureLease(ioOk: bool) returns (r: Result<()>)
      modifies `holds, table`refs, table.host`locks
      ensures (View(), table.refs, table.host.locks, r) ==
              Ensure(old(View()), old(table.refs), old(table.host.locks), ioOk)
      ensures forall w, i | old(Stands(w, i)) :: Stands(Step(w, DoLeaseError(i, ioOk)), i)
    {
      if closed { return Err(StoreClosed); }
      if holds { return Ok(()); }
      if Blank(dir) { return Ok(()); }
      r := table.AcquireStoreLease(dir, ioOk);
      if r.Ok? { holds := true; }
    }

    method CloseStore()
      modifies this, table`refs, table.host`locks
      ensures (View(), table.refs, table.host.locks) == Close(old(View()), old(table.refs), old(table.host.locks))
      ensures forall w, i | old(Stands(w, i)) :: Stands(Step(w, DoClose(i)), i)
    {
      closed := true;
      if holds {
        holds := false;
        table.ReleaseStoreLease(dir);
      }
    }

    /** The lease gate of every operation, and what a refused or failed one leaves alone. */
    twostate predicate Gated(op: Op, leaseOk: bool, ioOk: bool, new r: Result<Reply>)
      reads this, table, table.host
    {
      var (s, refs, locks, got) := Ensure(old(View()), old(table.refs), old(table.host.locks), leaseOk);
      var (files, reply) := Operate(dir, FilesIn(old(table.host.disk), dir), op, ioOk);
      && View() == s && table.refs == refs && table.host.locks == locks
      && if got.Err? then r == Err(got.error) && table.host.disk == old(table.host.disk)
         else r == reply && table.host.disk == Written(old(table.host.disk), dir, files)
    }

    method SaveRecord(record: Record, leaseOk: bool, ioOk: bool) returns (r: Result<Reply>)
      modifies `holds, table`refs, table.host
      ensures Gated(Save(record), leaseOk, ioOk, r)
      ensures forall w, i | old(Stands(w, i)) :: Stands(Undisturbed(w, i, Save(record), leaseOk, ioOk), i)
    {
      hide Has, Undisturbed, Acquire, Trim, Blank, ValidId;
      UndisturbedHas(View(), table.refs, table.host.locks, table.host.disk, Save(record), leaseOk, ioOk);
      var got := EnsureLease(leaseOk);
      if got.Err? { return Err(got.error); }
      var safe := Trim(record.id);
      if !ValidId(safe) { return Err(BadId); }
      if Blank(dir) { return Err(DirEmpty); }
      if !ioOk { return Err(IoFailed); }
      SaveWrites(table.host.disk, dir, safe, record);
      table.host.disk := table.host.disk[dir := FilesIn(table.host.disk, dir)[safe := record]];
      return Ok(Saved);
    }

    method LoadRecord(id: string, leaseOk: bool, ioOk: bool) returns (r: Result<Reply>)
      modifies `holds, table`refs, table.host
      ensures Gated(Load(id), leaseOk, ioOk, r)
      ensures forall w, i | old(Stands(w, i)) :: Stands(Undisturbed(w, i, Load(id), leaseOk, ioOk), i)
    {
      hide Has, Undisturbed, Acquire, Trim, Blank, ValidId;
      UndisturbedHas(View(), table.refs, table.host.locks, table.host.disk, Load(id), leaseOk, ioOk);
      var got := EnsureLease(leaseOk);
      if got.Err? { return Err(got.error); }
      var safe := Trim(id);
      if !ValidId(safe) { return Err(BadId); }
      if Blank(dir) { return Err(DirEmpty); }
      if dir !in table.host.disk || safe !in table.host.disk[dir] { return Err(NotFound); }
      if !ioOk { return Err(IoFailed); }
      return Ok(Loaded(table.host.disk[dir][safe]));
    }

    method ListRecords(leaseOk: bool, ioOk: bool) returns (r: Result<Reply>)
      modifies `holds, table`refs, table.host
      ensures Gated(List, leaseOk, ioOk, r)
      ensures forall w, i | old(Stands(w, i)) :: Stands(Undisturbed(w, i, List, leaseOk, ioOk), i)
    {
      hide Has, Undisturbed, Acquire, Trim, Blank, ValidId;
      UndisturbedHas(View(), table.refs, table.host.locks, table.host.disk, List, leaseOk, ioOk);
      var got := EnsureLease(leaseOk);
      if got.Err? { return Err(got.error); }
      if Blank(dir) { return Err(DirEmpty); }
      if !ioOk { return Err(IoFailed); }
      return Ok(Listed(FilesIn(table.host.disk, dir)));
    }

    method DeleteRecord(id: string, leaseOk: bool, ioOk: bool) returns (r: Result<Reply>)
      modifies `holds, table`refs, table.host
      ensures Gated(Delete(id), leaseOk, ioOk, r)
      ensures forall w, i | old(Stands(w, i)) :: Stands(Undisturbed(w, i, Delete(id), leaseOk, ioOk), i)
    {
      hide Has, Undisturbed, Acquire, Trim, Blank, ValidId;
      UndisturbedHas(View(), table.refs, table.host.locks, table.host.disk, Delete(id), leaseOk, ioOk);
      var got := EnsureLease(leaseOk);
      if got.Err? { return Err(got.error); }
      var safe := Trim(id);
      if !ValidId(safe) { return Err(BadId); }
      if Blank(dir) { return Err(DirEmpty); }
      if !ioOk { return Err(IoFailed); }
      if dir in table.host.disk {
        table.host.disk := table.host.disk[dir := table.host.disk[dir] - {safe}];
      }
      return Ok(Deleted);
    }
  }
}
