/** The cache of finished runs: dropTerminalLocked and retainLocked of internal/chat/coordinator.go. */
module Retention {
  import opened Transcript

  const MAX_PROJECTION_BYTES: nat := 4 * 1024 * 1024
  const MAX_RETAINED_BYTES: nat := 32 * 1024 * 1024
  const MAX_RETAINED_SESSIONS: nat := 64

  datatype Cache = Cache(terminal: map<Key, Snapshot>, order: seq<Key>, bytes: int)

  const EMPTY_CACHE := Cache(map[], [], 0)

  /** The order without the first occurrence of a key. */
  function Without(order: seq<Key>, key: Key): seq<Key> {
    if order == [] then [] else if order[0] == key then order[1..] else [order[0]] + Without(order[1..], key)
  }

  function Drop(c: Cache, key: Key): Cache {
    Cache(c.terminal - {key}, Without(c.order, key),
          if key in c.terminal then c.bytes - SnapshotBytes(c.terminal[key]) else c.bytes)
  }

  /** A snapshot too large to keep is kept as a notice only. */
  function Stripped(s: Snapshot): Snapshot {
    if SnapshotBytes(s) > MAX_PROJECTION_BYTES then
      s.(messages := None, events := [], unsavedAvailable := false, projectionUnavailable := true)
    else s
  }

  predicate MustEvict(c: Cache, size: nat) {
    |c.order| > 0 && (|c.order| >= MAX_RETAINED_SESSIONS || c.bytes + size > MAX_RETAINED_BYTES)
  }

  function Evict(c: Cache, size: nat): Cache
    decreases |c.order|
  {
    if MustEvict(c, size) then Evict(Drop(c, c.order[0]), size) else c
  }

  function Insert(c: Cache, key: Key, s: Snapshot): Cache {
    Cache(c.terminal[key := s], c.order + [key], c.bytes + SnapshotBytes(s))
  }

  function Retain(c: Cache, key: Key, snap: Snapshot): Cache {
    var s := Stripped(snap);
    Insert(Evict(Drop(c, key), SnapshotBytes(s)), key, s)
  }

  // ---- Exact accounting ----

  predicate NoDuplicates(order: seq<Key>) {
    forall i, j :: 0 <= i < j < |order| ==> order[i] != order[j]
  }

  function TotalBytes(terminal: map<Key, Snapshot>, order: seq<Key>): nat
    requires forall k <- order :: k in terminal
  {
    if order == [] then 0 else SnapshotBytes(terminal[order[0]]) + TotalBytes(terminal, order[1..])
  }

  /** The order lists exactly the cached keys, once each, the counter is the exact sum of their sizes,
      at most 64 are kept, and the byte budget can only be passed by a single entry that is alone. */
  ghost predicate CacheInv(c: Cache) {
    && NoDuplicates(c.order)
    && (forall k :: k in c.order <==> k in c.terminal)
    && c.bytes == TotalBytes(c.terminal, c.order)
    && |c.order| <= MAX_RETAINED_SESSIONS
    && (c.bytes <= MAX_RETAINED_BYTES || |c.order| == 1)
  }

  lemma {:induction false} WithoutIsRemoval(order: seq<Key>, key: Key)
    requires NoDuplicates(order)
    ensures NoDuplicates(Without(order, key))
    ensures forall k :: k in Without(order, key) <==> k in order && k != key
    ensures |Without(order, key)| == if key in order then |order| - 1 else |order|
  {
    if order != [] {
      assert order == [order[0]] + order[1..];
      WithoutIsRemoval(order[1..], key);
      if order[0] == key {
        assert forall k <- order[1..] :: k != key;
      } else {
        var rest := Without(order[1..], key);
        assert Without(order, key) == [order[0]] + rest && order[0] !in rest;
        forall i, j | 0 <= i < j < |rest| + 1 ensures ([order[0]] + rest)[i] != ([order[0]] + rest)[j] {
          if i == 0 { assert rest[j - 1] in rest; }
        }
      }
    }
  }

  lemma {:induction false} TotalDrops(terminal: map<Key, Snapshot>, order: seq<Key>, key: Key)
    requires NoDuplicates(order) && forall k <- order :: k in terminal
    ensures forall k <- Without(order, key) :: k in terminal && k != key
    ensures TotalBytes(terminal - {key}, Without(order, key)) ==
            TotalBytes(terminal, order) - if key in order then SnapshotBytes(terminal[key]) else 0
  {
    WithoutIsRemoval(order, key);
    if order != [] {
      var rest := order[1..];
      assert order == [order[0]] + rest;
      TotalDrops(terminal, rest, key);
      if order[0] == key {
        assert key !in rest;
        TotalIgnores(terminal, rest, key);
      } else {
        var w := Without(order, key);
        assert w[0] == order[0] && w[1..] == Without(rest, key);
      }
    }
  }

  lemma {:induction false} TotalIgnores(terminal: map<Key, Snapshot>, order: seq<Key>, key: Key)
    requires key !in order && forall k <- order :: k in terminal
    ensures TotalBytes(terminal - {key}, order) == TotalBytes(terminal, order)
  {
    if order != [] { TotalIgnores(terminal, order[1..], key); }
  }

  lemma {:induction false} TotalInsert(terminal: map<Key, Snapshot>, order: seq<Key>, key: Key, s: Snapshot)
    requires key !in order && forall k <- order :: k in terminal
    ensures forall k <- order + [key] :: k in terminal[key := s]
    ensures TotalBytes(terminal[key := s], order + [key]) == TotalBytes(terminal, order) + SnapshotBytes(s)
  {
    if order == [] {
      assert [] + [key] == [key];
    } else {
      assert (order + [key])[1..] == order[1..] + [key];
      TotalInsert(terminal, order[1..], key, s);
    }
  }

  lemma DropKeeps(c: Cache, key: Key)
    requires CacheInv(c)
    ensures CacheInv(Drop(c, key))
    ensures Drop(c, key).bytes <= c.bytes
  {
    WithoutIsRemoval(c.order, key);
    TotalDrops(c.terminal, c.order, key);
    if |c.order| == 1 && key !in c.order { assert Drop(c, key).bytes == c.bytes; }
    if |c.order| == 1 && key in c.order { assert Drop(c, key).order == []; }
  }

  lemma DropHead(c: Cache)
    requires CacheInv(c) && c.order != []
    ensures CacheInv(Drop(c, c.order[0])) && Drop(c, c.order[0]).order == c.order[1..]
  {
    DropKeeps(c, c.order[0]);
  }

  /** The cache without its `n` oldest entries. */
  function DropOldest(c: Cache, n: nat): Cache
    decreases n
  {
    if n == 0 || c.order == [] then c else DropOldest(Drop(c, c.order[0]), n - 1)
  }

  lemma SuffixOfTail(order: seq<Key>, n: nat)
    requires 0 < n <= |order|
    ensures order[1..][n - 1..] == order[n..]
  {}

  lemma {:induction false} DropOldestIsSuffix(c: Cache, n: nat)
    requires CacheInv(c) && n <= |c.order|
    ensures DropOldest(c, n).order == c.order[n..]
    decreases n
  {
    hide CacheInv, Drop;
    if n == 0 {
      assert c.order[0..] == c.order;
    } else {
      var d := Drop(c, c.order[0]);
      DropHead(c);
      hide DropOldest;
      DropOldestIsSuffix(d, n - 1);
      SuffixOfTail(c.order, n);
    }
  }

  function Evicted(c: Cache, size: nat): nat
    decreases |c.order|
  {
    if MustEvict(c, size) then 1 + Evicted(Drop(c, c.order[0]), size) else 0
  }

  lemma {:induction false} EvictedIsLeast(c: Cache, size: nat, m: nat)
    requires m <= Evicted(c, size)
    ensures MustEvict(DropOldest(c, m), size) <==> m < Evicted(c, size)
    decreases m
  {
    if m > 0 { EvictedIsLeast(Drop(c, c.order[0]), size, m - 1); }
  }

  lemma {:induction false} EvictIsDropOldest(c: Cache, size: nat)
    requires CacheInv(c)
    ensures Evicted(c, size) <= |c.order| && Evict(c, size) == DropOldest(c, Evicted(c, size))
    decreases |c.order|
  {
    if MustEvict(c, size) {
      DropHead(c);
      EvictIsDropOldest(Drop(c, c.order[0]), size);
    }
  }

  /** There is no room: sixty-four ends are kept, or the bytes with these would be over 32 MiB. */
  predicate Crowded(c: Cache, size: nat) { |c.order| >= 64 || c.bytes + size > 32 * 1024 * 1024 }

  /** Eviction removes a prefix of the order, oldest first, and no shorter prefix would have made room. */
  lemma EvictsShortestPrefix(c: Cache, size: nat) returns (n: nat)
    requires CacheInv(c)
    ensures n <= |c.order| && Evict(c, size) == DropOldest(c, n) && Evict(c, size).order == c.order[n..]
    ensures forall m: nat :: m <= n ==> (m < n <==> DropOldest(c, m).order != [] && Crowded(DropOldest(c, m), size))
  {
    n := Evicted(c, size);
    EvictIsDropOldest(c, size);
    DropOldestIsSuffix(c, n);
    forall m: nat | m <= n ensures m < n <==> DropOldest(c, m).order != [] && Crowded(DropOldest(c, m), size) {
      EvictedIsLeast(c, size, m);
    }
  }

  /** Eviction touches nothing but the evicted entries, and afterwards there is room. */
  lemma {:induction false} EvictKeeps(c: Cache, size: nat)
    requires CacheInv(c)
    ensures CacheInv(Evict(c, size)) && !MustEvict(Evict(c, size), size)
    ensures Evict(c, size).terminal.Keys <= c.terminal.Keys
    ensures forall k <- Evict(c, size).terminal :: Evict(c, size).terminal[k] == c.terminal[k]
    decreases |c.order|
  {
    if MustEvict(c, size) {
      DropKeeps(c, c.order[0]);
      EvictKeeps(Drop(c, c.order[0]), size);
    }
  }

  lemma InsertKeeps(c: Cache, key: Key, s: Snapshot)
    requires CacheInv(c) && key !in c.terminal && !MustEvict(c, SnapshotBytes(s))
    ensures CacheInv(Insert(c, key, s))
  {
    TotalInsert(c.terminal, c.order, key, s);
    var order := c.order + [key];
    assert forall i :: 0 <= i < |c.order| ==> c.order[i] in c.order;
  }

  lemma RetainKeeps(c: Cache, key: Key, snap: Snapshot)
    requires CacheInv(c)
    ensures CacheInv(Retain(c, key, snap))
    ensures Retain(c, key, snap).terminal.Keys <= c.terminal.Keys + {key}
    ensures key in Retain(c, key, snap).terminal && Retain(c, key, snap).terminal[key] == Stripped(snap)
    ensures var order := Retain(c, key, snap).order; order != [] && order[|order| - 1] == key
    ensures forall k <- Retain(c, key, snap).terminal :: k != key ==> Retain(c, key, snap).terminal[k] == c.terminal[k]
  {
    var s := Stripped(snap);
    DropKeeps(c, key);
    EvictKeeps(Drop(c, key), SnapshotBytes(s));
    InsertKeeps(Evict(Drop(c, key), SnapshotBytes(s)), key, s);
  }

  /** The 32 MiB budget holds exactly while no single kept snapshot is larger than the budget by itself,
      which for a stripped snapshot means an outcome text of that size. */
  lemma BudgetHoldsIff(c: Cache)
    requires CacheInv(c)
    ensures c.bytes <= MAX_RETAINED_BYTES
            <==> forall k <- c.terminal :: SnapshotBytes(c.terminal[k]) <= MAX_RETAINED_BYTES
  {
    forall k <- c.terminal ensures SnapshotBytes(c.terminal[k]) <= c.bytes {
      EntryWithinTotal(c.terminal, c.order, k);
    }
    if |c.order| == 1 {
      assert c.order[0] in c.terminal;
      assert c.bytes == SnapshotBytes(c.terminal[c.order[0]]) + TotalBytes(c.terminal, c.order[1..]);
    }
  }

  lemma {:induction false} EntryWithinTotal(terminal: map<Key, Snapshot>, order: seq<Key>, key: Key)
    requires key in order && forall k <- order :: k in terminal
    ensures SnapshotBytes(terminal[key]) <= TotalBytes(terminal, order)
  {
    if order[0] != key {
      assert order == [order[0]] + order[1..];
      EntryWithinTotal(terminal, order[1..], key);
    }
  }

  /** Keeping a finished run leaves the cache within its byte budget exactly when what is kept of the run
      is within it, whatever was cached before. */
  lemma RetainFitsIff(c: Cache, key: Key, snap: Snapshot)
    requires CacheInv(c)
    ensures Retain(c, key, snap).bytes <= MAX_RETAINED_BYTES <==> SnapshotBytes(Stripped(snap)) <= MAX_RETAINED_BYTES
  {
    hide SnapshotBytes, Stripped;
    var size := SnapshotBytes(Stripped(snap));
    DropKeeps(c, key);
    var room := Evict(Drop(c, key), size);
    EvictKeeps(Drop(c, key), size);
    BytesNotNegative(room);
  }

  lemma BytesNotNegative(c: Cache)
    requires CacheInv(c)
    ensures c.bytes >= 0 && (c.order == [] ==> c.bytes == 0)
  {
  }

  /** What keeping a run leaves in an empty cache. */
  lemma RetainAlone(key: Key, snap: Snapshot)
    ensures Drop(EMPTY_CACHE, key) == EMPTY_CACHE
    ensures var c := Retain(EMPTY_CACHE, key, snap);
            c.terminal == map[key := Stripped(snap)] && c.bytes == SnapshotBytes(Stripped(snap))
  {
    hide SnapshotBytes, Stripped;
    assert Drop(EMPTY_CACHE, key) == EMPTY_CACHE;
  }
}
