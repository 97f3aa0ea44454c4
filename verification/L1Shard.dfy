/** One shard of the in-process cache: insertion with eviction, lookup with expiry. */
module L1Shard {
  import opened RankingTables
  import U = UserTable

  const L1_SHARDS: nat := 16

  /** div_ceil(max_entries, shards), at least one. */
  function MaxPerShard(maxEntries: nat): (m: nat)
    ensures m >= 1 && maxEntries <= m * L1_SHARDS && (m == 1 || (m - 1) * L1_SHARDS < maxEntries)
  {
    var m := (maxEntries + L1_SHARDS - 1) / L1_SHARDS;
    if m < 1 then 1 else m
  }

  datatype Entry<V> = Entry(value: V, deadline: int)
  type Entries<V> = map<string, Entry<V>>

  function Live<V>(m: Entries<V>, now: int): Entries<V> {
    map k | k in m && m[k].deadline > now :: m[k]
  }

  function Earlier<V>(m: Entries<V>, c: int): set<string> {
    set k | k in m && m[k].deadline < c
  }

  function UpTo<V>(m: Entries<V>, c: int): set<string> {
    set k | k in m && m[k].deadline <= c
  }

  function From<V>(m: Entries<V>, c: int): Entries<V> {
    map k | k in m && m[k].deadline >= c :: m[k]
  }

  /** `c` is the deadline at position `n` of the deadlines in ascending order. */
  predicate IsNth<V>(m: Entries<V>, n: nat, c: int) {
    |Earlier(m, c)| <= n < |UpTo(m, c)|
  }

  /** How many entries of a full shard with `n` live ones should go. */
  function Quota(n: nat): (q: nat)
    requires n >= 2
    ensures 1 <= q < n && q <= n
  {
    var q := if n / 4 < 1 then 1 else n / 4;
    if q < n - 1 then q else n - 1
  }

  /** What eviction may leave of `was`. */
  ghost predicate Evicts<V>(was: Entries<V>, now: Entries<V>, max: nat, clock: int) {
    if |was| < max then now == was
    else
      var live := Live(was, clock);
      if |live| < max || |live| <= 1 then now == live
      else exists c :: IsNth(live, Quota(|live|), c) && now == From(live, c)
  }

  // ------------------------------------------------------------- consequences

  ghost predicate DistinctDeadlines<V>(m: Entries<V>) {
    forall a, b | a in m && b in m && m[a].deadline == m[b].deadline :: a == b
  }

  lemma FromSize<V>(m: Entries<V>, c: int)
    ensures |From(m, c)| == |m| - |Earlier(m, c)|
  {
    assert m.Keys == From(m, c).Keys + Earlier(m, c);
    assert From(m, c).Keys !! Earlier(m, c);
    assert |From(m, c).Keys| == |From(m, c)| && |m.Keys| == |m|;
  }

  lemma DistinctNth<V>(m: Entries<V>, n: nat, c: int)
    requires DistinctDeadlines(m) && IsNth(m, n, c)
    ensures |Earlier(m, c)| == n
  {
    var at := UpTo(m, c) - Earlier(m, c);
    assert UpTo(m, c) == Earlier(m, c) + at;
    AtMostOne(at);
  }

  lemma AtMostOne<T>(s: set<T>)
    requires forall a, b | a in s && b in s :: a == b
    ensures |s| <= 1
  {
    if s != {} {
      var a :| a in s;
      assert s == {a};
    }
  }

  /** Eviction is oldest first and moderate: beyond expired entries it drops only
      live ones that end strictly before every kept one, at most a quarter of them
      or one; with distinct deadlines exactly that many, so that a full shard of two
      or more always gets smaller. */
  lemma EvictionIsFair<V>(was: Entries<V>, now: Entries<V>, max: nat, clock: int)
    requires Evicts(was, now, max, clock)
    ensures forall k | k in now :: k in was && now[k] == was[k]
    ensures |was| >= max ==> forall k | k in now :: was[k].deadline > clock
    ensures forall k, j | k in was && was[k].deadline > clock && k !in now && j in now :: was[k].deadline < now[j].deadline
    ensures var live := Live(was, clock);
            |was| >= max ==>
              && |now| <= |live| <= |now| + (if |live| / 4 < 1 then 1 else |live| / 4)
              && (|live| >= max && |live| >= 2 && DistinctDeadlines(live) ==> |now| == |live| - Quota(|live|))
  {
    var live := Live(was, clock);
    if |was| >= max && |live| >= max && |live| > 1 {
      var c :| IsNth(live, Quota(|live|), c) && now == From(live, c);
      FromSize(live, c);
      if DistinctDeadlines(live) { DistinctNth(live, Quota(|live|), c); }
    }
  }

  /** When a full shard stays as it is: exactly if more live entries than the quota
      share the earliest deadline. */
  lemma TiesStay<V>(was: Entries<V>, now: Entries<V>, max: nat, clock: int, first: int)
    requires Evicts(was, now, max, clock) && |was| >= max
    requires var live := Live(was, clock);
             && |live| >= max && |live| >= 2
             && (forall k | k in live :: first <= live[k].deadline) && exists k | k in live :: live[k].deadline == first
    ensures var live := Live(was, clock);
            now == live <==> |UpTo(live, first)| > Quota(|live|)
  {
    var live := Live(was, clock);
    var c :| IsNth(live, Quota(|live|), c) && now == From(live, c);
    if c <= first {
      assert Earlier(live, c) == {};
      assert From(live, c) == live;
      Nested(live, c, first);
    } else {
      assert UpTo(live, first) <= Earlier(live, c);
      SubsetSize(UpTo(live, first), Earlier(live, c));
      var k :| k in live && live[k].deadline == first;
      assert k !in now;
    }
  }

  lemma Nested<V>(m: Entries<V>, c: int, d: int)
    requires c <= d
    ensures |UpTo(m, c)| <= |UpTo(m, d)|
  {
    SubsetSize(UpTo(m, c), UpTo(m, d));
  }

  lemma SubsetSize<T>(a: set<T>, b: set<T>)
    requires a <= b
    ensures |a| <= |b|
  {
    assert b == a + (b - a);
  }

  // --------------------------------------------------------------- insertion

  datatype Insertion<V> = Insertion(key: string, entry: Entry<V>, clock: int)

  /** One insertion: evict, then store. */
  ghost predicate Inserts<V(!new)>(was: Entries<V>, now: Entries<V>, max: nat, i: Insertion<V>) {
    exists mid: Entries<V> :: Evicts(was, mid, max, i.clock) && now == mid[i.key := i.entry]
  }

  ghost predicate InsertRun<V(!new)>(was: Entries<V>, max: nat, run: seq<(Insertion<V>, Entries<V>)>)
    decreases |run|
  {
    run != [] ==> Inserts(was, run[0].1, max, run[0].0) && InsertRun(run[0].1, max, run[1..])
  }

  function Bound(max: nat): nat {
    if max < 2 then 2 else max
  }

  lemma RoomForOne<V>(was: Entries<V>, mid: Entries<V>, max: nat, clock: int)
    requires Evicts(was, mid, max, clock) && |was| <= Bound(max) && DistinctDeadlines(was)
    ensures |mid| + 1 <= Bound(max)
  {
    EvictionIsFair(was, mid, max, clock);
    hide Evicts;
    var live := Live(was, clock);
    assert |live| <= |was| by { SubsetSize(live.Keys, was.Keys); assert |live.Keys| == |live| && |was.Keys| == |was|; }
    assert DistinctDeadlines(live);
    if |was| < max { assert mid == was by { NotFull(was, mid, max, clock); } }
  }

  lemma NotFull<V>(was: Entries<V>, mid: Entries<V>, max: nat, clock: int)
    requires Evicts(was, mid, max, clock) && |was| < max
    ensures mid == was
  {
  }

  lemma InsertStaysBounded<V(!new)>(was: Entries<V>, now: Entries<V>, max: nat, i: Insertion<V>)
    requires Inserts(was, now, max, i) && |was| <= Bound(max) && DistinctDeadlines(was)
    ensures |now| <= Bound(max)
  {
    hide Evicts, DistinctDeadlines;
    var mid :| Evicts(was, mid, max, i.clock) && now == mid[i.key := i.entry];
    RoomForOne(was, mid, max, i.clock);
    assert now.Keys == mid.Keys + {i.key};
    assert |now.Keys| == |now| && |mid.Keys| == |mid|;
  }

  /** Over any sequence of insertions whose deadlines never coincide in the shard,
      the shard never outgrows max(2, max). */
  lemma {:induction false} ShardStaysBounded<V(!new)>(was: Entries<V>, max: nat, run: seq<(Insertion<V>, Entries<V>)>, n: nat)
    requires |was| <= Bound(max) && DistinctDeadlines(was) && InsertRun(was, max, run) && n < |run|
    requires forall i | 0 <= i < |run| :: DistinctDeadlines(run[i].1)
    ensures |run[n].1| <= Bound(max)
    decreases n
  {
    InsertStaysBounded(was, run[0].1, max, run[0].0);
    if n > 0 { ShardStaysBounded(run[0].1, max, run[1..], n - 1); }
  }

  /** With ties it can: a full shard whose live entries all end together keeps them
      all and takes one more. */
  lemma TiesOutgrow<V(!new)>(was: Entries<V>, now: Entries<V>, max: nat, i: Insertion<V>, deadline: int)
    requires Inserts(was, now, max, i) && |was| >= max && |was| >= 2
    requires deadline > i.clock && (forall k | k in was :: was[k].deadline == deadline) && i.key !in was
    ensures |now| == |was| + 1
  {
    var mid :| Evicts(was, mid, max, i.clock) && now == mid[i.key := i.entry];
    assert Live(was, i.clock) == was;
    assert |was.Keys| == |was|;
    var k :| k in was.Keys;
    assert UpTo(was, deadline) == was.Keys;
    TiesStay(was, mid, max, i.clock, deadline);
    assert now.Keys == was.Keys + {i.key};
    assert |now.Keys| == |now|;
  }

  // --------------------------------------------------------------------- shard

  lemma LiveNth<V>(m: Entries<V>, n: nat)
    requires n < |m|
    ensures exists k :: k in m && IsNth(m, n, m[k].deadline)
    decreases |m|
  {
    var k0 := Earliest(m);
    var d := m[k0].deadline;
    assert Earlier(m, d) == {};
    if |UpTo(m, d)| <= n {
      var rest := From(m, d + 1);
      assert Earlier(m, d + 1) == UpTo(m, d);
      FromSize(m, d + 1);
      assert k0 in UpTo(m, d);
      LiveNth(rest, n - |UpTo(m, d)|);
      var k :| k in rest && IsNth(rest, n - |UpTo(m, d)|, rest[k].deadline);
      var c := rest[k].deadline;
      assert Earlier(m, c) == UpTo(m, d) + Earlier(rest, c);
      assert UpTo(m, c) == UpTo(m, d) + UpTo(rest, c);
      assert IsNth(m, n, m[k].deadline);
    } else {
      assert IsNth(m, n, m[k0].deadline);
    }
  }

  lemma Earliest<V>(m: Entries<V>) returns (k: string)
    requires |m| > 0
    ensures k in m && forall j | j in m :: m[k].deadline <= m[j].deadline
    decreases |m|
  {
    assert |m.Keys| == |m|;
    var x :| x in m.Keys;
    var rest := m - {x};
    assert m.Keys == rest.Keys + {x} && |rest.Keys| == |rest|;
    if |rest| == 0 {
      k := x;
      assert forall j | j in m :: j in m.Keys;
    } else {
      k := Earliest(rest);
      if m[x].deadline < m[k].deadline { k := x; }
      assert forall j | j in m :: j == x || j in rest;
    }
  }

  class Shard<V> {
    const max: nat
    var entries: Entries<V>
    ghost var inserted: Entries<V>          // the last insertion under each key

    ghost predicate Valid()
      reads this
    {
      forall k | k in entries :: k in inserted && inserted[k] == entries[k]
    }

    constructor (maxEntries: nat)
      ensures Valid() && entries == map[] && inserted == map[] && max == MaxPerShard(maxEntries)
    {
      max := MaxPerShard(maxEntries);
      entries, inserted := map[], map[];
    }

    method SelectNth(m: Entries<V>, n: nat) returns (c: int)
      requires n < |m|
      ensures IsNth(m, n, c)
    {
      LiveNth(m, n);
      hide IsNth;
      var keys := U.Enumerate(m.Keys);
      ghost var k :| k in m && IsNth(m, n, m[k].deadline);
      assert k in m.Keys;
      ghost var found :| 0 <= found < |keys| && keys[found] == k;
      var i := 0;
      while !IsNth(m, n, m[keys[i]].deadline)
        invariant 0 <= i <= found
        decreases found - i
      {
        i := i + 1;
      }
      c := m[keys[i]].deadline;
    }

    method EvictIfFull(clock: int)
      requires Valid()
      modifies this`entries
      ensures Valid() && Evicts(old(entries), entries, max, clock)
    {
      if |entries| < max { return; }
      entries := Live(entries, clock);
      if |entries| < max || |entries| <= 1 { return; }
      var drop := Quota(|entries|);
      var cutoff := SelectNth(entries, drop);
      entries := From(entries, cutoff);
    }

    method Insert(key: string, value: V, deadline: int, clock: int)
      requires Valid()
      modifies this
      ensures Valid() && inserted == old(inserted)[key := Entry(value, deadline)]
      ensures exists mid :: Evicts(old(entries), mid, max, clock) && entries == mid[key := Entry(value, deadline)]
    {
      EvictIfFull(clock);
      ghost var mid := entries;
      entries := entries[key := Entry(value, deadline)];
      inserted := inserted[key := Entry(value, deadline)];
      assert entries == mid[key := Entry(value, deadline)];
    }

    /** A lookup answers only with the last value inserted under its key, and only
        before that value's deadline. */
    method Get(key: string, clock: int) returns (r: Option<V>)
      requires Valid()
      modifies this`entries
      ensures Valid()
      ensures r.Some? ==> key in inserted && r.value == inserted[key].value && clock < inserted[key].deadline
      ensures r.None? <==> !(key in old(entries) && old(entries)[key].deadline > clock)
      ensures entries == if r.Some? then old(entries) else old(entries) - {key}
    {
      r := None;
      if key in entries {
        if entries[key].deadline > clock {
          r := Some(entries[key].value);
        } else {
          entries := entries - {key};
        }
      }
    }
  }
}
