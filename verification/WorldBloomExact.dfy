/** The World Bloom pre-diff is exact: a tracker that skips the rows it remembers
    and one that builds and diffs them all go through the same rows, states, memos
    and user keys. */
module WorldBloomExact {
  import opened RankingTables
  import opened RankDiff
  import opened Storage
  import opened WorldBloomRows
  import opened Tracker
  import U = UserTable

  /** The remembered keys are those of the user table. */
  ghost predicate MemoHolds(memo: Memo, users: Users) {
    forall u | u in memo :: u in users && users[u].key == memo[u]
  }

  // ---------------------------------------------------- the rows that are built

  /** In a filtered list every record of the full one is kept or was unchanged. */
  lemma {:induction false} ChapterFilter(time: int, c: int, rankings: seq<Player>, memo: Memo, prev: ChapterStates, users: Users)
    requires MemoHolds(memo, users)
    requires Known(users, RowsOfChapter(time, c, rankings, false, memo, prev))
    ensures Known(users, RowsOfChapter(time, c, rankings, true, memo, prev))
    ensures ChangedChapters(users, prev, RowsOfChapter(time, c, rankings, false, memo, prev))
         == ChangedChapters(users, prev, RowsOfChapter(time, c, rankings, true, memo, prev))
  {
    if rankings != [] {
      var init := rankings[..|rankings| - 1];
      var last := rankings[|rankings| - 1];
      var all, some := RowsOfChapter(time, c, init, false, memo, prev), RowsOfChapter(time, c, init, true, memo, prev);
      if Named(last) {
        var r := ChapterRecord(RecordOf(time, last), c);
        KnownInit(users, all, [r]);
        ChapterFilter(time, c, init, memo, prev, users);
        ChangedAppend(users, prev, all, [r]);
        if Kept(true, memo, prev, c, last) {
          KnownJoin(users, some, [r]);
          ChangedAppend(users, prev, some, [r]);
        } else {
          assert ChangedChapters(users, prev, [r]) == [] by { assert [r][..0] == []; }
        }
      } else {
        ChapterFilter(time, c, init, memo, prev, users);
      }
    }
  }

  lemma KnownInit(users: Users, a: seq<ChapterRecord>, b: seq<ChapterRecord>)
    requires Known(users, a + b)
    ensures Known(users, a) && Known(users, b)
  {
    assert forall k | 0 <= k < |a| :: (a + b)[k] == a[k];
    assert forall k | 0 <= k < |b| :: (a + b)[|a| + k] == b[k];
  }

  lemma KnownJoin(users: Users, a: seq<ChapterRecord>, b: seq<ChapterRecord>)
    requires Known(users, a) && Known(users, b)
    ensures Known(users, a + b)
  {
  }

  lemma {:induction false} ChangedAppend(users: Users, prev: ChapterStates, a: seq<ChapterRecord>, b: seq<ChapterRecord>)
    requires Known(users, a + b) && Known(users, a) && Known(users, b)
    ensures ChangedChapters(users, prev, a + b) == ChangedChapters(users, prev, a) + ChangedChapters(users, prev, b)
    decreases |b|
  {
    if b == [] {
      assert a + b == a;
    } else {
      var init := b[..|b| - 1];
      assert (a + b)[..|a + b| - 1] == a + init;
      KnownInit(users, a + init, [b[|b| - 1]]) by { assert (a + init) + [b[|b| - 1]] == a + b; }
      ChangedAppend(users, prev, a, init);
    }
  }

  lemma {:induction false} Filtered(time: int, order: seq<int>, chapters: ChapterRankings, memo: Memo, prev: ChapterStates, users: Users)
    requires MemoHolds(memo, users)
    requires Known(users, RowsOf(time, order, chapters, false, memo, prev))
    ensures Known(users, RowsOf(time, order, chapters, true, memo, prev))
    ensures ChangedChapters(users, prev, RowsOf(time, order, chapters, false, memo, prev))
         == ChangedChapters(users, prev, RowsOf(time, order, chapters, true, memo, prev))
  {
    if order != [] {
      var c := order[|order| - 1];
      var init := order[..|order| - 1];
      if c in chapters {
        var all, some := RowsOf(time, init, chapters, false, memo, prev), RowsOf(time, init, chapters, true, memo, prev);
        var a, b := RowsOfChapter(time, c, chapters[c], false, memo, prev), RowsOfChapter(time, c, chapters[c], true, memo, prev);
        KnownInit(users, all, a);
        Filtered(time, init, chapters, memo, prev, users);
        ChapterFilter(time, c, chapters[c], memo, prev, users);
        KnownJoin(users, some, b);
        ChangedAppend(users, prev, all, a);
        ChangedAppend(users, prev, some, b);
      } else {
        Filtered(time, init, chapters, memo, prev, users);
      }
    }
  }

  // --------------------------------------------------------- what users matter

  ghost predicate SameKeys(a: Users, b: Users) {
    (forall u :: u in a <==> u in b) && forall u | u in a :: a[u].key == b[u].key
  }

  lemma {:induction false} ChangedBySameKeys(a: Users, b: Users, prev: ChapterStates, rows: seq<ChapterRecord>)
    requires SameKeys(a, b) && Known(a, rows)
    ensures Known(b, rows) && ChangedChapters(a, prev, rows) == ChangedChapters(b, prev, rows)
    ensures ChapterStatesOf(a, prev, rows) == ChapterStatesOf(b, prev, rows)
  {
    if rows != [] { ChangedBySameKeys(a, b, prev, rows[..|rows| - 1]); }
  }

  lemma RowsBySameKeys(stamps: Stamps, a: Users, b: Users, rows: seq<ChapterRecord>)
    requires SameKeys(a, b) && Resolved(stamps, a, Bases(rows))
    ensures Resolved(stamps, b, Bases(rows)) && ChapterRows(stamps, a, rows) == ChapterRows(stamps, b, rows)
  {
    assert Resolved(stamps, b, Bases(rows));
    var x, y := ChapterRows(stamps, a, rows), ChapterRows(stamps, b, rows);
    forall k | 0 <= k < |rows| ensures x[k] == y[k] {
      assert Bases(rows)[k] == rows[k].base;
      assert x[k] == ChapterRow(stamps, a, rows[k]) && y[k] == ChapterRow(stamps, b, rows[k]);
    }
  }

  /** A row brought up to the payload, with a given key. */
  function Brought(before: Option<U.UserRow>, key: nat, info: U.UserDim, unique: bool): U.UserRow {
    U.UserRow(if before.Some? then before.value.key else key, info.name,
              U.Or(info.team, if before.Some? then before.value.team else None),
              if unique then info.uniqueId else if before.Some? then before.value.uniqueId else None,
              Some(info.profileHash))
  }

  /** The users of `dims` upserted into `was`, new ones under the keys of `model`. */
  function Assigned(was: Users, dims: map<int, U.UserDim>, model: Users): Users
    requires forall u | u in dims :: u in model
  {
    map u | u in was.Keys + dims.Keys ::
      if u in dims then Brought(U.Lookup(was, u), model[u].key, dims[u], U.UsesUniqueIds(dims)) else was[u]
  }

  /** Only those users of `dims` that `model` has and `was` lacks. */
  function Added(was: Users, dims: map<int, U.UserDim>, model: Users): Users {
    map u | u in was.Keys + (dims.Keys * model.Keys) ::
      if u in was then was[u] else Brought(None, model[u].key, dims[u], U.UsesUniqueIds(dims))
  }

  lemma AssignedUpserts(was: Users, dims: map<int, U.UserDim>, model: Users)
    requires forall u | u in dims :: u in model
    requires forall u | u in was :: u in model && model[u].key == was[u].key
    requires forall u | u in model :: u in was || u in dims
    ensures U.Upserted(was, Assigned(was, dims, model), dims)
    ensures SameKeys(Assigned(was, dims, model), model)
  {
  }

  lemma AddedExtends(was: Users, dims: map<int, U.UserDim>, model: Users)
    requires forall u | u in was :: u in model && model[u].key == was[u].key
    requires forall u | u in model :: u in was || u in dims
    ensures U.Extends(was, Added(was, dims, model), dims)
    ensures SameKeys(Added(was, dims, model), model)
  {
  }

  // ------------------------------------------------------------- simulation

  /** One side: the tables, the chapter states and the memo. */
  datatype Side = Side(tables: Tables, states: ChapterStates, memo: Memo)

  /** Everything but the non-key columns of the user table. */
  ghost predicate Alike(a: Side, b: Side) {
    && a.tables.stamps == b.tables.stamps && a.tables.rows == b.tables.rows
    && SameKeys(a.tables.users, b.tables.users)
    && a.states == b.states && a.memo == b.memo
  }

  ghost predicate Good(a: Side) {
    Sound(a.tables) && MemoHolds(a.memo, a.tables.users)
  }

  /** The World Bloom part of a tick for the records `rows`, failing or not. */
  ghost predicate Phase(id: PublicId, rows: seq<ChapterRecord>, s: Side, t: Side) {
    || (exists inserted: nat :: ChaptersLanded(id, rows, s.tables, t.tables, s.states, t.states, s.memo, t.memo, inserted))
    || (rows != [] && Storage.ChaptersFailed(id, s.tables, t.tables, rows, s.states, t.states, s.memo, t.memo))
  }

  /** The lists differ only in records whose users are remembered and unchanged. */
  ghost predicate Equivalent(id: PublicId, time: int, x: seq<ChapterRecord>, y: seq<ChapterRecord>, s: Side) {
    && (forall r | r in x :: r.base.timestamp == time) && (forall r | r in y :: r.base.timestamp == time)
    && (forall u | u !in s.memo :: u in DimsOf(id, Bases(x)) <==> u in DimsOf(id, Bases(y)))
    && (forall users | Known(users, x) && Known(users, y) && MemoHolds(s.memo, users) ::
          ChangedChapters(users, s.states, x) == ChangedChapters(users, s.states, y))
  }

  /** After any phase: keys stay, and only users of the records are new. */
  ghost predicate UsersOnly(id: PublicId, x: seq<ChapterRecord>, was: Users, now: Users) {
    && (forall u | u in was :: u in now && now[u].key == was[u].key)
    && (forall u | u in now :: u in was || u in DimsOf(id, Bases(x)))
  }

  lemma PhaseUsers(id: PublicId, x: seq<ChapterRecord>, s: Side, t: Side)
    requires Sound(s.tables) && Phase(id, x, s, t)
    ensures UsersOnly(id, x, s.tables.users, t.tables.users) && Sound(t.tables)
  {
    var dims := DimsOf(id, Bases(x));
    if exists inserted: nat :: ChaptersLanded(id, x, s.tables, t.tables, s.states, t.states, s.memo, t.memo, inserted) {
      var inserted: nat :| ChaptersLanded(id, x, s.tables, t.tables, s.states, t.states, s.memo, t.memo, inserted);
      if x != [] { assert U.Upserted(s.tables.users, t.tables.users, dims); }
    } else {
      assert U.Extends(s.tables.users, t.tables.users, dims);
    }
  }

  /** Feeding the memo with either list comes to the same. */
  lemma FedAlike(id: PublicId, x: seq<ChapterRecord>, y: seq<ChapterRecord>, s: Side, a: Users, b: Users)
    requires MemoHolds(s.memo, a) && SameKeys(a, b)
    requires forall u | u !in s.memo :: u in DimsOf(id, Bases(x)) <==> u in DimsOf(id, Bases(y))
    requires forall u | u in DimsOf(id, Bases(x)) :: u in a
    requires forall u | u in DimsOf(id, Bases(y)) :: u in b
    ensures Fed(s.memo, a, DimsOf(id, Bases(x)).Keys) == Fed(s.memo, b, DimsOf(id, Bases(y)).Keys)
  {
    hide DimsOf, MemoHolds, SameKeys, Fed;
    FedFrom(s.memo, DimsOf(id, Bases(x)).Keys, DimsOf(id, Bases(y)).Keys, a, b);
  }

  lemma FedFrom(memo: Memo, us: set<int>, vs: set<int>, a: Users, b: Users)
    requires MemoHolds(memo, a) && SameKeys(a, b)
    requires forall u | u !in memo :: u in us <==> u in vs
    requires (forall u | u in us :: u in a) && forall u | u in vs :: u in b
    ensures Fed(memo, a, us) == Fed(memo, b, vs)
  {
    var p, q := Fed(memo, a, us), Fed(memo, b, vs);
    forall u ensures u in p <==> u in q {}
    forall u | u in p ensures p[u] == q[u] {}
  }

  lemma OneTime(x: seq<ChapterRecord>, time: int)
    requires x != [] && forall r | r in x :: r.base.timestamp == time
    ensures TimesOf(Bases(x)) == {time}
  {
    forall ts ensures ts in TimesOf(Bases(x)) <==> ts == time {
      if ts in TimesOf(Bases(x)) {
        var b :| b in Bases(x) && b.timestamp == ts;
        var i :| 0 <= i < |x| && Bases(x)[i] == b;
        assert x[i] in x;
      }
      assert x[0] in x && Bases(x)[0] in Bases(x);
    }
  }

  lemma KnownUsers(id: PublicId, x: seq<ChapterRecord>, users: Users)
    requires forall u | u in DimsOf(id, Bases(x)) :: u in users
    ensures Known(users, x)
  {
    forall k | 0 <= k < |x| ensures x[k].base.userId in users {
      assert Bases(x)[k].userId == x[k].base.userId;
    }
  }

  /** The model users of one side cover the records of the other. */
  lemma Covers(id: PublicId, time: int, x: seq<ChapterRecord>, y: seq<ChapterRecord>, s: Side, model: Users)
    requires Good(s) && Equivalent(id, time, x, y, s) && UsersOnly(id, x, s.tables.users, model)
    ensures UsersOnly(id, y, s.tables.users, model) && MemoHolds(s.memo, model)
    ensures (forall u | u in DimsOf(id, Bases(x)) :: u in model) ==> (forall u | u in DimsOf(id, Bases(y)) :: u in model)
  {
  }

  /** What a landed phase did, whether it had records or not. */
  ghost predicate Landed(id: PublicId, x: seq<ChapterRecord>, s: Side, t: Side, inserted: nat) {
    && Sound(t.tables)
    && (forall u | u in DimsOf(id, Bases(x)) :: u in t.tables.users)
    && t.memo == Fed(s.memo, t.tables.users, DimsOf(id, Bases(x)).Keys)
    && ChaptersApplied(s.tables, t.tables, x, s.states, t.states, inserted)
  }

  lemma LandedMeans(id: PublicId, x: seq<ChapterRecord>, s: Side, t: Side, inserted: nat)
    requires Sound(s.tables) && ChaptersLanded(id, x, s.tables, t.tables, s.states, t.states, s.memo, t.memo, inserted)
    ensures Landed(id, x, s, t, inserted)
  {
    if x == [] {
      assert DimsOf(id, Bases(x)) == map[];
    }
  }

  /** The same changes, applied on the other side. */
  lemma AppliedAlike(id: PublicId, time: int, x: seq<ChapterRecord>, y: seq<ChapterRecord>, s: Side, t: Side,
                     was: Tables, now: Tables, inserted: nat)
    requires Equivalent(id, time, x, y, s) && MemoHolds(s.memo, t.tables.users) && Known(t.tables.users, x) && Known(t.tables.users, y)
    requires ChaptersApplied(s.tables, t.tables, x, s.states, t.states, inserted)
    requires was.stamps == s.tables.stamps && was.rows == s.tables.rows
    requires now.stamps == t.tables.stamps && now.rows == t.tables.rows && SameKeys(t.tables.users, now.users)
    ensures ChaptersApplied(was, now, y, s.states, t.states, inserted)
  {
    var changed := ChangedChapters(t.tables.users, s.states, x);
    assert changed == ChangedChapters(t.tables.users, s.states, y);
    ChangedBySameKeys(t.tables.users, now.users, s.states, y);
    ChangedBySameKeys(t.tables.users, now.users, s.states, changed);
    if changed != [] {
      assert x != [] && y != [];
      OneTime(x, time);
      OneTime(y, time);
      RowsBySameKeys(t.tables.stamps, t.tables.users, now.users, changed);
    }
  }

  /** The users the other side's upsert leaves, with the keys of this side's. */
  lemma UsersAlike(id: PublicId, time: int, x: seq<ChapterRecord>, y: seq<ChapterRecord>, s1: Side, t1: Side, was: Users)
    returns (users: Users)
    requires Good(s1) && SameKeys(s1.tables.users, was) && Equivalent(id, time, x, y, s1)
    requires UsersOnly(id, x, s1.tables.users, t1.tables.users) && forall u | u in DimsOf(id, Bases(x)) :: u in t1.tables.users
    requires t1.memo == Fed(s1.memo, t1.tables.users, DimsOf(id, Bases(x)).Keys)
    ensures U.Upserted(was, users, DimsOf(id, Bases(y))) && SameKeys(t1.tables.users, users)
    ensures (forall u | u in DimsOf(id, Bases(y)) :: u in t1.tables.users) && MemoHolds(s1.memo, t1.tables.users)
    ensures UsersOnly(id, y, s1.tables.users, t1.tables.users)
    ensures t1.memo == Fed(s1.memo, users, DimsOf(id, Bases(y)).Keys)
  {
    hide Equivalent, Sound, U.Upserted, Fed, Assigned, DimsOf, Bases, MemoHolds;
    var model := t1.tables.users;
    Covers(id, time, x, y, s1, model);
    users := Assigned(was, DimsOf(id, Bases(y)), model);
    AssignedUpserts(was, DimsOf(id, Bases(y)), model);
    EquivalentUsers(id, time, x, y, s1);
    FedAlike(id, x, y, s1, model, users);
  }

  lemma SimulateLanded(id: PublicId, time: int, x: seq<ChapterRecord>, y: seq<ChapterRecord>, s1: Side, t1: Side, s2: Side, inserted: nat)
    returns (t2: Side)
    requires Good(s1) && Alike(s1, s2) && Equivalent(id, time, x, y, s1)
    requires UsersOnly(id, x, s1.tables.users, t1.tables.users) && Landed(id, x, s1, t1, inserted)
    ensures ChaptersLanded(id, y, s2.tables, t2.tables, s2.states, t2.states, s2.memo, t2.memo, inserted) && Alike(t1, t2)
  {
    hide Equivalent, ChaptersApplied, Sound, U.Upserted, Fed, DimsOf, Bases, MemoHolds, Known, ChangedChapters, Good, UsersOnly;
    var users := UsersAlike(id, time, x, y, s1, t1, s2.tables.users);
    KnownUsers(id, x, t1.tables.users);
    KnownUsers(id, y, t1.tables.users);
    var tables := Tables(users, t1.tables.stamps, t1.tables.rows);
    AppliedAlike(id, time, x, y, s1, t1, s2.tables, tables, inserted);
    SoundAlike(t1.tables, tables);
    t2 := Side(tables, t1.states, t1.memo);
    if y == [] {
      NobodyNew(id, s1.tables.users, t1.tables.users, s2.tables.users);
      NothingApplied(id, s2, t2, inserted);
      t2 := s2;
    } else {
      assert ChaptersInserted(id, s2.tables, tables, y, s2.states, t1.states, s2.memo, t1.memo, inserted);
    }
  }

  lemma EquivalentUsers(id: PublicId, time: int, x: seq<ChapterRecord>, y: seq<ChapterRecord>, s: Side)
    requires Equivalent(id, time, x, y, s)
    ensures forall u | u !in s.memo :: u in DimsOf(id, Bases(x)) <==> u in DimsOf(id, Bases(y))
  {
  }

  lemma SoundAlike(a: Tables, b: Tables)
    requires Sound(a) && SameKeys(a.users, b.users) && a.stamps == b.stamps
    ensures Sound(b)
  {
  }

  lemma NothingApplied(id: PublicId, s: Side, t: Side, inserted: nat)
    requires ChaptersApplied(s.tables, t.tables, [], s.states, t.states, inserted)
    requires t.memo == Fed(s.memo, t.tables.users, DimsOf(id, Bases([])).Keys)
    ensures t.tables.stamps == s.tables.stamps && t.tables.rows == s.tables.rows && t.states == s.states && t.memo == s.memo && inserted == 0
  {
  }

  lemma SimulateFailed(id: PublicId, time: int, x: seq<ChapterRecord>, y: seq<ChapterRecord>, s1: Side, t1: Side, s2: Side)
    returns (t2: Side)
    requires Good(s1) && Sound(s2.tables) && Alike(s1, s2) && Equivalent(id, time, x, y, s1)
    requires UsersOnly(id, x, s1.tables.users, t1.tables.users)
    requires Storage.ChaptersFailed(id, s1.tables, t1.tables, x, s1.states, t1.states, s1.memo, t1.memo)
    ensures Phase(id, y, s2, t2) && Alike(t1, t2)
  {
    if t1.memo == s1.memo {
      t2 := SimulateUnfed(id, time, x, y, s1, t1, s2);
    } else {
      t2 := SimulateFed(id, time, x, y, s1, t1, s2);
    }
  }

  /** The user upsert failed, perhaps after some of its chunks. */
  lemma SimulateUnfed(id: PublicId, time: int, x: seq<ChapterRecord>, y: seq<ChapterRecord>, s1: Side, t1: Side, s2: Side)
    returns (t2: Side)
    requires Good(s1) && Sound(s2.tables) && Alike(s1, s2) && Equivalent(id, time, x, y, s1)
    requires UsersOnly(id, x, s1.tables.users, t1.tables.users) && t1.memo == s1.memo
    requires Storage.ChaptersFailed(id, s1.tables, t1.tables, x, s1.states, t1.states, s1.memo, t1.memo)
    ensures Phase(id, y, s2, t2) && Alike(t1, t2)
  {
    hide Equivalent, Sound, U.Upserted, U.Extends, Fed, ChaptersInserted, Added, Bases, MemoHolds, Known, ChangedChapters;
    var model := t1.tables.users;
    var dims := DimsOf(id, Bases(y));
    Covers(id, time, x, y, s1, model);
    var users := Added(s2.tables.users, dims, model);
    AddedExtends(s2.tables.users, dims, model);
    var tables := Tables(users, t1.tables.stamps, t1.tables.rows);
    SoundAlike(t1.tables, tables);
    t2 := Side(tables, t1.states, t1.memo);
    if y == [] {
      assert SameKeys(users, s2.tables.users);
      t2 := s2;
      assert ChaptersLanded(id, y, s2.tables, t2.tables, s2.states, t2.states, s2.memo, t2.memo, 0);
    } else {
      assert Storage.ChaptersFailed(id, s2.tables, tables, y, s2.states, t2.states, s2.memo, t2.memo);
    }
  }

  /** The users were stored and remembered, and then the transaction failed. */
  lemma SimulateFed(id: PublicId, time: int, x: seq<ChapterRecord>, y: seq<ChapterRecord>, s1: Side, t1: Side, s2: Side)
    returns (t2: Side)
    requires Good(s1) && Sound(s2.tables) && Alike(s1, s2) && Equivalent(id, time, x, y, s1)
    requires UsersOnly(id, x, s1.tables.users, t1.tables.users) && t1.memo != s1.memo
    requires Storage.ChaptersFailed(id, s1.tables, t1.tables, x, s1.states, t1.states, s1.memo, t1.memo)
    ensures Phase(id, y, s2, t2) && Alike(t1, t2)
  {
    hide Equivalent, Sound, U.Upserted, U.Extends, Fed, ChaptersInserted, ChaptersLanded, OnlyUsers, Bases, MemoHolds, Known, ChangedChapters;
    FedUsers(id, s1.tables.users, t1.tables.users, x, s1.memo, t1.memo);
    var users := UsersAlike(id, time, x, y, s1, t1, s2.tables.users);
    var tables := Tables(users, t1.tables.stamps, t1.tables.rows);
    SoundAlike(t1.tables, tables);
    t2 := Side(tables, t1.states, t1.memo);
    assert y != [] by { if y == [] { NothingFed(id, s1.memo, users); } }
    assert Storage.ChaptersFailed(id, s2.tables, tables, y, s2.states, t2.states, s2.memo, t2.memo);
  }

  lemma FedUsers(id: PublicId, was: Users, now: Users, x: seq<ChapterRecord>, memo: Memo, fed: Memo)
    requires UsersFed(id, was, now, x, memo, fed)
    ensures forall u | u in DimsOf(id, Bases(x)) :: u in now
    ensures fed == Fed(memo, now, DimsOf(id, Bases(x)).Keys)
  {
  }

  lemma NobodyNew(id: PublicId, was: Users, now: Users, other: Users)
    requires UsersOnly(id, [], was, now) && SameKeys(was, other)
    ensures SameKeys(now, other)
  {
  }

  lemma NothingFed(id: PublicId, memo: Memo, users: Users)
    ensures Fed(memo, users, DimsOf(id, Bases([])).Keys) == memo
  {
  }

  /** Whatever one side's phase does, the other's can do too. */
  lemma Simulate(id: PublicId, time: int, x: seq<ChapterRecord>, y: seq<ChapterRecord>, s1: Side, t1: Side, s2: Side)
    returns (t2: Side)
    requires Good(s1) && Sound(s2.tables) && Alike(s1, s2) && Equivalent(id, time, x, y, s1) && Phase(id, x, s1, t1)
    ensures Phase(id, y, s2, t2) && Alike(t1, t2)
  {
    hide ChaptersLanded, Storage.ChaptersFailed, Equivalent, UsersOnly, Sound, Alike;
    PhaseUsers(id, x, s1, t1);
    if exists inserted: nat :: ChaptersLanded(id, x, s1.tables, t1.tables, s1.states, t1.states, s1.memo, t1.memo, inserted) {
      var inserted: nat :| ChaptersLanded(id, x, s1.tables, t1.tables, s1.states, t1.states, s1.memo, t1.memo, inserted);
      LandedMeans(id, x, s1, t1, inserted);
      t2 := SimulateLanded(id, time, x, y, s1, t1, s2, inserted);
    } else {
      t2 := SimulateFailed(id, time, x, y, s1, t1, s2);
    }
  }

  // --------------------------------------------------- filtered and unfiltered

  /** A row that the filter drops belongs to a remembered user. */
  lemma {:induction false} DroppedAreRemembered(time: int, order: seq<int>, chapters: ChapterRankings,
                                                memo: Memo, prev: ChapterStates, u: int)
    requires u !in memo
    ensures (exists r :: r in RowsOf(time, order, chapters, false, memo, prev) && r.base.userId == u)
       <==> (exists r :: r in RowsOf(time, order, chapters, true, memo, prev) && r.base.userId == u)
  {
    if order != [] {
      var c := order[|order| - 1];
      DroppedAreRemembered(time, order[..|order| - 1], chapters, memo, prev, u);
      if c in chapters {
        DroppedInChapter(time, c, chapters[c], memo, prev, u);
      }
    }
  }

  lemma {:induction false} DroppedInChapter(time: int, c: int, rankings: seq<Player>, memo: Memo, prev: ChapterStates, u: int)
    requires u !in memo
    ensures (exists r :: r in RowsOfChapter(time, c, rankings, false, memo, prev) && r.base.userId == u)
       <==> (exists r :: r in RowsOfChapter(time, c, rankings, true, memo, prev) && r.base.userId == u)
  {
    if rankings != [] { DroppedInChapter(time, c, rankings[..|rankings| - 1], memo, prev, u); }
  }

  lemma UserOf(id: PublicId, x: seq<ChapterRecord>, u: int)
    ensures u in DimsOf(id, Bases(x)) <==> exists r :: r in x && r.base.userId == u
  {
    if u in DimsOf(id, Bases(x)) {
      var k :| 0 <= k < |Bases(x)| && Bases(x)[k].userId == u;
      assert x[k] in x && x[k].base.userId == u;
    }
    if exists r :: r in x && r.base.userId == u {
      var r :| r in x && r.base.userId == u;
      var k :| 0 <= k < |x| && x[k] == r;
      assert Bases(x)[k].userId == u;
    }
  }

  lemma FilterIsEquivalent(id: PublicId, time: int, order: seq<int>, chapters: ChapterRankings, s: Side)
    ensures var all := RowsOf(time, order, chapters, false, s.memo, s.states);
            var some := RowsOf(time, order, chapters, true, s.memo, s.states);
            Equivalent(id, time, all, some, s) && Equivalent(id, time, some, all, s)
  {
    var all := RowsOf(time, order, chapters, false, s.memo, s.states);
    var some := RowsOf(time, order, chapters, true, s.memo, s.states);
    ChapterTimes(time, order, chapters, false, s.memo, s.states);
    ChapterTimes(time, order, chapters, true, s.memo, s.states);
    forall u | u !in s.memo ensures u in DimsOf(id, Bases(all)) <==> u in DimsOf(id, Bases(some)) {
      UserOf(id, all, u);
      UserOf(id, some, u);
      DroppedAreRemembered(time, order, chapters, s.memo, s.states, u);
    }
    forall users | Known(users, all) && Known(users, some) && MemoHolds(s.memo, users)
      ensures ChangedChapters(users, s.states, all) == ChangedChapters(users, s.states, some)
    {
      Filtered(time, order, chapters, s.memo, s.states, users);
    }
  }

  // --------------------------------------------------------------------- runs

  /** The World Bloom part of a tick, or anything else that happens to the tables:
      main inserts, heartbeats and user refreshes leave states and memo alone. */
  datatype Move = Chapters(time: int, order: seq<int>, chapters: ChapterRankings) | Elsewhere
  datatype Step = Step(move: Move, after: Side)

  ghost predicate Moves(id: PublicId, filter: bool, s: Side, move: Move, t: Side) {
    match move
    case Chapters(time, order, chapters) => Phase(id, RowsOf(time, order, chapters, filter, s.memo, s.states), s, t)
    case Elsewhere =>
      && Sound(t.tables) && t.states == s.states && t.memo == s.memo
      && forall u | u in s.tables.users :: u in t.tables.users && t.tables.users[u].key == s.tables.users[u].key
  }

  ghost predicate Runs(id: PublicId, filter: bool, s: Side, steps: seq<Step>)
    decreases |steps|
  {
    steps != [] ==> Moves(id, filter, s, steps[0].move, steps[0].after) && Runs(id, filter, steps[0].after, steps[1..])
  }

  lemma PhaseIsGood(id: PublicId, x: seq<ChapterRecord>, s: Side, t: Side)
    requires Good(s) && Phase(id, x, s, t)
    ensures Good(t)
  {
    hide ChaptersApplied, U.Upserted, U.Extends, Sound;
    PhaseUsers(id, x, s, t);
    if exists inserted: nat :: ChaptersLanded(id, x, s.tables, t.tables, s.states, t.states, s.memo, t.memo, inserted) {
      var inserted: nat :| ChaptersLanded(id, x, s.tables, t.tables, s.states, t.states, s.memo, t.memo, inserted);
      LandedMeans(id, x, s, t, inserted);
    } else if t.memo != s.memo {
      FedUsers(id, s.tables.users, t.tables.users, x, s.memo, t.memo);
    }
  }

  lemma MoveIsGood(id: PublicId, filter: bool, s: Side, move: Move, t: Side)
    requires Good(s) && Moves(id, filter, s, move, t)
    ensures Good(t)
  {
    if move.Chapters? { PhaseIsGood(id, RowsOf(move.time, move.order, move.chapters, filter, s.memo, s.states), s, t); }
  }

  /** In every state a tracker can reach the memo agrees with the user table. */
  lemma {:induction false} MemoAlwaysHolds(id: PublicId, filter: bool, s: Side, steps: seq<Step>, i: nat)
    requires Good(s) && Runs(id, filter, s, steps) && i < |steps|
    ensures MemoHolds(steps[i].after.memo, steps[i].after.tables.users)
    decreases i
  {
    MoveIsGood(id, filter, s, steps[0].move, steps[0].after);
    if i > 0 { MemoAlwaysHolds(id, filter, steps[0].after, steps[1..], i - 1); }
  }

  lemma SimulateMove(id: PublicId, filter: bool, s1: Side, move: Move, t1: Side, s2: Side) returns (t2: Side)
    requires Good(s1) && Good(s2) && Alike(s1, s2) && Moves(id, filter, s1, move, t1)
    ensures Moves(id, !filter, s2, move, t2) && Alike(t1, t2)
  {
    hide Phase, RowsOf;
    if move.Chapters? {
      var x := RowsOf(move.time, move.order, move.chapters, filter, s1.memo, s1.states);
      var y := RowsOf(move.time, move.order, move.chapters, !filter, s1.memo, s1.states);
      FilterIsEquivalent(id, move.time, move.order, move.chapters, s1);
      t2 := Simulate(id, move.time, x, y, s1, t1, s2);
    } else {
      t2 := t1;
    }
  }

  /** The pre-diff changes nothing: any run with the filter can be matched by a run
      without it, and the other way round, with the same inserted rows, time ids,
      states, memo and user keys after every step, whatever fails on the way. */
  lemma {:induction false} PreDiffIsExact(id: PublicId, filter: bool, s1: Side, s2: Side, steps: seq<Step>) returns (other: seq<Step>)
    requires Good(s1) && Good(s2) && Alike(s1, s2) && Runs(id, filter, s1, steps)
    ensures |other| == |steps| && Runs(id, !filter, s2, other)
    ensures forall i | 0 <= i < |steps| :: other[i].move == steps[i].move && Alike(steps[i].after, other[i].after)
    decreases |steps|
  {
    hide Moves, Good, Alike;
    if steps == [] {
      other := [];
    } else {
      var t2 := SimulateMove(id, filter, s1, steps[0].move, steps[0].after, s2);
      MoveIsGood(id, filter, s1, steps[0].move, steps[0].after);
      MoveIsGood(id, !filter, s2, steps[0].move, t2);
      var rest := PreDiffIsExact(id, filter, steps[0].after, t2, steps[1..]);
      other := [Step(steps[0].move, t2)] + rest;
      assert other[1..] == rest;
      forall i | 0 < i < |steps| ensures other[i].move == steps[i].move && Alike(steps[i].after, other[i].after) {
        assert steps[1..][i - 1] == steps[i] && rest[i - 1] == other[i];
      }
    }
  }
}
