/** Keyset pagination.  A page asks for one row more than its limit and turns the
    surplus row, which it does not return, into the cursor; the next page starts
    strictly after the cursor. */
module Paging {
  import opened RankingTables
  import opened Storage
  import SparseLog
  import Tracker
  import U = UserTable

  /** The filter made of a row's cursor keeps exactly the rows after it. */
  ghost predicate Cuts<T, C>(all: seq<T>, cursorOf: T -> C, after: (C, T) -> bool) {
    forall i, j | 0 <= i < |all| && 0 <= j < |all| :: after(cursorOf(all[i]), all[j]) <==> i < j
  }

  // ---------------------------------------------------------------- one page

  /** The rows that pass the cursor filter, in order. */
  function RowsBeyond<T, C>(all: seq<T>, after: (C, T) -> bool, cursor: Option<C>): seq<T> {
    if all == [] then []
    else
      var rest := RowsBeyond(all[..|all| - 1], after, cursor);
      var last := all[|all| - 1];
      if cursor.Some? ==> after(cursor.value, last) then rest + [last] else rest
  }

  function Take<T>(rows: seq<T>, n: nat): seq<T> {
    if |rows| <= n then rows else rows[..n]
  }

  /** The statement with its cursor filter and `LIMIT limit + 1`, and the pop. */
  method SearchPage<T, C>(all: seq<T>, cursorOf: T -> C, after: (C, T) -> bool, cursor: Option<C>, limit: nat)
    returns (page: seq<T>, next: Option<C>)
    ensures var rows := RowsBeyond(all, after, cursor);
            && page == Take(rows, limit)
            && next == if |rows| > limit then Some(cursorOf(rows[limit])) else None
  {
    var rows := [];
    var i := 0;
    while i < |all|
      invariant 0 <= i <= |all|
      invariant rows == RowsBeyond(all[..i], after, cursor)
    {
      assert all[..i + 1][..i] == all[..i];
      if cursor.Some? ==> after(cursor.value, all[i]) { rows := rows + [all[i]]; }
      i := i + 1;
    }
    assert all[..|all|] == all;
    page := Take(rows, limit + 1);
    next := None;
    if |page| > limit {
      var last := page[|page| - 1];
      page := page[..|page| - 1];
      next := Some(cursorOf(last));
    }
  }

  /** The rows beyond the cursor made of a row are those after it. */
  lemma {:induction false} BeyondIsSuffix<T, C>(all: seq<T>, cursorOf: T -> C, after: (C, T) -> bool, p: nat, n: nat)
    requires Cuts(all, cursorOf, after) && p < n <= |all|
    ensures RowsBeyond(all[..n], after, Some(cursorOf(all[p]))) == all[p + 1..n]
    decreases n
  {
    assert all[..n][..n - 1] == all[..n - 1];
    if p < n - 1 {
      BeyondIsSuffix(all, cursorOf, after, p, n - 1);
      assert all[p + 1..n] == all[p + 1..n - 1] + [all[n - 1]];
    } else {
      NoneBeyond(all, cursorOf, after, p, p + 1);
    }
  }

  lemma {:induction false} NoneBeyond<T, C>(all: seq<T>, cursorOf: T -> C, after: (C, T) -> bool, p: nat, n: nat)
    requires Cuts(all, cursorOf, after) && p < |all| && n <= p + 1
    ensures RowsBeyond(all[..n], after, Some(cursorOf(all[p]))) == []
    decreases n
  {
    if n > 0 {
      assert all[..n][..n - 1] == all[..n - 1];
      NoneBeyond(all, cursorOf, after, p, n - 1);
    }
  }

  lemma {:induction false} AllBeyondNothing<T, C>(all: seq<T>, after: (C, T) -> bool)
    ensures RowsBeyond(all, after, None) == all
  {
    if all != [] { AllBeyondNothing(all[..|all| - 1], after); }
  }

  // ------------------------------------------------------------- all the pages

  /** What one sees who follows the cursors from position `from`. */
  function Followed<T>(all: seq<T>, from: nat, limit: nat): seq<T>
    requires from <= |all|
    decreases |all| - from
  {
    if |all| - from <= limit then all[from..]
    else all[from..from + limit] + Followed(all, from + limit + 1, limit)
  }

  /** Following `next` until there is none: it terminates, and this is what it yields. */
  method FollowCursors<T, C>(all: seq<T>, cursorOf: T -> C, after: (C, T) -> bool, limit: nat) returns (seen: seq<T>)
    requires Cuts(all, cursorOf, after)
    ensures seen == Followed(all, 0, limit)
  {
    hide Cuts, RowsBeyond;
    ghost var from: nat := 0;
    var next: Option<C>;
    AllBeyondNothing(all, after);
    seen, next := SearchPage(all, cursorOf, after, None, limit);
    if next.Some? { from := limit + 1; }
    while next.Some?
      invariant from <= |all|
      invariant next.Some? ==> 0 < from && next == Some(cursorOf(all[from - 1])) && seen + Followed(all, from, limit) == Followed(all, 0, limit)
      invariant next.None? ==> seen == Followed(all, 0, limit)
      decreases |all| - from, next.Some?
    {
      assert RowsBeyond(all, after, next) == all[from..] by {
        BeyondIsSuffix(all, cursorOf, after, from - 1, |all|);
        assert all[..|all|] == all;
      }
      var page;
      page, next := SearchPage(all, cursorOf, after, next, limit);
      seen := seen + page;
      if next.Some? { from := from + limit + 1; }
    }
  }

  // -------------------------------------------------------------- exactly which

  /** The position is not the last of its limit + 1. */
  predicate Shown(i: nat, limit: nat) {
    i % (limit + 1) != limit
  }

  /** The positions followed: in order, without the last of every limit + 1. */
  function Positions(from: nat, n: nat, limit: nat): seq<nat>
    requires from <= n
    decreases n - from
  {
    if from == n then []
    else (if Shown(from, limit) then [from] else []) + Positions(from + 1, n, limit)
  }

  function At<T>(all: seq<T>, positions: seq<nat>): (r: seq<T>)
    requires forall k | 0 <= k < |positions| :: positions[k] < |all|
    ensures |r| == |positions| && forall k | 0 <= k < |r| :: r[k] == all[positions[k]]
  {
    seq(|positions|, k requires 0 <= k < |positions| => all[positions[k]])
  }

  lemma {:induction false} PositionsAre(from: nat, n: nat, limit: nat)
    requires from <= n
    ensures forall i :: i in Positions(from, n, limit) <==> from <= i < n && Shown(i, limit)
    ensures forall j, k | 0 <= j < k < |Positions(from, n, limit)| :: Positions(from, n, limit)[j] < Positions(from, n, limit)[k]
    ensures forall k | 0 <= k < |Positions(from, n, limit)| :: Positions(from, n, limit)[k] < n
    decreases n - from
  {
    hide Shown;
    if from < n {
      PositionsAre(from + 1, n, limit);
      var rest := Positions(from + 1, n, limit);
      forall k | 0 <= k < |rest| ensures from < rest[k] { assert rest[k] in rest; }
    }
  }

  function UpFrom(from: nat, count: nat): seq<nat> {
    seq(count, k requires 0 <= k < count => from + k)
  }

  /** A stretch of shown positions is listed whole. */
  lemma {:induction false} PositionsStretch(from: nat, m: nat, n: nat, limit: nat)
    requires from <= m <= n && forall i | from <= i < m :: Shown(i, limit)
    ensures Positions(from, n, limit) == UpFrom(from, m - from) + Positions(m, n, limit)
    decreases m - from
  {
    hide Shown;
    if from < m {
      PositionsStretch(from + 1, m, n, limit);
      assert UpFrom(from, m - from) == [from] + UpFrom(from + 1, m - from - 1);
    } else {
      assert UpFrom(from, m - from) == [];
    }
  }

  lemma AtLeastOnce(k: nat, m: nat)
    requires k >= 1
    ensures k * m >= m
  {
  }

  lemma Quotient(x: nat, q: nat, m: nat, r: nat)
    requires r < m && x == q * m + r
    ensures x % m == r
  {
    var q2, r2 := x / m, x % m;
    assert x == q2 * m + r2;
    if q2 > q {
      AtLeastOnce(q2 - q, m);
    } else if q2 < q {
      AtLeastOnce(q - q2, m);
    }
  }

  /** The page that starts at `from` shows `limit` positions and not the next. */
  lemma PageShows(from: nat, page: nat, limit: nat)
    requires from == page * (limit + 1)
    ensures forall i | from <= i < from + limit :: Shown(i, limit)
    ensures !Shown(from + limit, limit)
    ensures from + limit + 1 == (page + 1) * (limit + 1)
  {
    forall i | from <= i < from + limit ensures Shown(i, limit) {
      Quotient(i, page, limit + 1, i - from);
    }
    Quotient(from + limit, page, limit + 1, limit);
  }

  /** Paging is exact.  Following the cursors over a fixed listing yields exactly
      the rows at positions i with i mod (limit + 1) != limit, once each and in
      order; the row popped for the cursor at every page boundary is never seen. */
  lemma {:induction false} PagesAreExact<T>(all: seq<T>, from: nat, page: nat, limit: nat)
    requires from == page * (limit + 1) <= |all|
    ensures forall k | 0 <= k < |Positions(from, |all|, limit)| :: Positions(from, |all|, limit)[k] < |all|
    ensures Followed(all, from, limit) == At(all, Positions(from, |all|, limit))
    decreases |all| - from
  {
    hide Shown, Positions;
    var n := |all|;
    PositionsAre(from, n, limit);
    PageShows(from, page, limit);
    if n - from <= limit {
      PositionsStretch(from, n, n, limit);
      assert Positions(n, n, limit) == [] by { NoPositions(n, limit); }
      assert UpFrom(from, n - from) + [] == UpFrom(from, n - from);
      assert At(all, UpFrom(from, n - from)) == all[from..];
    } else {
      var stop := from + limit;
      PositionsStretch(from, stop, n, limit);
      SkipOne(stop, n, limit);
      PositionsAre(stop + 1, n, limit);
      PagesAreExact(all, stop + 1, page + 1, limit);
      assert At(all, UpFrom(from, limit)) == all[from..stop];
      AtAppend(all, UpFrom(from, limit), Positions(stop + 1, n, limit));
    }
  }

  lemma NoPositions(n: nat, limit: nat)
    ensures Positions(n, n, limit) == []
  {
  }

  lemma SkipOne(i: nat, n: nat, limit: nat)
    requires i < n && !Shown(i, limit)
    ensures Positions(i, n, limit) == Positions(i + 1, n, limit)
  {
    hide Shown;
  }

  lemma AtAppend<T>(all: seq<T>, p: seq<nat>, q: seq<nat>)
    requires forall k | 0 <= k < |p| :: p[k] < |all|
    requires forall k | 0 <= k < |q| :: q[k] < |all|
    ensures At(all, p + q) == At(all, p) + At(all, q)
  {
  }

  /** All rows are seen if and only if they fit one page. */
  lemma PagingIsCompleteIff<T>(all: seq<T>, limit: nat)
    ensures Followed(all, 0, limit) == all <==> |all| <= limit
  {
    if |all| > limit { FollowedLength(all, limit + 1, limit); }
  }

  lemma {:induction false} FollowedLength<T>(all: seq<T>, from: nat, limit: nat)
    requires from <= |all|
    ensures |Followed(all, from, limit)| <= |all| - from
    decreases |all| - from
  {
    if |all| - from > limit { FollowedLength(all, from + limit + 1, limit); }
  }

  /** The rows that following the cursors shows. */
  ghost function ShownRows<T>(all: seq<T>, limit: nat): seq<T> {
    PositionsAre(0, |all|, limit);
    At(all, Positions(0, |all|, limit))
  }

  // ---------------------------------------------------------- listing orders

  /** A position in a listing, compared lexicographically. */
  datatype Key = Key(first: int, second: int, third: int)

  predicate Less(a: Key, b: Key) {
    || a.first < b.first
    || (a.first == b.first && a.second < b.second)
    || (a.first == b.first && a.second == b.second && a.third < b.third)
  }

  ghost predicate Ordered<T>(rows: seq<T>, key: T -> Key) {
    forall i, j | 0 <= i < j < |rows| :: Less(key(rows[i]), key(rows[j]))
  }

  /** In a strictly ordered listing a filter that agrees with the order cuts at its row. */
  lemma OrderCuts<T, C>(all: seq<T>, key: T -> Key, cursorOf: T -> C, after: (C, T) -> bool)
    requires Ordered(all, key)
    requires forall a, b | a in all && b in all :: after(cursorOf(a), b) <==> Less(key(a), key(b))
    ensures Cuts(all, cursorOf, after)
  {
    forall i, j | 0 <= i < |all| && 0 <= j < |all| ensures after(cursorOf(all[i]), all[j]) <==> i < j {
      assert all[i] in all && all[j] in all;
      if j < i { assert Less(key(all[j]), key(all[i])); }
    }
  }

  /** A row of a rankings table with its timestamp, and what a cursor remembers of it. */
  datatype Row = Row(timeId: nat, timestamp: int, rank: int, userKey: nat, score: int)
  datatype Cursor = Cursor(timestamp: int, rank: int, userKey: nat)

  function CursorOf(r: Row): Cursor {
    Cursor(r.timestamp, r.rank, r.userKey)
  }

  /** A row of the event table, or of a chapter's part of the World Bloom table,
      joined with the time table. */
  ghost predicate Stored(t: Tables, chapter: Option<int>, r: Row) {
    && r.timeId in t.stamps && t.stamps[r.timeId] == r.timestamp
    && match chapter
       case None =>
         var k := RowKey(r.timeId, r.userKey);
         k in t.rows.event && t.rows.event[k] == Standing(r.rank, r.score)
       case Some(c) =>
         var k := ChapterRowKey(r.timeId, r.userKey, c);
         k in t.rows.worldBloom && t.rows.worldBloom[k] == Standing(r.rank, r.score)
  }

  // --------------------------------------------------------- the plain listing

  /** The plain listing's cursor filter. */
  predicate AfterCursor(c: Cursor, r: Row) {
    || r.timestamp < c.timestamp
    || (r.timestamp == c.timestamp && r.rank > c.rank)
    || (r.timestamp == c.timestamp && r.rank == c.rank && r.userKey > c.userKey)
  }

  /** ORDER BY time_id DESC, rank, user_id_key. */
  predicate ListedBefore(a: Row, b: Row) {
    || a.timeId > b.timeId
    || (a.timeId == b.timeId && a.rank < b.rank)
    || (a.timeId == b.timeId && a.rank == b.rank && a.userKey <= b.userKey)
  }

  function PlainKey(r: Row): Key {
    Key(-r.timestamp, r.rank, r.userKey)
  }

  /** Any rows of the table, whatever else filters them, in the statement's order. */
  ghost predicate PlainListing(t: Tables, chapter: Option<int>, rows: seq<Row>) {
    && (forall r | r in rows :: Stored(t, chapter, r))
    && forall i, j | 0 <= i < j < |rows| :: rows[i] != rows[j] && ListedBefore(rows[i], rows[j])
  }

  /** The plain listing is ordered by time id and cut by timestamp; the two agree in
      every time table a tracker can reach, so its pages are pages of one order. */
  lemma PlainListingIsOrdered(id: Tracker.PublicId, clock: int, steps: seq<SparseLog.Step>, chapter: Option<int>, rows: seq<Row>)
    requires SparseLog.Run(id, SparseLog.Start(), clock, steps)
    requires PlainListing(SparseLog.End(SparseLog.Start(), steps).tables, chapter, rows)
    ensures Ordered(rows, PlainKey) && Cuts(rows, CursorOf, AfterCursor)
  {
    hide SparseLog.Run, SparseLog.End, Cuts;
    forall i, j | 0 <= i < j < |rows| ensures Less(PlainKey(rows[i]), PlainKey(rows[j])) {
      assert rows[i] in rows && rows[j] in rows;
      SparseLog.TimeIdsFollowTime(id, clock, steps, rows[i].timeId, rows[j].timeId);
      SparseLog.TimeIdsFollowTime(id, clock, steps, rows[j].timeId, rows[i].timeId);
    }
    OrderCuts(rows, PlainKey, CursorOf, AfterCursor);
  }

  method FollowPlainListing(ghost id: Tracker.PublicId, ghost clock: int, ghost steps: seq<SparseLog.Step>,
                            ghost chapter: Option<int>, rows: seq<Row>, limit: nat) returns (seen: seq<Row>)
    requires SparseLog.Run(id, SparseLog.Start(), clock, steps)
    requires PlainListing(SparseLog.End(SparseLog.Start(), steps).tables, chapter, rows)
    ensures seen == ShownRows(rows, limit)
  {
    PlainListingIsOrdered(id, clock, steps, chapter, rows);
    seen := FollowCursors(rows, CursorOf, AfterCursor, limit);
    PagesAreExact(rows, 0, 0, limit);
  }

  // ----------------------------------------------------------- the rank window

  /** A row joins `MAX(time_id) GROUP BY rank` of the rows that pass the subquery's filters. */
  ghost predicate Listed(t: Tables, chapter: Option<int>, inner: Row -> bool, r: Row) {
    && Stored(t, chapter, r) && inner(r)
    && forall s: Row | Stored(t, chapter, s) && inner(s) && s.rank == r.rank :: s.timeId <= r.timeId
  }

  function UpTo(cutoff: Option<int>): Row -> bool {
    (s: Row) => cutoff.Some? ==> s.timestamp <= cutoff.value
  }

  /** With the time filter alone these are the rows the latest-before-cutoff queries see. */
  lemma LatestRowsAreListed(t: Tables, cutoff: Option<int>, r: Row)
    requires Stored(t, None, r)
    ensures Listed(t, None, UpTo(cutoff), r) <==> SparseLog.IsLatest(t, r.rank, cutoff, RowKey(r.timeId, r.userKey))
  {
    var inner := UpTo(cutoff);
    var k := RowKey(r.timeId, r.userKey);
    if Listed(t, None, inner, r) {
      forall j | SparseLog.Candidate(t, r.rank, cutoff, j) ensures j.timeId <= r.timeId {
        assert Stored(t, None, Row(j.timeId, t.stamps[j.timeId], r.rank, j.userKey, t.rows.event[j].score));
      }
    }
    if SparseLog.IsLatest(t, r.rank, cutoff, k) {
      forall s: Row | Stored(t, None, s) && inner(s) && s.rank == r.rank ensures s.timeId <= r.timeId {
        assert SparseLog.Candidate(t, r.rank, cutoff, RowKey(s.timeId, s.userKey));
      }
    }
  }

  /** The rank window's cursor filter. */
  predicate AfterWindowCursor(c: Cursor, r: Row) {
    r.rank > c.rank || (r.rank == c.rank && r.userKey > c.userKey)
  }

  /** ORDER BY rank, user_id_key. */
  predicate WindowBefore(a: Row, b: Row) {
    a.rank < b.rank || (a.rank == b.rank && a.userKey <= b.userKey)
  }

  function WindowKey(r: Row): Key {
    Key(r.rank, r.userKey, 0)
  }

  ghost predicate WindowListing(t: Tables, chapter: Option<int>, inner: Row -> bool, rows: seq<Row>) {
    && (forall r | r in rows :: Listed(t, chapter, inner, r))
    && forall i, j | 0 <= i < j < |rows| :: rows[i] != rows[j] && WindowBefore(rows[i], rows[j])
  }

  /** Each rank contributes the rows of one time id, so (rank, user_id_key), in which
      the window is ordered and cut, tells any two of its rows apart. */
  lemma WindowListingIsOrdered(t: Tables, chapter: Option<int>, inner: Row -> bool, rows: seq<Row>)
    requires WindowListing(t, chapter, inner, rows)
    ensures Ordered(rows, WindowKey) && Cuts(rows, CursorOf, AfterWindowCursor)
  {
    hide Cuts;
    forall i, j | 0 <= i < j < |rows| ensures Less(WindowKey(rows[i]), WindowKey(rows[j])) {
      var a, b := rows[i], rows[j];
      assert a in rows && b in rows;
      if a.rank == b.rank {
        assert a.timeId == b.timeId;
        assert a.userKey != b.userKey;
      }
    }
    OrderCuts(rows, WindowKey, CursorOf, AfterWindowCursor);
  }

  method FollowRankWindow(ghost t: Tables, ghost chapter: Option<int>, ghost inner: Row -> bool, rows: seq<Row>, limit: nat)
    returns (seen: seq<Row>)
    requires WindowListing(t, chapter, inner, rows)
    ensures seen == ShownRows(rows, limit)
  {
    WindowListingIsOrdered(t, chapter, inner, rows);
    seen := FollowCursors(rows, CursorOf, AfterWindowCursor, limit);
    PagesAreExact(rows, 0, 0, limit);
  }

  // ----------------------------------------------------------- the user search

  /** The user search remembers the user key alone. */
  function UserCursorOf(u: U.UserRow): nat {
    u.key
  }

  predicate AfterUserCursor(c: nat, u: U.UserRow) {
    u.key > c
  }

  function UserKey(u: U.UserRow): Key {
    Key(u.key, 0, 0)
  }

  /** The rows of any users, each at most once, ORDER BY user_id_key. */
  ghost predicate UserListing(users: Users, ids: seq<int>, rows: seq<U.UserRow>) {
    && |rows| == |ids|
    && (forall i | 0 <= i < |ids| :: ids[i] in users && rows[i] == users[ids[i]])
    && forall i, j | 0 <= i < j < |ids| :: ids[i] != ids[j] && rows[i].key <= rows[j].key
  }

  lemma UserListingIsOrdered(users: Users, ids: seq<int>, rows: seq<U.UserRow>)
    requires U.Injective(users) && UserListing(users, ids, rows)
    ensures Ordered(rows, UserKey) && Cuts(rows, UserCursorOf, AfterUserCursor)
  {
    hide Cuts;
    OrderCuts(rows, UserKey, UserCursorOf, AfterUserCursor);
  }

  method FollowUserSearch(ghost users: Users, ghost ids: seq<int>, rows: seq<U.UserRow>, limit: nat) returns (seen: seq<U.UserRow>)
    requires U.Injective(users) && UserListing(users, ids, rows)
    ensures seen == ShownRows(rows, limit)
  {
    UserListingIsOrdered(users, ids, rows);
    seen := FollowCursors(rows, UserCursorOf, AfterUserCursor, limit);
    PagesAreExact(rows, 0, 0, limit);
  }
}
