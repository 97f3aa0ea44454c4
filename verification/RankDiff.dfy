/** The tick's pure helpers: rank-based diff, top-100/border merge, and the
    conversion of payload rows into database records. */
module RankDiff {
  import opened RankingTables
  import U = UserTable

  /** One row of a payload; every field the tracker needs may be missing. */
  datatype Player = Player(
    rank: Option<int>, score: Option<int>, userId: Option<int>,
    name: Option<string>, team: Option<int>, profile: int)

  datatype RankState = RankState(userId: int, score: int)
  datatype Record = Record(timestamp: int, userId: int, name: string, score: int, rank: int, team: Option<int>, profile: int)
  datatype ChapterRecord = ChapterRecord(base: Record, characterId: int)

  type RankMap = map<int, RankState>

  function Entry(m: RankMap, r: int): Option<RankState> {
    if r in m then Some(m[r]) else None
  }

  predicate Complete(p: Player) {
    p.rank.Some? && p.score.Some? && p.userId.Some?
  }

  predicate Named(p: Player) {
    Complete(p) && p.name.Some?
  }

  function StateOf(p: Player): RankState
    requires Complete(p)
  {
    RankState(p.userId.value, p.score.value)
  }

  function RecordOf(time: int, p: Player): Record
    requires Named(p)
  {
    Record(time, p.userId.value, p.name.value, p.score.value, p.rank.value, p.team, p.profile)
  }

  // -------------------------------------------------------------------- diff

  predicate Changed(p: Player, prev: RankMap) {
    Complete(p) && !(p.rank.value in prev && prev[p.rank.value] == StateOf(p))
  }

  /** The changed rows, in payload order. */
  function ChangedRows(rankings: seq<Player>, prev: RankMap): seq<Player> {
    if rankings == [] then []
    else
      var last := rankings[|rankings| - 1];
      var rest := ChangedRows(rankings[..|rankings| - 1], prev);
      if Changed(last, prev) then rest + [last] else rest
  }

  lemma {:induction false} ChangedRowsAre(rankings: seq<Player>, prev: RankMap)
    ensures forall p :: p in ChangedRows(rankings, prev) <==> p in rankings && Changed(p, prev)
  {
    if rankings != [] {
      ChangedRowsAre(rankings[..|rankings| - 1], prev);
      assert rankings == rankings[..|rankings| - 1] + [rankings[|rankings| - 1]];
    }
  }

  /** The state each rank is left in by `rows`; a later row wins. */
  function StatesOf(rows: seq<Player>): RankMap {
    if rows == [] then map[]
    else
      var last := rows[|rows| - 1];
      var rest := StatesOf(rows[..|rows| - 1]);
      if Complete(last) then rest[last.rank.value := StateOf(last)] else rest
  }

  lemma {:induction false} StatesAre(rows: seq<Player>)
    ensures forall r :: r in StatesOf(rows) <==> exists p :: p in rows && Complete(p) && p.rank.value == r
  {
    if rows != [] {
      StatesAre(rows[..|rows| - 1]);
      assert rows == rows[..|rows| - 1] + [rows[|rows| - 1]];
    }
  }

  /** Complete rows have pairwise distinct ranks. */
  ghost predicate DistinctRanks(rows: seq<Player>) {
    forall i, j | 0 <= i < j < |rows| && Complete(rows[i]) && Complete(rows[j]) :: rows[i].rank != rows[j].rank
  }

  ghost predicate DistinctUsers(rows: seq<Player>) {
    forall i, j | 0 <= i < j < |rows| && Complete(rows[i]) && Complete(rows[j]) :: rows[i].userId != rows[j].userId
  }

  lemma {:induction false} StateAt(rows: seq<Player>, p: Player)
    requires DistinctRanks(rows) && p in rows && Complete(p)
    ensures p.rank.value in StatesOf(rows) && StatesOf(rows)[p.rank.value] == StateOf(p)
  {
    var last := rows[|rows| - 1];
    assert rows == rows[..|rows| - 1] + [last];
    if p != last {
      StateAt(rows[..|rows| - 1], p);
      var i :| 0 <= i < |rows| && rows[i] == p;
      assert Complete(last) ==> rows[i].rank != last.rank;
    }
  }

  /** A changed row's position in the payload, so that distinctness carries over. */
  lemma {:induction false} ChangedRowsDistinct(rankings: seq<Player>, prev: RankMap)
    ensures DistinctRanks(rankings) ==> DistinctRanks(ChangedRows(rankings, prev))
    ensures DistinctUsers(rankings) ==> DistinctUsers(ChangedRows(rankings, prev))
  {
    if rankings != [] {
      var init := rankings[..|rankings| - 1];
      var last := rankings[|rankings| - 1];
      ChangedRowsDistinct(init, prev);
      ChangedRowsAre(init, prev);
      var rest := ChangedRows(init, prev);
      forall k | 0 <= k < |rest|
        ensures Complete(last) && DistinctRanks(rankings) ==> rest[k].rank != last.rank
        ensures Complete(last) && DistinctUsers(rankings) ==> rest[k].userId != last.userId
      {
        assert rest[k] in init;
        var i :| 0 <= i < |init| && init[i] == rest[k];
        assert rankings[i] == rest[k];
      }
    }
  }

  lemma SameRankSameRow(rows: seq<Player>, p: Player, q: Player)
    requires DistinctRanks(rows) && p in rows && q in rows && Complete(p) && Complete(q) && p.rank == q.rank
    ensures p == q
  {
    var i :| 0 <= i < |rows| && rows[i] == p;
    var j :| 0 <= j < |rows| && rows[j] == q;
  }

  /** After the diff is committed, the state agrees with every row of the payload. */
  lemma CommittedStateAgrees(rankings: seq<Player>, prev: RankMap, p: Player)
    requires DistinctRanks(rankings) && p in rankings && Complete(p)
    ensures var next := prev + StatesOf(ChangedRows(rankings, prev));
            p.rank.value in next && next[p.rank.value] == StateOf(p)
  {
    var rows := ChangedRows(rankings, prev);
    ChangedRowsDistinct(rankings, prev);
    ChangedRowsAre(rankings, prev);
    if p in rows {
      StateAt(rows, p);
    } else if p.rank.value in StatesOf(rows) {
      StatesAre(rows);
      var q :| q in rows && Complete(q) && q.rank.value == p.rank.value;
      SameRankSameRow(rankings, p, q);
    }
  }

  function Select(rankings: seq<Player>, idx: seq<nat>): (r: seq<Player>)
    requires forall k | 0 <= k < |idx| :: idx[k] < |rankings|
    ensures |r| == |idx| && forall k | 0 <= k < |idx| :: r[k] == rankings[idx[k]]
  {
    seq(|idx|, k requires 0 <= k < |idx| => rankings[idx[k]])
  }

  method DiffRankBased(rankings: seq<Player>, prev: RankMap) returns (changedIdx: seq<nat>, changedRanks: RankMap)
    ensures forall k | 0 <= k < |changedIdx| :: changedIdx[k] < |rankings|
    ensures forall j, k | 0 <= j < k < |changedIdx| :: changedIdx[j] < changedIdx[k]
    ensures Select(rankings, changedIdx) == ChangedRows(rankings, prev)
    ensures changedRanks == StatesOf(ChangedRows(rankings, prev))
  {
    changedIdx, changedRanks := [], map[];
    ghost var rows: seq<Player> := [];
    assert rows == ChangedRows(rankings[..0], prev) && changedRanks == StatesOf(rows);
    hide ChangedRows, StatesOf;
    for i := 0 to |rankings|
      invariant forall k | 0 <= k < |changedIdx| :: changedIdx[k] < i
      invariant forall j, k | 0 <= j < k < |changedIdx| :: changedIdx[j] < changedIdx[k]
      invariant rows == ChangedRows(rankings[..i], prev) && changedRanks == StatesOf(rows)
      invariant |changedIdx| == |rows| && forall k | 0 <= k < |rows| :: rankings[changedIdx[k]] == rows[k]
    {
      ChangedRowsAt(rankings, prev, i);
      rows := ChangedRows(rankings[..i + 1], prev);
      var r := rankings[i];
      if r.rank.Some? && r.score.Some? && r.userId.Some? {
        var same := r.rank.value in prev && prev[r.rank.value].score == r.score.value && prev[r.rank.value].userId == r.userId.value;
        if !same {
          changedRanks := changedRanks[r.rank.value := RankState(r.userId.value, r.score.value)];
          changedIdx := changedIdx + [i];
        }
      }
    }
    assert rankings[..|rankings|] == rankings;
  }

  lemma ChangedRowsAt(rankings: seq<Player>, prev: RankMap, i: nat)
    requires i < |rankings|
    ensures var rows := ChangedRows(rankings[..i], prev);
            var next := ChangedRows(rankings[..i + 1], prev);
            if Changed(rankings[i], prev) then
              next == rows + [rankings[i]]
              && StatesOf(next) == StatesOf(rows)[rankings[i].rank.value := StateOf(rankings[i])]
            else next == rows
  {
    assert rankings[..i + 1][..i] == rankings[..i];
    var rows := ChangedRows(rankings[..i], prev);
    assert (rows + [rankings[i]])[..|rows|] == rows;
  }

  // ------------------------------------------------------------------- merge

  predicate Uncovered(top: set<int>, b: Player) {
    b.rank.Some? && b.rank.value !in top
  }

  function RanksOf(rows: seq<Player>): (r: set<int>) {
    set p | p in rows && p.rank.Some? :: p.rank.value
  }

  function Merged(top100: seq<Player>, border: seq<Player>): seq<Player> {
    top100 + Outside(RanksOf(top100), border)
  }

  function Outside(top: set<int>, border: seq<Player>): (r: seq<Player>)
    ensures forall b :: b in r <==> b in border && Uncovered(top, b)
  {
    if border == [] then []
    else
      var last := border[|border| - 1];
      var rest := Outside(top, border[..|border| - 1]);
      assert border == border[..|border| - 1] + [last];
      if Uncovered(top, last) then rest + [last] else rest
  }

  method MergeRankings(top100: seq<Player>, border: seq<Player>) returns (out: seq<Player>)
    ensures out == Merged(top100, border)
  {
    var topRanks := RanksOf(top100);
    out := top100;
    for i := 0 to |border|
      invariant out == top100 + Outside(topRanks, border[..i])
    {
      assert border[..i + 1][..i] == border[..i];
      if border[i].rank.Some? && border[i].rank.value !in topRanks { out := out + [border[i]]; }
    }
    assert border[..|border|] == border;
  }

  /** The merge answers each rank once: from the top 100 where they list it, else
      from the border, and it loses no ranked row of either. */
  lemma MergeCovers(top100: seq<Player>, border: seq<Player>, p: Player)
    ensures p in Merged(top100, border) <==> p in top100 || (p in border && Uncovered(RanksOf(top100), p))
    ensures RanksOf(Merged(top100, border)) == RanksOf(top100) + RanksOf(border)
    ensures DistinctRanks(top100) && DistinctRanks(border) ==> DistinctRanks(Merged(top100, border))
  {
    var m := Merged(top100, border);
    var extra := Outside(RanksOf(top100), border);
    forall r | r in RanksOf(border) ensures r in RanksOf(m) {
      var b :| b in border && b.rank.Some? && b.rank.value == r;
      if r in RanksOf(top100) {
        var q :| q in top100 && q.rank.Some? && q.rank.value == r;
        assert q in m;
      } else {
        assert b in m;
      }
    }
    forall r | r in RanksOf(top100) ensures r in RanksOf(m) {
      var q :| q in top100 && q.rank.Some? && q.rank.value == r;
      assert q in m;
    }
    OutsideDistinct(RanksOf(top100), border);
    if DistinctRanks(top100) && DistinctRanks(border) {
      forall i, j | 0 <= i < j < |m| && Complete(m[i]) && Complete(m[j]) ensures m[i].rank != m[j].rank {
        if i < |top100| && j >= |top100| {
          assert m[j] in extra && m[i] in top100;
        }
      }
    }
  }

  lemma {:induction false} OutsideDistinct(top: set<int>, border: seq<Player>)
    ensures DistinctRanks(border) ==> DistinctRanks(Outside(top, border))
  {
    if border != [] {
      var init := border[..|border| - 1];
      OutsideDistinct(top, init);
      var rest := Outside(top, init);
      forall k | 0 <= k < |rest| && DistinctRanks(border) && Complete(rest[k]) && Complete(border[|border| - 1])
        ensures rest[k].rank != border[|border| - 1].rank
      {
        assert rest[k] in init;
        var i :| 0 <= i < |init| && init[i] == rest[k];
        assert border[i] == rest[k];
      }
    }
  }

  // ----------------------------------------------------------------- records

  /** One record per user: the first named row wins, nameless rows are dropped. */
  function FirstNamed(time: int, rows: seq<Player>): (m: map<int, Record>)
    ensures forall u :: u in m <==> exists p :: p in rows && Named(p) && p.userId.value == u
    ensures forall u | u in m :: m[u].userId == u && exists p :: p in rows && Named(p) && m[u] == RecordOf(time, p)
  {
    if rows == [] then map[]
    else
      var last := rows[|rows| - 1];
      var m := FirstNamed(time, rows[..|rows| - 1]);
      assert rows == rows[..|rows| - 1] + [last];
      if Named(last) && last.userId.value !in m then m[last.userId.value := RecordOf(time, last)] else m
  }

  lemma {:induction false} FirstNamedOf(time: int, rows: seq<Player>, p: Player)
    requires DistinctUsers(rows) && p in rows && Named(p)
    ensures FirstNamed(time, rows)[p.userId.value] == RecordOf(time, p)
  {
    var m := FirstNamed(time, rows);
    assert p.userId.value in m;
    var q :| q in rows && Named(q) && m[p.userId.value] == RecordOf(time, q);
    var i :| 0 <= i < |rows| && rows[i] == p;
    var j :| 0 <= j < |rows| && rows[j] == q;
  }

  /** `records` lists the values of `m`, each once, in any order. */
  ghost predicate Lists(records: seq<Record>, m: map<int, Record>) {
    && (forall u | u in m :: m[u] in records)
    && (forall k | 0 <= k < |records| :: records[k].userId in m && m[records[k].userId] == records[k])
    && (forall j, k | 0 <= j < k < |records| :: records[j].userId != records[k].userId)
  }

  method BuildEventRecords(time: int, diffed: seq<Player>) returns (records: seq<Record>)
    ensures Lists(records, FirstNamed(time, diffed))
  {
    var seen: map<int, Record> := map[];
    for i := 0 to |diffed|
      invariant seen == FirstNamed(time, diffed[..i])
    {
      assert diffed[..i + 1][..i] == diffed[..i];
      var r := diffed[i];
      if r.rank.Some? && r.score.Some? && r.userId.Some? && r.name.Some? {
        if r.userId.value !in seen { seen := seen[r.userId.value := RecordOf(time, r)]; }
      }
    }
    assert diffed[..|diffed|] == diffed;
    records := ValuesOf(seen);
  }

  method ValuesOf(seen: map<int, Record>) returns (records: seq<Record>)
    requires forall u | u in seen :: seen[u].userId == u
    ensures Lists(records, seen)
  {
    records := [];
    var users := U.Enumerate(seen.Keys);
    for i := 0 to |users|
      invariant |records| == i
      invariant forall k | 0 <= k < i :: users[k] in seen && records[k] == seen[users[k]] && records[k].userId == users[k]
    {
      assert users[i] in users;
      records := records + [seen[users[i]]];
    }
    forall u | u in seen ensures seen[u] in records {
      assert u in users;
      var k :| 0 <= k < |users| && users[k] == u;
      assert records[k] == seen[u];
    }
  }
}
