/** The event table holds only what changed; the latest-before-cutoff queries read
    it as if every payload had been stored whole. */
module SparseLog {
  import opened RankingTables
  import opened RankDiff
  import opened Storage
  import opened Tracker
  import opened WorldBloomRows
  import U = UserTable

  // ------------------------------------------------------------------ queries

  /** The time filter of the grouped subquery: `timestamp <= cutoff`, or none. */
  ghost predicate Within(stamps: Stamps, id: nat, cutoff: Option<int>) {
    id in stamps && (cutoff.Some? ==> stamps[id] <= cutoff.value)
  }

  ghost predicate Candidate(t: Tables, r: int, cutoff: Option<int>, k: RowKey) {
    k in t.rows.event && t.rows.event[k].rank == r && Within(t.stamps, k.timeId, cutoff)
  }

  /** `k` joins `MAX(time_id) GROUP BY rank` within the cutoff. */
  ghost predicate IsLatest(t: Tables, r: int, cutoff: Option<int>, k: RowKey) {
    && Candidate(t, r, cutoff, k)
    && forall j | Candidate(t, r, cutoff, j) :: j.timeId <= k.timeId
  }

  /** The query for rank `r` returns nothing, or exactly one row, that of `a`. */
  ghost predicate Answers(t: Tables, r: int, cutoff: Option<int>, a: Option<RankState>) {
    match a
    case None => forall k :: !Candidate(t, r, cutoff, k)
    case Some(st) => exists k :: IsRow(t, r, cutoff, st, k)
  }

  ghost predicate IsRow(t: Tables, r: int, cutoff: Option<int>, st: RankState, k: RowKey) {
    && IsLatest(t, r, cutoff, k)
    && (forall j | IsLatest(t, r, cutoff, j) :: j == k)
    && st.userId in t.users && t.users[st.userId].key == k.userKey
    && t.rows.event[k].score == st.score
  }

  // ---------------------------------------------------------- dense reference

  /** A main payload whose rows landed, with its record time. */
  datatype Seen = Seen(time: int, rankings: seq<Player>)

  /** What the last payload at or before the cutoff that contained `r` says of it. */
  function LastSeen(h: seq<Seen>, r: int, cutoff: Option<int>): Option<RankState> {
    if h == [] then None
    else
      var last := h[|h| - 1];
      if (cutoff.Some? ==> last.time <= cutoff.value) && r in StatesOf(last.rankings) then Some(StatesOf(last.rankings)[r])
      else LastSeen(h[..|h| - 1], r, cutoff)
  }

  // ------------------------------------------------------------------- ticks

  ghost predicate Ascending(stamps: Stamps) {
    forall a, b | a in stamps && b in stamps && a < b :: stamps[a] < stamps[b]
  }

  ghost predicate Until(stamps: Stamps, clock: int) {
    forall id | id in stamps :: stamps[id] <= clock
  }

  ghost predicate HasOwner(users: Users, key: nat) {
    exists u :: u in users && users[u].key == key
  }

  /** Every row refers to a stored timestamp and a stored user. */
  ghost predicate Referential(t: Tables) {
    forall k | k in t.rows.event :: k.timeId in t.stamps && HasOwner(t.users, k.userKey)
  }

  ghost predicate Tidy(t: Tables, clock: int) {
    Sound(t) && Ascending(t.stamps) && Until(t.stamps, clock) && Referential(t)
  }

  /** The remembered state is what the log answers. */
  ghost predicate Agrees(t: Tables, prev: RankMap) {
    forall r :: Answers(t, r, None, Entry(prev, r))
  }

  /** A row of the same instant that a new row for `p` would collide with: the same
      user, so that it is not inserted, or the same rank, so that there are two. */
  ghost predicate Collides(t: Tables, time: int, p: Player, k: RowKey)
    requires Complete(p)
  {
    && k in t.rows.event && k.timeId in t.stamps && t.stamps[k.timeId] == time
    && (t.rows.event[k].rank == p.rank.value || (p.userId.value in t.users && t.users[p.userId.value].key == k.userKey))
  }

  /** What a caller can check before a tick: the changed rows are named, no user is
      among them twice, and none collides with a row of the same instant. */
  ghost predicate Faithful(t: Tables, prev: RankMap, time: int, rankings: seq<Player>) {
    var rows := ChangedRows(rankings, prev);
    && (forall p | p in rows :: Named(p))
    && DistinctUsers(rows)
    && (forall p, k | p in rows && Complete(p) :: !Collides(t, time, p, k))
  }

  // -------------------------------------------------- the rows of one commit

  /** A row that was not there before comes from a named changed row. */
  lemma NewRowSource(id: PublicId, was: Tables, now: Tables, time: int, rows: seq<Player>, records: seq<Record>, k: RowKey)
    returns (p: Player)
    requires EventCommitted(id, was, now, records) && Lists(records, FirstNamed(time, rows))
    requires k in now.rows.event && k !in was.rows.event
    ensures p in rows && Named(p)
    ensures now.rows.event[k] == Standing(p.rank.value, p.score.value)
    ensures k.timeId in now.stamps && now.stamps[k.timeId] == time
    ensures p.userId.value in now.users && now.users[p.userId.value].key == k.userKey
  {
    hide U.Upserted, StampsGrow;
    var all := EventRows(now.stamps, now.users, records);
    InsertedRows(was.rows.event, all);
    assert (k, now.rows.event[k]) in all;
    var i :| 0 <= i < |all| && all[i] == (k, now.rows.event[k]);
    assert all[i] == EventRow(now.stamps, now.users, records[i]);
    p := RecordSource(time, rows, records, i);
  }

  lemma RecordSource(time: int, rows: seq<Player>, records: seq<Record>, i: nat) returns (p: Player)
    requires Lists(records, FirstNamed(time, rows)) && i < |records|
    ensures p in rows && Named(p) && records[i] == RecordOf(time, p)
  {
    var m := FirstNamed(time, rows);
    assert m[records[i].userId] == records[i];
    p :| p in rows && Named(p) && m[records[i].userId] == RecordOf(time, p);
  }

  /** `k` holds the changed row `p`, at the instant `time`. */
  ghost predicate Holds(t: Tables, time: int, p: Player, k: RowKey) {
    && Named(p)
    && k in t.rows.event && t.rows.event[k] == Standing(p.rank.value, p.score.value)
    && k.timeId in t.stamps && t.stamps[k.timeId] == time
    && p.userId.value in t.users && t.users[p.userId.value].key == k.userKey
  }

  ghost predicate Taken(t: Tables, time: int, u: int, k: RowKey) {
    && k in t.rows.event && k.timeId in t.stamps && t.stamps[k.timeId] == time
    && u in t.users && t.users[u].key == k.userKey
  }

  /** `now` only adds to `was`: rows, timestamps and keys stay. */
  ghost predicate Grows(was: Tables, now: Tables) {
    && (forall k | k in was.rows.event :: k in now.rows.event && now.rows.event[k] == was.rows.event[k])
    && (forall id | id in was.stamps :: id in now.stamps && now.stamps[id] == was.stamps[id])
    && (forall u | u in was.users :: u in now.users && now.users[u].key == was.users[u].key)
  }

  /** New time ids stand for `time` and are above the old ones. */
  ghost predicate NewStamps(was: Stamps, now: Stamps, time: int) {
    forall id | id in now && id !in was :: now[id] == time && forall other | other in was :: other < id
  }

  /** What a landed main part adds: rows that hold changed rows, and a row at the
      key of every user's first named one. */
  ghost predicate Landing(was: Tables, now: Tables, time: int, rows: seq<Player>) {
    && Sound(now) && Grows(was, now) && NewStamps(was.stamps, now.stamps, time)
    && (forall k | k in now.rows.event && k !in was.rows.event :: exists p :: p in rows && Holds(now, time, p, k))
    && (forall u | u in FirstNamed(time, rows) :: exists k :: Taken(now, time, u, k))
  }

  lemma CommitIsLanding(id: PublicId, was: Tables, now: Tables, time: int, rows: seq<Player>, records: seq<Record>)
    requires EventCommitted(id, was, now, records) && Lists(records, FirstNamed(time, rows))
    ensures Landing(was, now, time, rows)
  {
    assert Grows(was, now) && NewStamps(was.stamps, now.stamps, time) by { CommitGrows(id, was, now, time, rows, records); }
    forall k | k in now.rows.event && k !in was.rows.event ensures exists p :: p in rows && Holds(now, time, p, k) {
      var p := NewRowSource(id, was, now, time, rows, records, k);
    }
    forall u | u in FirstNamed(time, rows) ensures exists k :: Taken(now, time, u, k) {
      var k := TakenKey(id, was, now, time, rows, records, u);
    }
  }

  lemma CommitGrows(id: PublicId, was: Tables, now: Tables, time: int, rows: seq<Player>, records: seq<Record>)
    requires EventCommitted(id, was, now, records) && Lists(records, FirstNamed(time, rows))
    ensures Grows(was, now) && NewStamps(was.stamps, now.stamps, time)
  {
    RecordTimes(time, rows, records);
  }

  lemma TakenKey(id: PublicId, was: Tables, now: Tables, time: int, rows: seq<Player>, records: seq<Record>, u: int) returns (k: RowKey)
    requires EventCommitted(id, was, now, records) && Lists(records, FirstNamed(time, rows)) && u in FirstNamed(time, rows)
    ensures Taken(now, time, u, k)
  {
    hide U.Upserted, StampsGrow;
    RecordTimes(time, rows, records);
    var m := FirstNamed(time, rows);
    var i :| 0 <= i < |records| && records[i] == m[u];
    assert m[u].userId == u;
    var all := EventRows(now.stamps, now.users, records);
    InsertedRows(was.rows.event, all);
    assert all[i] == EventRow(now.stamps, now.users, records[i]) && all[i] in all;
    assert records[i] in records;
    k := all[i].0;
  }

  lemma MainIsLanding(id: PublicId, data: HandledData, onlyWorldBloom: bool, records: seq<Record>,
                      was: Tables, now: Tables, prev: RankMap, next: RankMap)
    requires Sound(was) && MainLanded(id, data, onlyWorldBloom, records, was, now, prev, next)
    ensures Landing(was, now, data.recordTime, MainRows(data, onlyWorldBloom, prev))
  {
    hide EventCommitted;
    var rows := MainRows(data, onlyWorldBloom, prev);
    if records != [] {
      CommitIsLanding(id, was, now, data.recordTime, rows, records);
    }
  }

  // ------------------------------------------- one tick: exact, in both ways

  /** The tick `was` -> `now` with the changed rows `rows` of a payload. */
  ghost predicate MainTick(was: Tables, now: Tables, prev: RankMap, next: RankMap, time: int, rankings: seq<Player>) {
    && Landing(was, now, time, ChangedRows(rankings, prev))
    && next == prev + StatesOf(ChangedRows(rankings, prev))
  }

  /** A changed rank that the log answers after the tick has a row of its own in it. */
  lemma AnsweredHasRow(was: Tables, now: Tables, prev: RankMap, next: RankMap, time: int, rankings: seq<Player>, p: Player)
    returns (k: RowKey)
    requires MainTick(was, now, prev, next, time, rankings) && DistinctRanks(rankings)
    requires Tidy(was, time) && Agrees(was, prev) && Agrees(now, next)
    requires p in ChangedRows(rankings, prev)
    ensures Complete(p) && IsRow(now, p.rank.value, None, StateOf(p), k)
    ensures k !in was.rows.event && Holds(now, time, p, k)
  {
    hide FirstNamed, Landing, IsRow, Answers, ChangedRows, StatesOf;
    var rows := ChangedRows(rankings, prev);
    ChangedRowsAre(rankings, prev);
    ChangedRowsDistinct(rankings, prev);
    var r := p.rank.value;
    assert Entry(next, r) == Some(StateOf(p)) by { StateAt(rows, p); }
    assert Answers(now, r, None, Entry(next, r));
    k := RowOf(now, r, None, StateOf(p));
    RowIsHere(now, r, StateOf(p), k);
    if k in was.rows.event {
      OldRowUnchanged(was, now, prev, r, StateOf(p), k, time, rows);
    } else {
      var q := SourceOf(was, now, time, rows, k);
      assert q.rank == p.rank;
      SameRankSameRow(rows, p, q);
    }
  }

  lemma RowOf(t: Tables, r: int, cutoff: Option<int>, st: RankState) returns (k: RowKey)
    requires Answers(t, r, cutoff, Some(st))
    ensures IsRow(t, r, cutoff, st, k)
  {
    k :| IsRow(t, r, cutoff, st, k);
  }

  lemma RowIsHere(t: Tables, r: int, st: RankState, k: RowKey)
    requires IsRow(t, r, None, st, k)
    ensures k in t.rows.event && t.rows.event[k].rank == r && IsLatest(t, r, None, k)
    ensures st.userId in t.users && t.users[st.userId].key == k.userKey && t.rows.event[k].score == st.score
  {
  }

  lemma SourceOf(was: Tables, now: Tables, time: int, rows: seq<Player>, k: RowKey) returns (p: Player)
    requires Landing(was, now, time, rows) && k in now.rows.event && k !in was.rows.event
    ensures p in rows && Holds(now, time, p, k)
  {
    p :| p in rows && Holds(now, time, p, k);
  }

  /** If the latest row for a rank is an old one, the state had it already. */
  lemma OldRowUnchanged(was: Tables, now: Tables, prev: RankMap, r: int, st: RankState, k: RowKey, time: int, rows: seq<Player>)
    requires Landing(was, now, time, rows) && Referential(was) && Agrees(was, prev)
    requires IsRow(now, r, None, st, k) && k in was.rows.event
    ensures Entry(prev, r) == Some(st)
  {
    assert IsLatest(was, r, None, k);
    assert Answers(was, r, None, Entry(prev, r));
    assert Entry(prev, r).Some?;
    var j :| IsRow(was, r, None, prev[r], j);
    assert j == k;
    assert now.users[prev[r].userId].key == k.userKey;
  }

  /** The log can only follow the state if the tick was faithful. */
  lemma FollowsOnlyIfFaithful(was: Tables, now: Tables, prev: RankMap, next: RankMap, time: int, rankings: seq<Player>)
    requires MainTick(was, now, prev, next, time, rankings) && DistinctRanks(rankings)
    requires Tidy(was, time) && Agrees(was, prev) && Agrees(now, next)
    ensures Faithful(was, prev, time, rankings)
  {
    hide Landing, ChangedRows, IsRow, Agrees, Answers;
    var rows := ChangedRows(rankings, prev);
    ChangedRowsDistinct(rankings, prev);
    assert Grows(was, now) && Sound(now) by { LandingGrows(was, now, time, rows); }
    forall p | p in rows ensures Named(p) {
      var k := AnsweredHasRow(was, now, prev, next, time, rankings, p);
    }
    forall i, j | 0 <= i < j < |rows| && Complete(rows[i]) && Complete(rows[j]) ensures rows[i].userId != rows[j].userId {
      var k := AnsweredHasRow(was, now, prev, next, time, rankings, rows[i]);
      var l := AnsweredHasRow(was, now, prev, next, time, rankings, rows[j]);
    }
    forall p, k | p in rows && Complete(p) ensures !Collides(was, time, p, k) {
      var l := AnsweredHasRow(was, now, prev, next, time, rankings, p);
      if Collides(was, time, p, k) {
        assert now.stamps[k.timeId] == time;
        assert k.timeId == l.timeId;
        if was.rows.event[k].rank == p.rank.value { SecondLatest(now, p, l, k); }
      }
    }
  }

  lemma LandingGrows(was: Tables, now: Tables, time: int, rows: seq<Player>)
    requires Landing(was, now, time, rows)
    ensures Grows(was, now) && Sound(now) && NewStamps(was.stamps, now.stamps, time)
  {
  }

  lemma SecondLatest(t: Tables, p: Player, l: RowKey, k: RowKey)
    requires Complete(p) && IsRow(t, p.rank.value, None, StateOf(p), l)
    requires k in t.rows.event && t.rows.event[k].rank == p.rank.value && k.timeId == l.timeId
    ensures k == l
  {
    assert IsLatest(t, p.rank.value, None, k);
  }

  /** After a faithful tick each changed row is the one latest row of its rank. */
  lemma ChangedRowIsLatest(was: Tables, now: Tables, prev: RankMap, next: RankMap, time: int, rankings: seq<Player>, p: Player)
    returns (k: RowKey)
    requires MainTick(was, now, prev, next, time, rankings) && DistinctRanks(rankings)
    requires Tidy(was, time) && Faithful(was, prev, time, rankings)
    requires p in ChangedRows(rankings, prev)
    ensures Complete(p) && IsRow(now, p.rank.value, None, StateOf(p), k) && Holds(now, time, p, k) && k !in was.rows.event
  {
    hide FirstNamed, ChangedRows, StatesOf, Landing, Tidy, Collides, IsRow;
    var rows := ChangedRows(rankings, prev);
    assert Tidy(was, time) && Referential(was) by { TidyMeans(was, time); }
    assert Named(p);
    FirstNamedOf(time, rows, p);
    var u := p.userId.value;
    k := TakenOf(was, now, time, rows, u);
    if k in was.rows.event { OldKeyCollides(was, now, time, rows, p, k); }
    assert !Collides(was, time, p, k);
    TakenByItself(was, now, time, rows, p, k);
    ChangedRowsDistinct(rankings, prev);
    forall j | Candidate(now, p.rank.value, None, j) ensures j == k || j.timeId < k.timeId {
      CandidateIsOlder(was, now, time, rows, p, k, j);
    }
    OnlyLatest(now, time, p, k);
  }

  lemma TidyMeans(t: Tables, clock: int)
    requires Tidy(t, clock)
    ensures Sound(t) && Ascending(t.stamps) && Until(t.stamps, clock) && Referential(t)
  {
  }

  lemma TakenOf(was: Tables, now: Tables, time: int, rows: seq<Player>, u: int) returns (k: RowKey)
    requires Landing(was, now, time, rows) && u in FirstNamed(time, rows)
    ensures Taken(now, time, u, k)
  {
    k :| Taken(now, time, u, k);
  }

  lemma TakenByItself(was: Tables, now: Tables, time: int, rows: seq<Player>, p: Player, k: RowKey)
    requires Landing(was, now, time, rows) && DistinctUsers(rows) && p in rows && Named(p)
    requires Taken(now, time, p.userId.value, k) && k !in was.rows.event
    ensures Holds(now, time, p, k)
  {
    var q := SourceOf(was, now, time, rows, k);
    assert now.users[q.userId.value].key == now.users[p.userId.value].key;
    assert q.userId.value == p.userId.value;
    assert q.userId == Some(p.userId.value) == p.userId;
    SameUserSameRow(rows, p, q);
  }

  lemma OnlyLatest(t: Tables, time: int, p: Player, k: RowKey)
    requires Holds(t, time, p, k)
    requires forall j | Candidate(t, p.rank.value, None, j) :: j == k || j.timeId < k.timeId
    ensures IsRow(t, p.rank.value, None, StateOf(p), k)
  {
    assert Candidate(t, p.rank.value, None, k);
  }

  lemma SameUserSameRow(rows: seq<Player>, p: Player, q: Player)
    requires DistinctUsers(rows) && p in rows && q in rows && Complete(p) && Complete(q) && p.userId == q.userId
    ensures p == q
  {
    var i :| 0 <= i < |rows| && rows[i] == p;
    var j :| 0 <= j < |rows| && rows[j] == q;
  }

  lemma OldKeyCollides(was: Tables, now: Tables, time: int, rows: seq<Player>, p: Player, k: RowKey)
    requires Landing(was, now, time, rows) && Referential(was) && Named(p)
    requires Taken(now, time, p.userId.value, k) && k in was.rows.event
    ensures Collides(was, time, p, k)
  {
    assert was.stamps[k.timeId] == now.stamps[k.timeId];
    var u :| u in was.users && was.users[u].key == k.userKey;
    assert now.users[u].key == now.users[p.userId.value].key;
  }

  lemma CandidateIsOlder(was: Tables, now: Tables, time: int, rows: seq<Player>, p: Player, k: RowKey, j: RowKey)
    requires Landing(was, now, time, rows) && Tidy(was, time) && DistinctRanks(rows)
    requires p in rows && Named(p) && Holds(now, time, p, k) && k !in was.rows.event
    requires forall l :: !Collides(was, time, p, l)
    requires Candidate(now, p.rank.value, None, j)
    ensures j == k || j.timeId < k.timeId
  {
    if j in was.rows.event {
      assert !Collides(was, time, p, j);
      assert was.stamps[j.timeId] < time;
      if k.timeId in was.stamps { assert was.stamps[k.timeId] == time; }
    } else {
      var q := SourceOf(was, now, time, rows, j);
      SameRankSameRow(rows, p, q);
      assert j.timeId == k.timeId && j.userKey == k.userKey;
    }
  }

  /** If nothing new qualifies, the answer is the old one. */
  lemma CarryAnswer(was: Tables, now: Tables, r: int, cutoff: Option<int>, a: Option<RankState>)
    requires Grows(was, now) && Referential(was) && Answers(was, r, cutoff, a)
    requires forall k | Candidate(now, r, cutoff, k) :: k in was.rows.event
    ensures Answers(now, r, cutoff, a)
  {
    forall k ensures Candidate(now, r, cutoff, k) <==> Candidate(was, r, cutoff, k) {
      if k in was.rows.event { assert k.timeId in was.stamps; }
    }
    if a.Some? {
      var k := RowOf(was, r, cutoff, a.value);
      forall j ensures IsLatest(now, r, cutoff, j) <==> IsLatest(was, r, cutoff, j) {}
      assert IsRow(now, r, cutoff, a.value, k);
    }
  }

  /** A cutoff after every timestamp is no cutoff. */
  lemma LateCutoff(t: Tables, r: int, c: int, a: Option<RankState>)
    requires Until(t.stamps, c) && Referential(t) && Answers(t, r, None, a)
    ensures Answers(t, r, Some(c), a)
  {
    forall k ensures Candidate(t, r, Some(c), k) <==> Candidate(t, r, None, k) {}
    if a.Some? {
      var k := RowOf(t, r, None, a.value);
      forall j ensures IsLatest(t, r, Some(c), j) <==> IsLatest(t, r, None, j) {}
      assert IsRow(t, r, Some(c), a.value, k);
    }
  }

  /** A faithful tick keeps the log at the state. */
  lemma FaithfulFollows(was: Tables, now: Tables, prev: RankMap, next: RankMap, time: int, rankings: seq<Player>)
    requires MainTick(was, now, prev, next, time, rankings) && DistinctRanks(rankings)
    requires Tidy(was, time) && Agrees(was, prev) && Faithful(was, prev, time, rankings)
    ensures Agrees(now, next)
  {
    forall r ensures Answers(now, r, None, Entry(next, r)) {
      RankFollows(was, now, prev, next, time, rankings, r);
    }
  }

  lemma RankFollows(was: Tables, now: Tables, prev: RankMap, next: RankMap, time: int, rankings: seq<Player>, r: int)
    requires MainTick(was, now, prev, next, time, rankings) && DistinctRanks(rankings)
    requires Tidy(was, time) && Agrees(was, prev) && Faithful(was, prev, time, rankings)
    ensures Answers(now, r, None, Entry(next, r))
  {
    hide ChangedRows, StatesOf, FirstNamed, Landing, Tidy, Faithful, IsRow, Answers;
    var rows := ChangedRows(rankings, prev);
    TidyMeans(was, time);
    LandingGrows(was, now, time, rows);
    StatesAre(rows);
    ChangedRowsDistinct(rankings, prev);
    if r in StatesOf(rows) {
      var p :| p in rows && Complete(p) && p.rank.value == r;
      var k := ChangedRowIsLatest(was, now, prev, next, time, rankings, p);
      StateAt(rows, p);
      RowAnswers(now, r, StateOf(p), k);
    } else {
      forall k | Candidate(now, r, None, k) ensures k in was.rows.event {
        if k !in was.rows.event { var q := SourceOf(was, now, time, rows, k); }
      }
      assert Answers(was, r, None, Entry(prev, r));
      CarryAnswer(was, now, r, None, Entry(prev, r));
    }
  }

  lemma RowAnswers(t: Tables, r: int, st: RankState, k: RowKey)
    requires IsRow(t, r, None, st, k)
    ensures Answers(t, r, None, Some(st))
  {
  }

  /** Exactness of one tick.  Once its main part has landed, the log answers every
      rank with the state the tracker goes on from if and only if the tick was
      faithful, which can be told from the tables and the payload beforehand. */
  lemma TickIsExact(id: PublicId, was: Tables, now: Tables, prev: RankMap, next: RankMap,
                    data: HandledData, records: seq<Record>)
    requires MainLanded(id, data, false, records, was, now, prev, next)
    requires Tidy(was, data.recordTime) && DistinctRanks(data.rankings) && Agrees(was, prev)
    ensures Agrees(now, next) <==> Faithful(was, prev, data.recordTime, data.rankings)
  {
    MainIsLanding(id, data, false, records, was, now, prev, next);
    if Agrees(now, next) {
      FollowsOnlyIfFaithful(was, now, prev, next, data.recordTime, data.rankings);
    }
    if Faithful(was, prev, data.recordTime, data.rankings) {
      FaithfulFollows(was, now, prev, next, data.recordTime, data.rankings);
    }
  }

  // --------------------------------------------------------------------- runs

  /** What a tracker does to its tables: a tick, the mark of a failed fetch, or the
      user refresh after the end. */
  datatype Act =
    | Tick(data: HandledData, onlyWorldBloom: bool, idle: bool, now: int, outcome: Outcome, log: PersistLog)
    | Beat(now: int)
    | RefreshUsers(dims: map<int, U.UserDim>)

  ghost predicate Acts(id: PublicId, s: View, a: Act, t: View) {
    && Sound(t.tables)
    && match a
       case Tick(data, only, idle, now, outcome, log) => Ticked(id, data, only, idle, now, outcome, log, s, t)
       case Beat(now) => Marked(s, t, now)
       case RefreshUsers(dims) =>
         && t == s.(tables := s.tables.(users := t.tables.users))
         && U.Extends(s.tables.users, t.tables.users, dims)
  }

  /** The clock does not go back: `now` is read before the record time. */
  predicate Timely(clock: int, a: Act) {
    match a
    case Tick(data, _, _, now, _, _) => clock <= now <= data.recordTime
    case Beat(now) => clock <= now
    case RefreshUsers(_) => true
  }

  function ClockAfter(clock: int, a: Act): int {
    match a
    case Tick(data, _, _, _, _, _) => data.recordTime
    case Beat(now) => now
    case RefreshUsers(_) => clock
  }

  predicate Lands(a: Act) {
    a.Tick? && !a.onlyWorldBloom && !a.outcome.MainFailed?
  }

  function Heard(h: seq<Seen>, a: Act): seq<Seen> {
    if Lands(a) then h + [Seen(a.data.recordTime, a.data.rankings)] else h
  }

  /** The condition on a payload whose rows land. */
  ghost predicate Regular(s: View, a: Act) {
    Lands(a) ==> DistinctRanks(a.data.rankings) && Faithful(s.tables, s.ranks, a.data.recordTime, a.data.rankings)
  }

  datatype Step = Step(act: Act, after: View)

  ghost predicate Run(id: PublicId, s: View, clock: int, steps: seq<Step>)
    decreases |steps|
  {
    steps != [] ==>
      && Acts(id, s, steps[0].act, steps[0].after) && Timely(clock, steps[0].act)
      && Run(id, steps[0].after, ClockAfter(clock, steps[0].act), steps[1..])
  }

  ghost predicate AllRegular(s: View, steps: seq<Step>)
    decreases |steps|
  {
    steps != [] ==> Regular(s, steps[0].act) && AllRegular(steps[0].after, steps[1..])
  }

  function End(s: View, steps: seq<Step>): View {
    if steps == [] then s else steps[|steps| - 1].after
  }

  function HistoryFrom(h: seq<Seen>, steps: seq<Step>): seq<Seen>
    decreases |steps|
  {
    if steps == [] then h else HistoryFrom(Heard(h, steps[0].act), steps[1..])
  }

  function Start(): View {
    View(Tables(map[], map[], RankingRows(map[], map[])), map[], map[], map[], None)
  }

  // ----------------------------------------------------------- each part keeps

  /** Timestamps and users may grow, the event rows stay. */
  ghost predicate Quiet(was: Tables, now: Tables, time: int) {
    && Sound(now) && Grows(was, now) && now.rows.event == was.rows.event && NewStamps(was.stamps, now.stamps, time)
  }

  lemma TidyStays(was: Tables, now: Tables, clock: int, time: int, next: int)
    requires Tidy(was, clock) && clock <= time <= next
    requires Sound(now) && Grows(was, now) && NewStamps(was.stamps, now.stamps, time)
    requires forall k | k in now.rows.event && k !in was.rows.event :: k.timeId in now.stamps && HasOwner(now.users, k.userKey)
    ensures Tidy(now, next)
  {
    forall k | k in now.rows.event ensures k.timeId in now.stamps && HasOwner(now.users, k.userKey) {
      if k in was.rows.event {
        var u :| u in was.users && was.users[u].key == k.userKey;
        assert u in now.users && now.users[u].key == k.userKey;
      }
    }
  }

  lemma ChaptersAreQuiet(id: PublicId, rows: seq<ChapterRecord>, was: Tables, now: Tables, time: int,
                         prev: ChapterStates, next: ChapterStates, memo: Memo, fed: Memo, inserted: nat)
    requires Sound(was) && ChaptersLanded(id, rows, was, now, prev, next, memo, fed, inserted)
    requires forall r | r in rows :: r.base.timestamp == time
    ensures Quiet(was, now, time) && (inserted == 0 ==> now.stamps == was.stamps)
  {
    if rows != [] {
      assert U.Upserted(was.users, now.users, DimsOf(id, Bases(rows)));
      forall ts | ts in TimesOf(Bases(rows)) ensures ts == time {
        var b :| b in Bases(rows) && b.timestamp == ts;
        var i :| 0 <= i < |rows| && Bases(rows)[i] == b;
        assert rows[i] in rows;
      }
    }
  }

  lemma FailedChaptersAreQuiet(id: PublicId, rows: seq<ChapterRecord>, was: Tables, now: Tables, time: int,
                               prev: ChapterStates, next: ChapterStates, memo: Memo, fed: Memo)
    requires Storage.ChaptersFailed(id, was, now, rows, prev, next, memo, fed)
    ensures Quiet(was, now, time)
  {
  }

  /** A tick whose main part landed: the main part up to `mid`, and then nothing
      that touches the event rows, at an instant `at`. */
  lemma TickParts(id: PublicId, s: View, a: Act, t: View) returns (mid: Tables, at: int)
    requires Sound(s.tables) && a.Tick? && Acts(id, s, a, t) && !a.outcome.MainFailed?
    ensures MainLanded(id, a.data, a.onlyWorldBloom, a.log.records, s.tables, mid, s.ranks, t.ranks)
    ensures Sound(mid) && Quiet(mid, t.tables, at)
    ensures at == a.data.recordTime || (at == a.now && mid == s.tables)
  {
    hide MainLanded, ChaptersLanded, Storage.ChaptersFailed, Quiet, Sound, StampsGrow, EventCommitted;
    mid, at := a.log.afterMain, a.data.recordTime;
    MainIsSound(id, a.data, a.onlyWorldBloom, a.log.records, s.tables, mid, s.ranks, t.ranks);
    ChapterTimes(a.data.recordTime, a.log.order, a.data.chapters, true, s.memo, s.chapters);
    if a.outcome.ChaptersFailed? {
      FailedChaptersAreQuiet(id, a.log.rows, mid, t.tables, at, s.chapters, t.chapters, s.memo, t.memo);
    } else {
      ChaptersAreQuiet(id, a.log.rows, mid, a.log.afterChapters, at, s.chapters, t.chapters, s.memo, t.memo, a.log.inserted);
      if a.outcome.Persisted? && !a.outcome.changed && a.idle {
        at := a.now;
        BeatIsQuiet(mid, a.log.afterChapters, a.data.recordTime, t.tables, a.now);
      }
    }
  }

  lemma MainIsSound(id: PublicId, data: HandledData, onlyWorldBloom: bool, records: seq<Record>,
                    was: Tables, now: Tables, prev: RankMap, next: RankMap)
    requires Sound(was) && MainLanded(id, data, onlyWorldBloom, records, was, now, prev, next)
    ensures Sound(now) && (records == [] ==> now == was)
  {
  }

  lemma BeatIsQuiet(was: Tables, mid: Tables, time: int, now: Tables, beat: int)
    requires Quiet(was, mid, time) && mid.stamps == was.stamps
    requires now == mid.(stamps := now.stamps) && StampsGrow(mid.stamps, now.stamps, {beat}) && Sound(now)
    ensures Quiet(was, now, beat)
  {
  }

  lemma TidyTick(id: PublicId, s: View, a: Act, t: View, clock: int)
    requires Tidy(s.tables, clock) && a.Tick? && Acts(id, s, a, t) && Timely(clock, a)
    ensures Tidy(t.tables, a.data.recordTime)
  {
    hide MainLanded, ChaptersLanded, Storage.ChaptersFailed, StampsGrow, EventCommitted, Landing, OnlyUsers, Tidy;
    TidyMeans(s.tables, clock);
    var time := a.data.recordTime;
    if a.outcome.MainFailed? {
      OnlyUsersIsQuiet(id, s.tables, t.tables, a.log.records, time);
      TidyStays(s.tables, t.tables, clock, time, time);
    } else {
      var mid, at := TickParts(id, s, a, t);
      MainIsLanding(id, a.data, a.onlyWorldBloom, a.log.records, s.tables, mid, s.ranks, t.ranks);
      LandingTidy(s.tables, mid, time, MainRows(a.data, a.onlyWorldBloom, s.ranks), clock);
      if at == time {
        TidyStays(mid, t.tables, time, time, time);
      } else {
        TidyStays(mid, t.tables, clock, at, time);
      }
    }
  }

  lemma OnlyUsersIsQuiet(id: PublicId, was: Tables, now: Tables, records: seq<Record>, time: int)
    requires OnlyUsers(id, was, now, records)
    ensures Quiet(was, now, time)
  {
  }

  lemma OwnedBy(users: Users, u: int, key: nat)
    requires u in users && users[u].key == key
    ensures HasOwner(users, key)
  {
  }

  lemma LandingTidy(was: Tables, now: Tables, time: int, rows: seq<Player>, clock: int)
    requires Tidy(was, clock) && clock <= time && Landing(was, now, time, rows)
    ensures Tidy(now, time)
  {
    forall k | k in now.rows.event && k !in was.rows.event ensures k.timeId in now.stamps && HasOwner(now.users, k.userKey) {
      var p := SourceOf(was, now, time, rows, k);
      OwnedBy(now.users, p.userId.value, k.userKey);
    }
    TidyStays(was, now, clock, time, time);
  }

  lemma TidyAct(id: PublicId, s: View, a: Act, t: View, clock: int)
    requires Tidy(s.tables, clock) && Acts(id, s, a, t) && Timely(clock, a)
    ensures Tidy(t.tables, ClockAfter(clock, a))
  {
    match a
    case Tick(_, _, _, _, _, _) => TidyTick(id, s, a, t, clock);
    case Beat(now) => TidyStays(s.tables, t.tables, clock, now, now);
    case RefreshUsers(_) => TidyStays(s.tables, t.tables, clock, clock, clock);
  }

  lemma {:induction false} RunTidy(id: PublicId, s: View, clock: int, steps: seq<Step>)
    requires Tidy(s.tables, clock) && Run(id, s, clock, steps)
    ensures exists c :: Tidy(End(s, steps).tables, c)
    decreases |steps|
  {
    if steps == [] {
      assert Tidy(End(s, steps).tables, clock);
    } else {
      TidyAct(id, s, steps[0].act, steps[0].after, clock);
      RunTidy(id, steps[0].after, ClockAfter(clock, steps[0].act), steps[1..]);
      assert End(steps[0].after, steps[1..]) == End(s, steps);
    }
  }

  /** With a clock that does not go back, time ids are in the order of their
      timestamps in every table a tracker can reach, whatever fails on the way. */
  lemma TimeIdsFollowTime(id: PublicId, clock: int, steps: seq<Step>, a: nat, b: nat)
    requires Run(id, Start(), clock, steps)
    requires a in End(Start(), steps).tables.stamps && b in End(Start(), steps).tables.stamps
    ensures var stamps := End(Start(), steps).tables.stamps;
            && (a < b <==> stamps[a] < stamps[b])
            && (stamps[a] == stamps[b] <==> a == b)
  {
    assert Tidy(Start().tables, clock);
    RunTidy(id, Start(), clock, steps);
  }

  // --------------------------------------------------------------- refinement

  ghost predicate Settled(h: seq<Seen>, clock: int) {
    forall i | 0 <= i < |h| :: h[i].time <= clock
  }

  /** The log, read with any cutoff, and the state are the dense history. */
  ghost predicate Refines(s: View, h: seq<Seen>, clock: int) {
    && Tidy(s.tables, clock) && Settled(h, clock)
    && (forall r :: Entry(s.ranks, r) == LastSeen(h, r, None))
    && (forall r, cutoff :: Answers(s.tables, r, cutoff, LastSeen(h, r, cutoff)))
  }

  lemma {:induction false} SeenLate(h: seq<Seen>, r: int, c: int)
    requires Settled(h, c)
    ensures LastSeen(h, r, Some(c)) == LastSeen(h, r, None)
  {
    if h != [] { SeenLate(h[..|h| - 1], r, c); }
  }

  /** The next state of a rank: the payload's word where it has one. */
  lemma NextEntry(rankings: seq<Player>, prev: RankMap, r: int)
    requires DistinctRanks(rankings)
    ensures var next := prev + StatesOf(ChangedRows(rankings, prev));
            Entry(next, r) == if r in StatesOf(rankings) then Some(StatesOf(rankings)[r]) else Entry(prev, r)
  {
    var rows := ChangedRows(rankings, prev);
    StatesAre(rankings);
    StatesAre(rows);
    ChangedRowsAre(rankings, prev);
    if r in StatesOf(rankings) {
      var p :| p in rankings && Complete(p) && p.rank.value == r;
      CommittedStateAgrees(rankings, prev, p);
      StateAt(rankings, p);
    }
  }

  lemma QuietKeeps(s: View, t: View, h: seq<Seen>, clock: int, next: int, at: int)
    requires Refines(s, h, clock) && clock <= next && Tidy(t.tables, next)
    requires Quiet(s.tables, t.tables, at) && t.ranks == s.ranks
    ensures Refines(t, h, next)
  {
    hide Tidy, IsRow, Answers;
    TidyMeans(s.tables, clock);
    forall r, cutoff ensures Answers(t.tables, r, cutoff, LastSeen(h, r, cutoff)) {
      assert Answers(s.tables, r, cutoff, LastSeen(h, r, cutoff));
      CarryAnswer(s.tables, t.tables, r, cutoff, LastSeen(h, r, cutoff));
    }
  }

  lemma MainKeeps(id: PublicId, s: View, mid: View, h: seq<Seen>, clock: int, data: HandledData, records: seq<Record>)
    requires Refines(s, h, clock) && clock <= data.recordTime && Tidy(mid.tables, data.recordTime)
    requires MainLanded(id, data, false, records, s.tables, mid.tables, s.ranks, mid.ranks)
    requires DistinctRanks(data.rankings) && Faithful(s.tables, s.ranks, data.recordTime, data.rankings)
    ensures Refines(mid, h + [Seen(data.recordTime, data.rankings)], data.recordTime)
  {
    hide Tidy, IsRow, Answers, MainLanded, Landing, Faithful, Candidate;
    var time := data.recordTime;
    var g := h + [Seen(time, data.rankings)];
    TidyMeans(mid.tables, time);
    LaterTidy(s.tables, clock, time);
    TidyMeans(s.tables, time);
    assert Settled(g, time);
    assert Agrees(s.tables, s.ranks) by { RefinesAgrees(s, h, clock); }
    MainMeans(id, data, records, s.tables, mid.tables, s.ranks, mid.ranks);
    FaithfulFollows(s.tables, mid.tables, s.ranks, mid.ranks, time, data.rankings);
    assert g[..|g| - 1] == h;
    forall r ensures Entry(mid.ranks, r) == LastSeen(g, r, None) { NextEntry(data.rankings, s.ranks, r); }
    forall r, cutoff ensures Answers(mid.tables, r, cutoff, LastSeen(g, r, cutoff)) {
      assert Answers(mid.tables, r, None, Entry(mid.ranks, r));
      if cutoff.Some? && cutoff.value < time {
        assert Answers(s.tables, r, cutoff, LastSeen(h, r, cutoff));
        EarlyCutoff(s.tables, mid.tables, r, cutoff.value, LastSeen(h, r, cutoff), time, ChangedRows(data.rankings, s.ranks));
      } else if cutoff.Some? {
        SeenLate(g, r, cutoff.value);
        LateCutoff(mid.tables, r, cutoff.value, Entry(mid.ranks, r));
      }
    }
  }

  lemma LaterTidy(t: Tables, clock: int, next: int)
    requires Tidy(t, clock) && clock <= next
    ensures Tidy(t, next)
  {
  }

  lemma RefinesAgrees(s: View, h: seq<Seen>, clock: int)
    requires Refines(s, h, clock)
    ensures Agrees(s.tables, s.ranks)
  {
    hide Answers;
    forall r ensures Answers(s.tables, r, None, Entry(s.ranks, r)) {
      assert Answers(s.tables, r, None, LastSeen(h, r, None));
    }
  }

  lemma MainMeans(id: PublicId, data: HandledData, records: seq<Record>, was: Tables, now: Tables, prev: RankMap, next: RankMap)
    requires Sound(was) && MainLanded(id, data, false, records, was, now, prev, next)
    ensures MainTick(was, now, prev, next, data.recordTime, data.rankings)
  {
    hide EventCommitted, Landing;
    MainIsLanding(id, data, false, records, was, now, prev, next);
  }

  /** New rows stand for `time`: they are invisible before it. */
  lemma EarlyCutoff(was: Tables, now: Tables, r: int, c: int, a: Option<RankState>, time: int, rows: seq<Player>)
    requires Landing(was, now, time, rows) && Referential(was) && c < time && Answers(was, r, Some(c), a)
    ensures Answers(now, r, Some(c), a)
  {
    hide Answers;
    LandingGrows(was, now, time, rows);
    forall k | Candidate(now, r, Some(c), k) ensures k in was.rows.event {
      if k !in was.rows.event { var p := SourceOf(was, now, time, rows, k); }
    }
    CarryAnswer(was, now, r, Some(c), a);
  }

  lemma ActKeeps(id: PublicId, s: View, a: Act, t: View, h: seq<Seen>, clock: int)
    requires Refines(s, h, clock) && Acts(id, s, a, t) && Timely(clock, a) && Regular(s, a)
    ensures Refines(t, Heard(h, a), ClockAfter(clock, a))
  {
    hide Tidy, Refines, MainLanded, ChaptersLanded, Storage.ChaptersFailed, StampsGrow, EventCommitted, Landing, OnlyUsers, Faithful;
    assert Tidy(s.tables, clock) by { RefinesTidy(s, h, clock); }
    TidyMeans(s.tables, clock);
    TidyAct(id, s, a, t, clock);
    var next := ClockAfter(clock, a);
    if !a.Tick? {
      assert Quiet(s.tables, t.tables, next) by { OtherIsQuiet(id, s, a, t, clock); }
      QuietKeeps(s, t, h, clock, next, next);
    } else if a.outcome.MainFailed? {
      OnlyUsersIsQuiet(id, s.tables, t.tables, a.log.records, next);
      QuietKeeps(s, t, h, clock, next, next);
    } else {
      var mid, at := TickParts(id, s, a, t);
      MainIsLanding(id, a.data, a.onlyWorldBloom, a.log.records, s.tables, mid, s.ranks, t.ranks);
      LandingTidy(s.tables, mid, next, MainRows(a.data, a.onlyWorldBloom, s.ranks), clock);
      var m := View(mid, t.ranks, t.chapters, t.memo, t.borderHash);
      if Lands(a) {
        MainKeeps(id, s, m, h, clock, a.data, a.log.records);
        QuietKeeps(m, t, Heard(h, a), next, next, at);
      } else {
        assert Quiet(s.tables, mid, next) && t.ranks == s.ranks by { NoRowsIsQuiet(id, a.data, a.log.records, s.tables, mid, s.ranks, t.ranks); }
        QuietKeeps(s, m, h, clock, next, next);
        QuietKeeps(m, t, h, next, next, at);
      }
    }
  }

  lemma RefinesTidy(s: View, h: seq<Seen>, clock: int)
    requires Refines(s, h, clock)
    ensures Tidy(s.tables, clock)
  {
  }

  lemma OtherIsQuiet(id: PublicId, s: View, a: Act, t: View, clock: int)
    requires Acts(id, s, a, t) && !a.Tick?
    ensures Quiet(s.tables, t.tables, ClockAfter(clock, a)) && t.ranks == s.ranks
  {
  }

  lemma NoRowsIsQuiet(id: PublicId, data: HandledData, records: seq<Record>, was: Tables, now: Tables, prev: RankMap, next: RankMap)
    requires Sound(was) && MainLanded(id, data, true, records, was, now, prev, next)
    ensures Quiet(was, now, data.recordTime) && next == prev
  {
    assert records == [];
  }

  lemma {:induction false} RunRefines(id: PublicId, s: View, clock: int, steps: seq<Step>, h: seq<Seen>)
    requires Refines(s, h, clock) && Run(id, s, clock, steps) && AllRegular(s, steps)
    ensures exists c :: Refines(End(s, steps), HistoryFrom(h, steps), c)
    decreases |steps|
  {
    hide Refines, Acts, Regular;
    if steps == [] {
      assert Refines(End(s, steps), HistoryFrom(h, steps), clock);
    } else {
      ActKeeps(id, s, steps[0].act, steps[0].after, h, clock);
      RunRefines(id, steps[0].after, ClockAfter(clock, steps[0].act), steps[1..], Heard(h, steps[0].act));
      assert End(steps[0].after, steps[1..]) == End(s, steps);
      var c :| Refines(End(s, steps), HistoryFrom(Heard(h, steps[0].act), steps[1..]), c);
      assert Refines(End(s, steps), HistoryFrom(h, steps), c);
    }
  }

  /** The refinement.  Over any run, whatever fails in it, if the payloads that land
      are faithful then for every rank and every cutoff the latest-before-cutoff
      query answers with the user and score of the last landed payload at or before
      the cutoff that contained the rank, in one row, and with nothing if there is
      no such payload. */
  lemma SparseLogIsDense(id: PublicId, clock: int, steps: seq<Step>, r: int, cutoff: Option<int>)
    requires Run(id, Start(), clock, steps) && AllRegular(Start(), steps)
    ensures Answers(End(Start(), steps).tables, r, cutoff, LastSeen(HistoryFrom([], steps), r, cutoff))
  {
    assert Refines(Start(), [], clock);
    RunRefines(id, Start(), clock, steps, []);
    var c :| Refines(End(Start(), steps), HistoryFrom([], steps), c);
  }

  /** Payloads with complete, distinct ranks and users, all named, at strictly
      increasing times are faithful. */
  lemma CleanPayloadIsFaithful(t: Tables, prev: RankMap, clock: int, time: int, rankings: seq<Player>)
    requires Tidy(t, clock) && clock < time
    requires DistinctUsers(rankings) && forall p | p in rankings && Complete(p) :: Named(p)
    ensures Faithful(t, prev, time, rankings)
  {
    ChangedRowsAre(rankings, prev);
    ChangedRowsDistinct(rankings, prev);
  }

  // --------------------------------------------------------------------- lines

  datatype Line = Line(rank: int, timestamp: int, score: int)

  /** The rows of the latest-edge query, indexed by rank. */
  ghost predicate EdgeRows(t: Tables, ranks: seq<int>, cutoff: Option<int>, rows: map<int, Line>) {
    && (forall r :: r in rows <==> r in ranks && exists k :: IsLatest(t, r, cutoff, k))
    && (forall r | r in rows :: exists k :: IsLatest(t, r, cutoff, k) && rows[r] == Line(r, t.stamps[k.timeId], t.rows.event[k].score))
  }

  /** The position of a rank's first request. */
  function FirstAt(ranks: seq<int>, r: int): (i: nat)
    requires r in ranks
    ensures i < |ranks| && ranks[i] == r && r !in ranks[..i]
  {
    if ranks[0] == r then 0
    else
      var i := FirstAt(ranks[1..], r);
      assert ranks[..i + 1] == [ranks[0]] + ranks[1..][..i];
      i + 1
  }

  /** One line per requested rank that has a row, in the order of first request. */
  method FetchLines(edge: map<int, Line>, ranks: seq<int>) returns (lines: seq<Line>)
    requires forall r | r in edge :: edge[r].rank == r
    ensures forall i | 0 <= i < |lines| :: lines[i].rank in ranks && lines[i].rank in edge && lines[i] == edge[lines[i].rank]
    ensures forall r | r in ranks && r in edge :: edge[r] in lines
    ensures forall i, j | 0 <= i < j < |lines| :: FirstAt(ranks, lines[i].rank) < FirstAt(ranks, lines[j].rank)
  {
    var rows := edge;
    lines := [];
    for n := 0 to |ranks|
      invariant forall r | r in rows :: r in edge && rows[r] == edge[r]
      invariant forall r | r in edge && r !in rows :: edge[r] in lines
      invariant forall r | r in ranks[..n] :: r !in rows
      invariant forall i | 0 <= i < |lines| :: lines[i].rank in ranks && lines[i].rank in edge && lines[i] == edge[lines[i].rank]
      invariant forall i | 0 <= i < |lines| :: FirstAt(ranks, lines[i].rank) < n
      invariant forall i, j | 0 <= i < j < |lines| :: FirstAt(ranks, lines[i].rank) < FirstAt(ranks, lines[j].rank)
    {
      var rank := ranks[n];
      assert ranks[..n + 1] == ranks[..n] + [rank];
      if rank in rows {
        FirstHere(ranks, n);
        assert forall l | l in lines :: l in lines + [rows[rank]];
        lines := lines + [rows[rank]];
        assert edge[rank] in lines;
        rows := rows - {rank};
      } else {
        assert forall r | r in rows :: r != rank;
      }
    }
    assert ranks[..|ranks|] == ranks;
  }

  lemma FirstHere(ranks: seq<int>, n: nat)
    requires n < |ranks| && ranks[n] !in ranks[..n]
    ensures FirstAt(ranks, ranks[n]) == n
  {
  }

  /** The lines of a faithful run are those of the dense history: the same ranks,
      the same scores. */
  lemma LinesAreDense(id: PublicId, clock: int, steps: seq<Step>, ranks: seq<int>, cutoff: Option<int>, edge: map<int, Line>, r: int)
    requires Run(id, Start(), clock, steps) && AllRegular(Start(), steps)
    requires EdgeRows(End(Start(), steps).tables, ranks, cutoff, edge)
    ensures var seen := LastSeen(HistoryFrom([], steps), r, cutoff);
            && (r in edge <==> r in ranks && seen.Some?)
            && (r in edge ==> edge[r].score == seen.value.score)
  {
    hide Run, AllRegular, LastSeen, HistoryFrom, End;
    var t := End(Start(), steps).tables;
    SparseLogIsDense(id, clock, steps, r, cutoff);
    var seen := LastSeen(HistoryFrom([], steps), r, cutoff);
    if seen.Some? {
      var k := RowOf(t, r, cutoff, seen.value);
      assert IsLatest(t, r, cutoff, k);
    }
  }
}
