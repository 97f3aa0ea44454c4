/** The event's tables and the two ranking transactions. */
module Storage {
  import opened RankingTables
  import opened RankDiff
  import U = UserTable

  type Stamps = map<nat, int>      // time_id -> timestamp
  type Users = map<int, U.UserRow>

  datatype Tables = Tables(users: Users, stamps: Stamps, rows: RankingRows)

  datatype WorldBloomKey = WorldBloomKey(userKey: nat, characterId: int)
  datatype PlayerState = PlayerState(score: int, rank: int)
  type ChapterStates = map<WorldBloomKey, PlayerState>

  // -------------------------------------------------------------- time table

  /** The timestamp column is unique. */
  ghost predicate UniqueStamps(stamps: Stamps) {
    forall a, b | a in stamps && b in stamps && stamps[a] == stamps[b] :: a == b
  }

  predicate HasStamp(stamps: Stamps, ts: int) {
    exists id | id in stamps :: stamps[id] == ts
  }

  ghost function IdAt(stamps: Stamps, ts: int): (id: nat)
    requires HasStamp(stamps, ts)
    ensures id in stamps && stamps[id] == ts
  {
    var id :| id in stamps && stamps[id] == ts;
    id
  }

  /** `now` is `was` with the timestamps `times`; new ids are above every old one. */
  ghost predicate StampsGrow(was: Stamps, now: Stamps, times: set<int>) {
    && (forall id | id in was :: id in now && now[id] == was[id])
    && (forall ts | ts in times :: HasStamp(now, ts))
    && (forall id | id in now && id !in was :: now[id] in times && forall other | other in was :: other < id)
  }

  // ------------------------------------------------------------- transactions

  /** INSERT .. ON CONFLICT DO NOTHING, row by row. */
  function InsertAll<K, V>(table: map<K, V>, rows: seq<(K, V)>): (r: map<K, V>)
    ensures forall k | k in table :: k in r && r[k] == table[k]
  {
    if rows == [] then table
    else
      var t := InsertAll(table, rows[..|rows| - 1]);
      var row := rows[|rows| - 1];
      if row.0 in t then t else t[row.0 := row.1]
  }

  /** A new row is one of those handed in, and each row handed in has its key taken. */
  lemma {:induction false} InsertedRows<K, V>(table: map<K, V>, rows: seq<(K, V)>)
    ensures forall k | k in InsertAll(table, rows) && k !in table :: (k, InsertAll(table, rows)[k]) in rows
    ensures forall row | row in rows :: row.0 in InsertAll(table, rows)
  {
    if rows != [] {
      var init := rows[..|rows| - 1];
      InsertedRows(table, init);
      assert rows == init + [rows[|rows| - 1]];
      var t := InsertAll(table, init);
      forall k | k in InsertAll(table, rows) && k !in table ensures (k, InsertAll(table, rows)[k]) in rows {
        if k in t { assert (k, t[k]) in init; }
      }
    }
  }

  function DimOf(publicId: int -> Option<string>, r: Record): U.UserDim {
    U.UserDim(r.name, r.team, publicId(r.userId), r.profile)
  }

  /** One dimension row per user: that of the user's first record. */
  function DimsOf(publicId: int -> Option<string>, records: seq<Record>): (m: map<int, U.UserDim>)
    ensures forall u :: u in m <==> exists k :: 0 <= k < |records| && records[k].userId == u
  {
    if records == [] then map[]
    else
      var last := records[|records| - 1];
      var m := DimsOf(publicId, records[..|records| - 1]);
      assert forall k | 0 <= k < |records| - 1 :: records[k] == records[..|records| - 1][k];
      if last.userId in m then m else m[last.userId := DimOf(publicId, last)]
  }

  function TimesOf(records: seq<Record>): set<int> {
    set r | r in records :: r.timestamp
  }

  /** Every record's timestamp and user can be resolved. */
  ghost predicate Resolved(stamps: Stamps, users: Users, records: seq<Record>) {
    forall k | 0 <= k < |records| :: HasStamp(stamps, records[k].timestamp) && records[k].userId in users
  }

  ghost function EventRow(stamps: Stamps, users: Users, r: Record): (RowKey, Standing)
    requires HasStamp(stamps, r.timestamp) && r.userId in users
  {
    (RowKey(IdAt(stamps, r.timestamp), users[r.userId].key), Standing(r.rank, r.score))
  }

  ghost function EventRows(stamps: Stamps, users: Users, records: seq<Record>): (rows: seq<(RowKey, Standing)>)
    requires Resolved(stamps, users, records)
    ensures |rows| == |records| && forall k | 0 <= k < |rows| :: rows[k] == EventRow(stamps, users, records[k])
  {
    seq(|records|, k requires 0 <= k < |records| => EventRow(stamps, users, records[k]))
  }

  /** The unique columns are unique. */
  ghost predicate Sound(t: Tables) {
    U.Injective(t.users) && UniqueStamps(t.stamps)
  }

  /** A committed transaction for the main ranking. */
  ghost predicate EventCommitted(publicId: int -> Option<string>, was: Tables, now: Tables, records: seq<Record>) {
    && Sound(now)
    && U.Upserted(was.users, now.users, DimsOf(publicId, records))
    && StampsGrow(was.stamps, now.stamps, TimesOf(records))
    && Resolved(now.stamps, now.users, records)
    && now.rows.worldBloom == was.rows.worldBloom
    && now.rows.event == InsertAll(was.rows.event, EventRows(now.stamps, now.users, records))
  }

  /** A call that did not commit: at most user rows were brought up to date. */
  ghost predicate OnlyUsers(publicId: int -> Option<string>, was: Tables, now: Tables, records: seq<Record>) {
    && Sound(now)
    && U.Extends(was.users, now.users, DimsOf(publicId, records))
    && now.stamps == was.stamps && now.rows == was.rows
  }

  // ------------------------------------------------------------- world bloom

  function Bases(records: seq<ChapterRecord>): (r: seq<Record>)
    ensures |r| == |records| && forall k | 0 <= k < |r| :: r[k] == records[k].base
  {
    seq(|records|, k requires 0 <= k < |records| => records[k].base)
  }

  predicate Known(users: Users, records: seq<ChapterRecord>) {
    forall k | 0 <= k < |records| :: records[k].base.userId in users
  }

  function ChapterKey(users: Users, r: ChapterRecord): WorldBloomKey
    requires r.base.userId in users
  {
    WorldBloomKey(users[r.base.userId].key, r.characterId)
  }

  predicate ChapterChanged(users: Users, prev: ChapterStates, r: ChapterRecord)
    requires r.base.userId in users
  {
    var key := ChapterKey(users, r);
    !(key in prev && prev[key] == PlayerState(r.base.score, r.base.rank))
  }

  /** The records that differ from the state, in order. */
  function ChangedChapters(users: Users, prev: ChapterStates, records: seq<ChapterRecord>): (r: seq<ChapterRecord>)
    requires Known(users, records)
    ensures Known(users, r)
  {
    if records == [] then []
    else
      var last := records[|records| - 1];
      var rest := ChangedChapters(users, prev, records[..|records| - 1]);
      if ChapterChanged(users, prev, last) then rest + [last] else rest
  }

  /** The state after `records`; a later record wins. */
  function ChapterStatesOf(users: Users, prev: ChapterStates, records: seq<ChapterRecord>): ChapterStates
    requires Known(users, records)
  {
    if records == [] then prev
    else
      var last := records[|records| - 1];
      ChapterStatesOf(users, prev, records[..|records| - 1])[ChapterKey(users, last) := PlayerState(last.base.score, last.base.rank)]
  }

  ghost function ChapterRow(stamps: Stamps, users: Users, r: ChapterRecord): (ChapterRowKey, Standing)
    requires HasStamp(stamps, r.base.timestamp) && r.base.userId in users
  {
    (ChapterRowKey(IdAt(stamps, r.base.timestamp), users[r.base.userId].key, r.characterId), Standing(r.base.rank, r.base.score))
  }

  ghost function ChapterRows(stamps: Stamps, users: Users, records: seq<ChapterRecord>): (rows: seq<(ChapterRowKey, Standing)>)
    requires Resolved(stamps, users, Bases(records))
    ensures |rows| == |records| && forall k | 0 <= k < |rows| :: Bases(records)[k] == records[k].base && rows[k] == ChapterRow(stamps, users, records[k])
  {
    seq(|records|, k requires 0 <= k < |records| => assert Bases(records)[k] == records[k].base; ChapterRow(stamps, users, records[k]))
  }

  /** A committed World Bloom transaction: time ids for all the records that were
      handed in, rows for the changed ones. */
  ghost predicate ChaptersCommitted(was: Tables, now: Tables, times: set<int>, changed: seq<ChapterRecord>) {
    && StampsGrow(was.stamps, now.stamps, times)
    && Resolved(now.stamps, now.users, Bases(changed))
    && now.rows.event == was.rows.event
    && now.rows.worldBloom == InsertAll(was.rows.worldBloom, ChapterRows(now.stamps, now.users, changed))
  }

  type Memo = map<int, nat>        // uid -> user_id_key

  function Fed(memo: Memo, users: Users, ids: set<int>): Memo
    requires forall id | id in ids :: id in users
  {
    memo + (map id | id in ids :: users[id].key)
  }

  /** Rows and state once the users are known: only the changed records count. */
  ghost predicate ChaptersApplied(was: Tables, now: Tables, records: seq<ChapterRecord>,
                                  prev: ChapterStates, next: ChapterStates, inserted: nat) {
    && Known(now.users, records)
    && var changed := ChangedChapters(now.users, prev, records);
       && inserted == |changed|
       && next == ChapterStatesOf(now.users, prev, changed)
       && if changed == [] then now.stamps == was.stamps && now.rows == was.rows
          else ChaptersCommitted(was, now, TimesOf(Bases(records)), changed)
  }

  /** The users of the records are stored and their keys remembered. */
  ghost predicate UsersFed(publicId: int -> Option<string>, was: Users, now: Users, records: seq<ChapterRecord>, memo: Memo, fed: Memo) {
    var dims := DimsOf(publicId, Bases(records));
    U.Upserted(was, now, dims) && fed == Fed(memo, now, dims.Keys)
  }

  /** What the World Bloom batch insert does when it succeeds with `inserted` rows. */
  ghost predicate ChaptersInserted(publicId: int -> Option<string>, was: Tables, now: Tables, records: seq<ChapterRecord>,
                                   prev: ChapterStates, next: ChapterStates, memo: Memo, fed: Memo, inserted: nat) {
    && Sound(now)
    && UsersFed(publicId, was.users, now.users, records, memo, fed)
    && ChaptersApplied(was, now, records, prev, next, inserted)
  }

  /** What it does when it fails: no row, no state; the memo may have been fed. */
  ghost predicate ChaptersFailed(publicId: int -> Option<string>, was: Tables, now: Tables, records: seq<ChapterRecord>,
                                 prev: ChapterStates, next: ChapterStates, memo: Memo, fed: Memo) {
    && Sound(now) && now.stamps == was.stamps && now.rows == was.rows && next == prev
    && if fed == memo then OnlyUsers(publicId, was, now, Bases(records))
       else UsersFed(publicId, was.users, now.users, records, memo, fed)
  }
}
