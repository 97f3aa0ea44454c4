/** The tables of one event behind the tracker's writes.  Every statement may
    fail; a transaction that fails leaves nothing behind. */
module Database {
  import opened RankingTables
  import opened RankDiff
  import opened Storage
  import U = UserTable

  class Database {
    const users: U.UserTable
    const publicId: int -> Option<string>
    var stamps: Stamps
    var nextTimeId: nat              // auto-increment; may skip values
    var rows: RankingRows

    ghost predicate Valid()
      reads this, users
    {
      users.Valid() && UniqueStamps(stamps) && forall id | id in stamps :: id < nextTimeId
    }

    ghost function Contents(): (t: Tables)
      reads this, users
      ensures Valid() ==> Sound(t)
    {
      Tables(users.rows, stamps, rows)
    }

    constructor (publicId: int -> Option<string>)
      ensures Valid() && fresh(users) && this.publicId == publicId
      ensures Contents() == Tables(map[], map[], RankingRows(map[], map[]))
    {
      users := new U.UserTable();
      this.publicId := publicId;
      stamps := map[];
      nextTimeId := 1;
      rows := RankingRows(map[], map[]);
    }

    // ------------------------------------------------------------ time table

    method FindStamp(table: Stamps, ts: int) returns (found: Option<nat>)
      ensures found.Some? ==> found.value in table && table[found.value] == ts
      ensures found.None? ==> !HasStamp(table, ts)
    {
      if HasStamp(table, ts) {
        var id :| id in table && table[id] == ts;
        return Some(id);
      }
      return None;
    }

    /** Runs inside a transaction: the time table as that transaction sees it. */
    method GetOrCreateTimeIds(timestamps: set<int>) returns (ok: bool, table: Stamps, next: nat, out: map<int, nat>)
      requires Valid()
      ensures ok ==> UniqueStamps(table) && StampsGrow(stamps, table, timestamps) && nextTimeId <= next
      ensures ok ==> forall id | id in table :: id < next
      ensures ok ==> forall ts | ts in timestamps :: ts in out && out[ts] in table && table[out[ts]] == ts
    {
      table, next, out, ok := stamps, nextTimeId, map[], true;
      var todo := U.Enumerate(timestamps);
      ghost var handled: set<int> := {};
      for i := 0 to |todo|
        invariant UniqueStamps(table) && nextTimeId <= next && forall id | id in table :: id < next
        invariant StampsGrow(stamps, table, handled)
        invariant forall ts :: ts in handled <==> ts in todo[..i]
        invariant forall ts | ts in handled :: ts in out && out[ts] in table && table[out[ts]] == ts
      {
        assert todo[..i + 1] == todo[..i] + [todo[i]];
        var failed: bool := *;
        if failed { return false, table, next, out; }
        var ts := todo[i];
        var id;
        id, table, next := GetOrCreateOne(table, next, ts, handled);
        out := out[ts := id];
        handled := handled + {ts};
      }
      assert todo[..|todo|] == todo;
      assert forall ts :: ts in handled <==> ts in todo;
      assert forall ts :: ts in todo <==> ts in timestamps;
    }

    method GetOrCreateOne(before: Stamps, free: nat, ts: int, ghost handled: set<int>)
      returns (id: nat, table: Stamps, next: nat)
      requires UniqueStamps(before) && StampsGrow(stamps, before, handled)
      requires forall other | other in before :: other < free
      ensures UniqueStamps(table) && StampsGrow(stamps, table, handled + {ts})
      ensures free <= next && forall other | other in table :: other < next
      ensures id in table && table[id] == ts && forall other | other in before :: other in table && table[other] == before[other]
    {
      table, next := before, free;
      var found := FindStamp(before, ts);
      if found.Some? {
        id := found.value;
      } else {
        id :| id >= next;
        table := table[id := ts];
        next := id + 1;
      }
      StampStays(stamps, before, table, handled, id, ts);
    }

    /** A heartbeat inserts its timestamp unless it is already there. */
    method WriteHeartbeat(timestamp: int) returns (ok: bool)
      requires Valid()
      modifies this`stamps, this`nextTimeId
      ensures Valid()
      ensures if ok then StampsGrow(old(stamps), stamps, {timestamp}) else stamps == old(stamps)
    {
      var failed: bool := *;
      if failed { return false; }
      var found := FindStamp(stamps, timestamp);
      if found.None? {
        var id :| id >= nextTimeId;
        stamps := stamps[id := timestamp];
        nextTimeId := id + 1;
        assert id in stamps && stamps[id] == timestamp;
      }
      ok := true;
    }

    // ---------------------------------------------------------- transactions

    method CollectDims(records: seq<Record>) returns (timestamps: set<int>, dims: map<int, U.UserDim>)
      ensures timestamps == TimesOf(records) && dims == DimsOf(publicId, records)
    {
      timestamps, dims := {}, map[];
      for i := 0 to |records|
        invariant timestamps == TimesOf(records[..i]) && dims == DimsOf(publicId, records[..i])
      {
        assert records[..i + 1] == records[..i] + [records[i]];
        assert records[..i + 1][..i] == records[..i];
        timestamps := timestamps + {records[i].timestamp};
        if records[i].userId !in dims { dims := dims[records[i].userId := DimOf(publicId, records[i])]; }
      }
      assert records[..|records|] == records;
    }

    method InsertEventRankings(records: seq<Record>) returns (ok: bool)
      requires Valid() && records != []
      modifies this, users
      ensures Valid()
      ensures ok ==> EventCommitted(publicId, old(Contents()), Contents(), records)
      ensures !ok ==> OnlyUsers(publicId, old(Contents()), Contents(), records)
    {
      var timestamps, dims := CollectDims(records);
      var lookup := users.GetOrCreateKeys(dims);
      if lookup.Err? { return false; }
      ok := RunEventTransaction(records, timestamps, lookup.value);
    }

    method RunEventTransaction(records: seq<Record>, timestamps: set<int>, keys: map<int, nat>) returns (ok: bool)
      requires Valid() && timestamps == TimesOf(records)
      requires forall k | 0 <= k < |records| ::
                 && records[k].userId in users.rows && records[k].userId in keys
                 && keys[records[k].userId] == users.rows[records[k].userId].key
      modifies this
      ensures Valid()
      ensures !ok ==> stamps == old(stamps) && rows == old(rows)
      ensures ok ==> StampsGrow(old(stamps), stamps, timestamps) && Resolved(stamps, users.rows, records)
      ensures ok ==> rows == old(rows).(event := InsertAll(old(rows).event, EventRows(stamps, users.rows, records)))
    {
      var began, table, next, times := GetOrCreateTimeIds(timestamps);
      if !began { return false; }
      ResolveAll(table, users.rows, records, times);
      var event := InsertRows(table, records, times, keys);
      var failed: bool := *;
      if failed { return false; }
      stamps, nextTimeId, rows := table, next, rows.(event := event);
      ok := true;
    }

    // ----------------------------------------------------------- world bloom

    method InsertWorldBloomRankings(records: seq<ChapterRecord>, prev: ChapterStates, memo: Memo)
      returns (r: U.Result<nat>, next: ChapterStates, fed: Memo)
      requires Valid()
      modifies this, users
      ensures Valid()
      ensures r.Ok? ==> ChaptersInserted(publicId, old(Contents()), Contents(), records, prev, next, memo, fed, r.value)
      ensures r.Err? ==> ChaptersFailed(publicId, old(Contents()), Contents(), records, prev, next, memo, fed)
    {
      next, fed := prev, memo;
      if records == [] {
        U.NothingToUpsert(users.rows);
        return U.Ok(0), next, fed;
      }
      var known, timestamps, keys;
      known, timestamps, keys, fed := KnowUsers(records, memo);
      if !known { return U.Err, next, fed; }
      ghost var mid := Contents();
      r, next := DiffAndInsert(records, prev, timestamps, keys);
      if r.Ok? { AppliedIgnoresUsers(old(Contents()), mid, Contents(), records, prev, next, r.value); }
    }

    /** Resolves the users of the records and feeds the memo with their keys. */
    method KnowUsers(records: seq<ChapterRecord>, memo: Memo)
      returns (ok: bool, timestamps: set<int>, keys: map<int, nat>, fed: Memo)
      requires Valid()
      modifies users
      ensures Valid()
      ensures timestamps == TimesOf(Bases(records))
      ensures !ok ==> fed == memo && OnlyUsers(publicId, old(Contents()), Contents(), Bases(records))
      ensures ok ==> KeysKnown(users.rows, records, keys)
      ensures ok ==> UsersFed(publicId, old(users.rows), users.rows, records, memo, fed)
    {
      var dims;
      timestamps, dims := CollectDims(Bases(records));
      var lookup := users.GetOrCreateKeys(dims);
      if lookup.Err? { return false, timestamps, map[], memo; }
      keys := lookup.value;
      ResolveUsers(publicId, users.rows, records, keys);
      fed := FeedMemo(memo, keys);
      FedIs(memo, users.rows, dims, keys);
      ok := true;
    }

    /** Diffs against the state outside the transaction; a no-change call opens none. */
    method DiffAndInsert(records: seq<ChapterRecord>, prev: ChapterStates, timestamps: set<int>, keys: map<int, nat>)
      returns (r: U.Result<nat>, next: ChapterStates)
      requires Valid() && KeysKnown(users.rows, records, keys) && timestamps == TimesOf(Bases(records))
      modifies this
      ensures Valid()
      ensures r.Ok? ==> ChaptersApplied(old(Contents()), Contents(), records, prev, next, r.value)
      ensures r.Err? ==> stamps == old(stamps) && rows == old(rows) && next == prev
    {
      next := prev;
      var changed := DiffChapters(records, prev, keys);
      if changed == [] { return U.Ok(0), next; }
      ChangedKnown(users.rows, prev, records, keys);
      var committed := RunChapterTransaction(changed, timestamps, keys);
      if !committed { return U.Err, next; }
      next := ExtendStates(prev, changed, keys);
      r := U.Ok(|changed|);
    }

    method FeedMemo(memo: Memo, lookup: Memo) returns (fed: Memo)
      ensures fed == memo + lookup
    {
      fed := memo;
      var ids := U.Enumerate(lookup.Keys);
      for i := 0 to |ids|
        invariant fed == memo + Restrict(lookup, ids[..i])
      {
        assert ids[i] in ids;
        RestrictStep(memo, lookup, ids, i);
        fed := fed[ids[i] := lookup[ids[i]]];
      }
      assert Restrict(lookup, ids[..|ids|]) == lookup by {
        assert ids[..|ids|] == ids;
        assert forall u :: u in lookup ==> u in lookup.Keys;
      }
    }

    method DiffChapters(records: seq<ChapterRecord>, prev: ChapterStates, keys: map<int, nat>) returns (changed: seq<ChapterRecord>)
      requires KeysKnown(users.rows, records, keys)
      ensures changed == ChangedChapters(users.rows, prev, records)
    {
      changed := [];
      for i := 0 to |records|
        invariant changed == ChangedChapters(users.rows, prev, records[..i])
      {
        assert records[..i + 1][..i] == records[..i];
        var r := records[i];
        var key := WorldBloomKey(keys[r.base.userId], r.characterId);
        if key !in prev || prev[key].score != r.base.score || prev[key].rank != r.base.rank {
          changed := changed + [r];
        }
      }
      assert records[..|records|] == records;
    }

    method ExtendStates(prev: ChapterStates, changed: seq<ChapterRecord>, keys: map<int, nat>) returns (next: ChapterStates)
      requires KeysKnown(users.rows, changed, keys)
      ensures next == ChapterStatesOf(users.rows, prev, changed)
    {
      next := prev;
      for i := 0 to |changed|
        invariant next == ChapterStatesOf(users.rows, prev, changed[..i])
      {
        assert changed[..i + 1][..i] == changed[..i];
        var r := changed[i];
        next := next[WorldBloomKey(keys[r.base.userId], r.characterId) := PlayerState(r.base.score, r.base.rank)];
      }
      assert changed[..|changed|] == changed;
    }

    method RunChapterTransaction(changed: seq<ChapterRecord>, timestamps: set<int>, keys: map<int, nat>) returns (ok: bool)
      requires Valid() && KeysKnown(users.rows, changed, keys)
      requires forall k | 0 <= k < |changed| :: changed[k].base.timestamp in timestamps
      modifies this
      ensures Valid()
      ensures !ok ==> stamps == old(stamps) && rows == old(rows)
      ensures ok ==> ChaptersCommitted(old(Contents()), Contents(), timestamps, changed)
    {
      var began, table, next, times := GetOrCreateTimeIds(timestamps);
      if !began { return false; }
      ResolveChapters(table, users.rows, changed, times);
      var bloom := InsertChapterRows(table, changed, times, keys);
      var failed: bool := *;
      if failed { return false; }
      stamps, nextTimeId, rows := table, next, rows.(worldBloom := bloom);
      ok := true;
    }

    /** INSERT .. ON CONFLICT (time_id, user_id_key, character_id) DO NOTHING. */
    method InsertChapterRows(table: Stamps, changed: seq<ChapterRecord>, times: map<int, nat>, keys: map<int, nat>)
      returns (bloom: map<ChapterRowKey, Standing>)
      requires Resolved(table, users.rows, Bases(changed)) && KeysKnown(users.rows, changed, keys)
      requires forall k | 0 <= k < |changed| ::
                 HasStamp(table, changed[k].base.timestamp) && changed[k].base.timestamp in times
                 && times[changed[k].base.timestamp] == IdAt(table, changed[k].base.timestamp)
      ensures bloom == InsertAll(rows.worldBloom, ChapterRows(table, users.rows, changed))
    {
      bloom := rows.worldBloom;
      ghost var all := ChapterRows(table, users.rows, changed);
      for i := 0 to |changed|
        invariant bloom == InsertAll(rows.worldBloom, all[..i])
      {
        var r := changed[i];
        var key := ChapterRowKey(times[r.base.timestamp], keys[r.base.userId], r.characterId);
        InsertOne(rows.worldBloom, all, i);
        assert all[i] == ChapterRow(table, users.rows, changed[i]);
        if key !in bloom { bloom := bloom[key := Standing(r.base.rank, r.base.score)]; }
      }
      assert all[..|changed|] == all;
    }

    /** INSERT .. ON CONFLICT (time_id, user_id_key) DO NOTHING. */
    method InsertRows(table: Stamps, records: seq<Record>, times: map<int, nat>, keys: map<int, nat>)
      returns (event: map<RowKey, Standing>)
      requires UniqueStamps(table) && Resolved(table, users.rows, records)
      requires forall k | 0 <= k < |records| :: records[k].timestamp in times && times[records[k].timestamp] == IdAt(table, records[k].timestamp)
      requires forall k | 0 <= k < |records| :: records[k].userId in keys && keys[records[k].userId] == users.rows[records[k].userId].key
      ensures event == InsertAll(rows.event, EventRows(table, users.rows, records))
    {
      event := rows.event;
      ghost var all := EventRows(table, users.rows, records);
      for i := 0 to |records|
        invariant event == InsertAll(rows.event, all[..i])
      {
        var key := RowKey(times[records[i].timestamp], keys[records[i].userId]);
        InsertOne(rows.event, all, i);
        assert all[i] == EventRow(table, users.rows, records[i]);
        if key !in event { event := event[key := Standing(records[i].rank, records[i].score)]; }
      }
      assert all[..|records|] == all;
    }
  }

  lemma StampStays(was: Stamps, before: Stamps, table: Stamps, times: set<int>, id: nat, ts: int)
    requires StampsGrow(was, before, times) && id in table && table[id] == ts
    requires table == before || (table == before[id := ts] && forall other | other in before :: other < id)
    ensures StampsGrow(was, table, times + {ts})
  {
    forall t | t in times + {ts} ensures HasStamp(table, t) {
      if t != ts { assert IdAt(before, t) in table; }
    }
  }

  lemma InsertOne<K, V>(table: map<K, V>, rows: seq<(K, V)>, i: nat)
    requires i < |rows|
    ensures var t := InsertAll(table, rows[..i]);
            InsertAll(table, rows[..i + 1]) == if rows[i].0 in t then t else t[rows[i].0 := rows[i].1]
  {
    assert rows[..i + 1][..i] == rows[..i];
  }

  ghost predicate KeysKnown(known: Users, records: seq<ChapterRecord>, keys: map<int, nat>) {
    forall k | 0 <= k < |records| ::
      && records[k].base.userId in known && records[k].base.userId in keys
      && keys[records[k].base.userId] == known[records[k].base.userId].key
  }

  lemma AppliedIgnoresUsers(was: Tables, known: Tables, now: Tables, records: seq<ChapterRecord>,
                            prev: ChapterStates, next: ChapterStates, inserted: nat)
    requires was.stamps == known.stamps && was.rows == known.rows
    requires ChaptersApplied(known, now, records, prev, next, inserted)
    ensures ChaptersApplied(was, now, records, prev, next, inserted)
  {
  }

  function Restrict(m: Memo, ids: seq<int>): Memo {
    map u | u in ids && u in m :: m[u]
  }

  lemma RestrictStep(memo: Memo, m: Memo, ids: seq<int>, i: nat)
    requires i < |ids| && ids[i] in m
    ensures memo + Restrict(m, ids[..i + 1]) == (memo + Restrict(m, ids[..i]))[ids[i] := m[ids[i]]]
  {
    assert ids[..i + 1] == ids[..i] + [ids[i]];
  }

  lemma FedIs<T>(memo: Memo, known: Users, dims: map<int, T>, keys: Memo)
    requires forall id :: id in keys <==> id in dims
    requires forall id | id in dims :: id in known && keys[id] == known[id].key
    ensures memo + keys == Fed(memo, known, dims.Keys)
  {
    var fed: Memo := map id | id in dims.Keys :: known[id].key;
    assert forall id :: id in fed <==> id in dims;
    assert forall id :: id in fed <==> id in keys;
    assert forall id | id in fed :: fed[id] == keys[id];
    assert fed == keys;
  }

  lemma ChangedAmong(known: Users, prev: ChapterStates, records: seq<ChapterRecord>)
    requires Known(known, records)
    ensures forall r | r in ChangedChapters(known, prev, records) :: r in records
  {
  }

  lemma ResolveUsers(publicId: int -> Option<string>, known: Users, records: seq<ChapterRecord>, keys: map<int, nat>)
    requires forall id | id in DimsOf(publicId, Bases(records)) :: id in known && id in keys && keys[id] == known[id].key
    ensures KeysKnown(known, records, keys)
  {
    forall k | 0 <= k < |records| ensures records[k].base.userId in DimsOf(publicId, Bases(records)) {
      assert Bases(records)[k].userId == records[k].base.userId;
    }
  }

  lemma ChangedKnown(known: Users, prev: ChapterStates, records: seq<ChapterRecord>, keys: map<int, nat>)
    requires KeysKnown(known, records, keys)
    ensures var changed := ChangedChapters(known, prev, records);
            && KeysKnown(known, changed, keys)
            && forall k | 0 <= k < |changed| :: changed[k].base.timestamp in TimesOf(Bases(records))
  {
    var changed := ChangedChapters(known, prev, records);
    ChangedAmong(known, prev, records);
    forall k | 0 <= k < |changed|
      ensures exists j :: 0 <= j < |records| && changed[k] == records[j] && Bases(records)[j] == changed[k].base
    {
      assert changed[k] in records;
      var j :| 0 <= j < |records| && changed[k] == records[j];
      assert Bases(records)[j] == changed[k].base;
    }
  }

  lemma ResolveChapters(table: Stamps, known: Users, changed: seq<ChapterRecord>, times: map<int, nat>)
    requires UniqueStamps(table) && Known(known, changed)
    requires forall k | 0 <= k < |changed| ::
               changed[k].base.timestamp in times && times[changed[k].base.timestamp] in table
               && table[times[changed[k].base.timestamp]] == changed[k].base.timestamp
    ensures Resolved(table, known, Bases(changed))
    ensures forall k | 0 <= k < |changed| ::
              HasStamp(table, changed[k].base.timestamp) && times[changed[k].base.timestamp] == IdAt(table, changed[k].base.timestamp)
  {
    forall k | 0 <= k < |changed| ensures HasStamp(table, Bases(changed)[k].timestamp) && HasStamp(table, changed[k].base.timestamp)
    {
      assert times[changed[k].base.timestamp] in table;
    }
  }

  lemma ResolveAll(table: Stamps, known: Users, records: seq<Record>, times: map<int, nat>)
    requires UniqueStamps(table)
    requires forall ts | ts in TimesOf(records) :: ts in times && times[ts] in table && table[times[ts]] == ts
    requires forall k | 0 <= k < |records| :: records[k].userId in known
    ensures Resolved(table, known, records)
    ensures forall k | 0 <= k < |records| :: records[k].timestamp in times && times[records[k].timestamp] == IdAt(table, records[k].timestamp)
  {
    forall k | 0 <= k < |records|
      ensures HasStamp(table, records[k].timestamp) && records[k].timestamp in times
      ensures times[records[k].timestamp] == IdAt(table, records[k].timestamp)
    {
      assert records[k] in records;
      assert records[k].timestamp in TimesOf(records);
    }
  }
}
