/** One tracker instance: fetch, diff, persist.  Every database statement and
    every plain Redis write may fail; the epoch commands succeed. */
module Tracker {
  import opened RankingTables
  import opened UpdateBracket
  import opened RankDiff
  import opened Storage
  import opened WorldBloomRows
  import U = UserTable
  import D = Database

  type PublicId = int -> Option<string>

  /** Upstream's two responses of one fetch. */
  datatype Payload = Payload(
    top100: seq<Player>, border: seq<Player>, borderHash: int,
    chapters: seq<Chapter>, chapterBorders: seq<ChapterBorder>)

  datatype HandledData = HandledData(
    recordTime: int, rankings: seq<Player>, chapters: ChapterRankings, borderCache: Option<int>)

  datatype Outcome = Persisted(changed: bool) | MainFailed | ChaptersFailed | HeartbeatFailed

  // ------------------------------------------------------- phases of a persist

  function MainRows(data: HandledData, onlyWorldBloom: bool, prev: RankMap): seq<Player> {
    if onlyWorldBloom then [] else ChangedRows(data.rankings, prev)
  }

  /** The main ranking's records landed, or there were none; the state follows. */
  ghost predicate MainLanded(id: PublicId, data: HandledData, onlyWorldBloom: bool, records: seq<Record>,
                             was: Tables, now: Tables, prev: RankMap, next: RankMap) {
    var rows := MainRows(data, onlyWorldBloom, prev);
    && Lists(records, FirstNamed(data.recordTime, rows))
    && next == prev + StatesOf(rows)
    && if records == [] then now == was else EventCommitted(id, was, now, records)
  }

  /** The World Bloom part went through, or there was nothing for it. */
  ghost predicate ChaptersLanded(id: PublicId, rows: seq<ChapterRecord>, was: Tables, now: Tables,
                                 prev: ChapterStates, next: ChapterStates, memo: Memo, fed: Memo, inserted: nat) {
    if rows == [] then now == was && next == prev && fed == memo && inserted == 0
    else ChaptersInserted(id, was, now, rows, prev, next, memo, fed, inserted)
  }

  /** What one persist went through: the records it built, the chapter rows in the
      order `order` of the chapters, the tables after each part, the number of
      chapter rows sent, and the rows each committed transaction left. */
  datatype PersistLog = PersistLog(
    records: seq<Record>, rows: seq<ChapterRecord>, order: seq<int>,
    afterMain: Tables, afterChapters: Tables, inserted: nat, commits: seq<RankingRows>)

  /** The tracker's state: the tables it writes and what it remembers of them. */
  datatype View = View(tables: Tables, ranks: RankMap, chapters: ChapterStates, memo: Memo, borderHash: Option<int>)

  /** What one persist does to the tables and the remembered states, exit by exit. */
  ghost predicate Ticked(id: PublicId, data: HandledData, onlyWorldBloom: bool, idle: bool, now: int,
                         outcome: Outcome, log: PersistLog, s: View, t: View) {
    && (outcome.MainFailed? ==>
          log.records != [] && OnlyUsers(id, s.tables, t.tables, log.records) && t == s.(tables := t.tables))
    && (!outcome.MainFailed? ==> MainLanded(id, data, onlyWorldBloom, log.records, s.tables, log.afterMain, s.ranks, t.ranks))
    && log.rows == RowsOf(data.recordTime, log.order, data.chapters, true, s.memo, s.chapters)
    && (forall c :: c in log.order <==> c in data.chapters)
    && (outcome.ChaptersFailed? ==>
          Storage.ChaptersFailed(id, log.afterMain, t.tables, log.rows, s.chapters, t.chapters, s.memo, t.memo))
    && (outcome.Persisted? || outcome.HeartbeatFailed? ==>
          ChaptersLanded(id, log.rows, log.afterMain, log.afterChapters, s.chapters, t.chapters, s.memo, t.memo, log.inserted))
    && (outcome.HeartbeatFailed? ==> t.tables == log.afterChapters)
    && (outcome.Persisted? ==> (outcome.changed <==> log.records != [] || log.inserted > 0))
    && (outcome.Persisted? ==>
          if !outcome.changed && idle then
            && t.tables == log.afterChapters.(stamps := t.tables.stamps)
            && StampsGrow(log.afterChapters.stamps, t.tables.stamps, {now})
          else t.tables == log.afterChapters)
    && (t.borderHash != s.borderHash ==> outcome.Persisted? && !onlyWorldBloom && t.borderHash == data.borderCache)
  }

  /** The payload as handed to the persist: merged with its border, or, if the stored
      hash says that the border is the known one, without it. */
  ghost predicate Handled(p: Payload, recordTime: int, hash: Option<int>, data: HandledData) {
    && data.recordTime == recordTime
    && (data.borderCache.None? ==> hash == Some(p.borderHash) && data.rankings == p.top100)
    && (data.borderCache.Some? ==> data.borderCache == Some(p.borderHash) && data.rankings == Merged(p.top100, p.border))
  }

  /** At most a heartbeat at `now` was added. */
  ghost predicate Marked(s: View, t: View, now: int) {
    && t == s.(tables := s.tables.(stamps := t.tables.stamps))
    && (t == s || StampsGrow(s.tables.stamps, t.tables.stamps, {now}))
  }

  /** The course of a post-end refresh that got as far as persisting. */
  datatype RefreshLog = RefreshLog(data: HandledData, outcome: Outcome, persisted: PersistLog, between: View, dims: map<int, U.UserDim>)

  function Commits(rows: seq<RankingRows>): (r: seq<Command>)
    ensures |r| == |rows| && forall i | 0 <= i < |r| :: r[i] == Commit(rows[i])
  {
    seq(|rows|, i requires 0 <= i < |rows| => Commit(rows[i]))
  }

  /** The commands of one persist whose transactions left `commits`. */
  function Bracket(willWrite: bool, commits: seq<RankingRows>): seq<Command> {
    if commits == [] then (if willWrite then [SetDirty, ClearDirty] else [])
    else [SetDirty] + Commits(commits) + [Bump, ClearDirty]
  }

  lemma FailedMainKeepsRows(id: PublicId, was: Tables, now: Tables, records: seq<Record>)
    requires OnlyUsers(id, was, now, records)
    ensures now.rows == was.rows
  {
  }

  lemma NothingInserted(id: PublicId, was: Tables, now: Tables, rows: seq<ChapterRecord>,
                        prev: ChapterStates, next: ChapterStates, memo: Memo, fed: Memo)
    requires ChaptersInserted(id, was, now, rows, prev, next, memo, fed, 0)
    ensures now.rows == was.rows
  {
  }

  lemma FailedInsertKeepsRows(id: PublicId, was: Tables, now: Tables, rows: seq<ChapterRecord>,
                              prev: ChapterStates, next: ChapterStates, memo: Memo, fed: Memo)
    requires Storage.ChaptersFailed(id, was, now, rows, prev, next, memo, fed)
    ensures now.rows == was.rows
  {
  }

  lemma BracketParts(log: seq<Command>, willWrite: bool, commits: seq<RankingRows>, landed: seq<RankingRows>)
    ensures log == log + Bracket(false, []) && log + Commits([]) + Commits([]) == log + Bracket(false, [])
    ensures log + [SetDirty] + [ClearDirty] == log + Bracket(true, [])
    ensures log + [SetDirty] + Commits([]) + [ClearDirty] == log + Bracket(true, [])
    ensures commits == [] && landed == [] ==> commits + landed == []
    ensures commits + landed != [] ==>
              log + [SetDirty] + Commits(commits) + Commits(landed) + [Bump, ClearDirty] == log + Bracket(willWrite, commits + landed)
  {
    assert Commits(commits) + Commits(landed) == Commits(commits + landed);
  }

  class ApiCache {
    var epoch: nat
    var dirty: bool
    ghost var issued: seq<Command>

    constructor ()
      ensures epoch == 0 && !dirty && issued == []
    {
      epoch, dirty, issued := 0, false, [];
    }

    method Begin()
      modifies this
      ensures dirty && epoch == old(epoch) && issued == old(issued) + [SetDirty]
    {
      dirty := true;
      issued := issued + [SetDirty];
    }

    /** A ranking transaction landed: a command of the log, not of Redis. */
    ghost method Landed(rows: RankingRows)
      modifies this`issued
      ensures issued == old(issued) + [Commit(rows)]
    {
      issued := issued + [Commit(rows)];
    }

    method Finish()
      modifies this
      ensures !dirty && epoch == old(epoch) + 1 && issued == old(issued) + [Bump, ClearDirty]
    {
      epoch := epoch + 1;
      issued := issued + [Bump];
      dirty := false;
      issued := issued + [ClearDirty];
    }

    method Abort()
      modifies this
      ensures !dirty && epoch == old(epoch) && issued == old(issued) + [ClearDirty]
    {
      dirty := false;
      issued := issued + [ClearDirty];
    }
  }

  class EventTracker {
    const db: D.Database
    const cache: ApiCache
    const worldBloom: bool
    var isEventEnded: bool
    var statuses: map<int, EventStatus>
    var chapterEnded: map<int, bool>
    var prevRankState: RankMap
    var prevWorldBloom: ChapterStates
    var wlUserKeys: Memo
    var savedRankState: RankMap          // the copy in Redis
    var borderHash: Option<int>          // the stored border hash, in Redis
    var lastPostEndRefresh: Option<int>

    ghost predicate Valid()
      reads db, db.users
    {
      db.Valid()
    }

    constructor (db: D.Database, cache: ApiCache, worldBloom: bool, ended: bool, statuses: map<int, EventStatus>)
      requires db.Valid()
      ensures Valid() && this.db == db && this.cache == cache
      ensures isEventEnded == ended && this.statuses == statuses
      ensures forall c | c in chapterEnded :: !chapterEnded[c]
      ensures prevRankState == map[] && prevWorldBloom == map[] && wlUserKeys == map[]
    {
      this.db, this.cache, this.worldBloom := db, cache, worldBloom;
      isEventEnded, this.statuses := ended, statuses;
      chapterEnded := if worldBloom then map c | c in statuses :: false else map[];
      prevRankState, prevWorldBloom, wlUserKeys := map[], map[], map[];
      savedRankState, borderHash, lastPostEndRefresh := map[], None, None;
    }

    ghost function State(): (s: View)
      reads this, db, db.users
      ensures s.tables == db.Contents() && s.ranks == prevRankState && s.chapters == prevWorldBloom && s.memo == wlUserKeys
      ensures s.borderHash == borderHash
    {
      View(db.Contents(), prevRankState, prevWorldBloom, wlUserKeys, borderHash)
    }

    /** The main ranking: diff, insert, and only then advance the state. */
    method PersistMain(data: HandledData, onlyWorldBloom: bool, records: seq<Record>, changedRanks: RankMap)
      returns (ok: bool, ghost commits: seq<RankingRows>)
      requires Valid()
      requires Lists(records, FirstNamed(data.recordTime, MainRows(data, onlyWorldBloom, prevRankState)))
      requires changedRanks == StatesOf(MainRows(data, onlyWorldBloom, prevRankState))
      modifies this`prevRankState, db, db.users, cache
      ensures Valid()
      ensures ok ==> MainLanded(db.publicId, data, onlyWorldBloom, records, old(db.Contents()), db.Contents(), old(prevRankState), prevRankState)
      ensures ok ==> cache.dirty == old(cache.dirty) && cache.epoch == old(cache.epoch)
      ensures ok ==> commits == (if records == [] then [] else [db.rows])
      ensures commits == [] ==> db.rows == old(db.rows)
      ensures ok ==> cache.issued == old(cache.issued) + Commits(commits)
      ensures !ok ==> records != [] && OnlyUsers(db.publicId, old(db.Contents()), db.Contents(), records)
      ensures !ok ==> prevRankState == old(prevRankState) && commits == []
      ensures !ok ==> !cache.dirty && cache.epoch == old(cache.epoch) && cache.issued == old(cache.issued) + [ClearDirty]
    {
      hide EventCommitted, OnlyUsers, Lists;
      commits := [];
      if records != [] {
        ok := db.InsertEventRankings(records);
        if !ok {
          assert db.rows == old(db.rows) by { FailedMainKeepsRows(db.publicId, old(db.Contents()), db.Contents(), records); }
          cache.Abort();
          return false, [];
        }
        cache.Landed(db.rows);
        commits := [db.rows];
      }
      prevRankState := prevRankState + changedRanks;
      ok := true;
    }

    /** The World Bloom part, with the exits of the bracket it is responsible for. */
    method PersistChapters(rows: seq<ChapterRecord>, batchCalled: bool)
      returns (ok: bool, inserted: nat, ghost commits: seq<RankingRows>)
      requires Valid()
      modifies this`prevWorldBloom, this`wlUserKeys, db, db.users, cache
      ensures Valid()
      ensures ok ==> ChaptersLanded(db.publicId, rows, old(db.Contents()), db.Contents(), old(prevWorldBloom), prevWorldBloom,
                                    old(wlUserKeys), wlUserKeys, inserted)
      ensures !ok ==> Storage.ChaptersFailed(db.publicId, old(db.Contents()), db.Contents(), rows, old(prevWorldBloom), prevWorldBloom,
                                             old(wlUserKeys), wlUserKeys)
      ensures commits == (if ok && inserted > 0 then [db.rows] else []) && (rows == [] ==> inserted == 0)
      ensures commits == [] ==> db.rows == old(db.rows)
      ensures ok && (batchCalled || inserted > 0 || rows == []) ==>
                cache.dirty == old(cache.dirty) && cache.epoch == old(cache.epoch) && cache.issued == old(cache.issued) + Commits(commits)
      ensures ok && !batchCalled && inserted == 0 && rows != [] ==>
                !cache.dirty && cache.epoch == old(cache.epoch) && cache.issued == old(cache.issued) + [ClearDirty]
      ensures !ok ==> rows != [] && !cache.dirty
      ensures !ok && batchCalled ==> cache.epoch == old(cache.epoch) + 1 && cache.issued == old(cache.issued) + [Bump, ClearDirty]
      ensures !ok && !batchCalled ==> cache.epoch == old(cache.epoch) && cache.issued == old(cache.issued) + [ClearDirty]
    {
      hide ChaptersInserted, Storage.ChaptersFailed;
      commits, inserted, ok := [], 0, true;
      if rows == [] { return; }
      var r;
      ghost var was := db.Contents();
      r, prevWorldBloom, wlUserKeys := db.InsertWorldBloomRankings(rows, prevWorldBloom, wlUserKeys);
      if r.Ok? {
        if r.value == 0 { NothingInserted(db.publicId, was, db.Contents(), rows, old(prevWorldBloom), prevWorldBloom, old(wlUserKeys), wlUserKeys); }
        inserted := r.value;
        if inserted > 0 {
          cache.Landed(db.rows);
          commits := [db.rows];
        } else if !batchCalled {
          cache.Abort();
        }
      } else {
        FailedInsertKeepsRows(db.publicId, was, db.Contents(), rows, old(prevWorldBloom), prevWorldBloom, old(wlUserKeys), wlUserKeys);
        ok := false;
        if batchCalled { cache.Finish(); } else { cache.Abort(); }
      }
    }

    method DiffMain(data: HandledData, onlyWorldBloom: bool) returns (changedRanks: RankMap, records: seq<Record>)
      ensures Lists(records, FirstNamed(data.recordTime, MainRows(data, onlyWorldBloom, prevRankState)))
      ensures changedRanks == StatesOf(MainRows(data, onlyWorldBloom, prevRankState))
    {
      changedRanks, records := map[], [];
      if !onlyWorldBloom && data.rankings != [] {
        var idx;
        idx, changedRanks := DiffRankBased(data.rankings, prevRankState);
        records := BuildEventRecords(data.recordTime, Select(data.rankings, idx));
      }
    }

    /** The part of a persist that writes ranking rows, up to the decision whether
        there is anything to publish. */
    method WriteRows(data: HandledData, onlyWorldBloom: bool)
      returns (failure: Option<Outcome>, changedRanks: RankMap, batchCalled: bool, ghost log: PersistLog)
      requires Valid()
      modifies this`prevRankState, this`prevWorldBloom, this`wlUserKeys, db, db.users, cache
      ensures Valid()
      ensures failure.Some? ==> failure.value.MainFailed? || failure.value.ChaptersFailed?
      ensures changedRanks == StatesOf(MainRows(data, onlyWorldBloom, old(prevRankState)))
      ensures failure == Some(MainFailed) ==>
                && log.records != [] && OnlyUsers(db.publicId, old(db.Contents()), db.Contents(), log.records)
                && prevRankState == old(prevRankState) && prevWorldBloom == old(prevWorldBloom) && wlUserKeys == old(wlUserKeys)
      ensures failure != Some(MainFailed) ==>
                MainLanded(db.publicId, data, onlyWorldBloom, log.records, old(db.Contents()), log.afterMain, old(prevRankState), prevRankState)
      ensures log.rows == RowsOf(data.recordTime, log.order, data.chapters, true, old(wlUserKeys), old(prevWorldBloom))
      ensures forall c :: c in log.order <==> c in data.chapters
      ensures failure == Some(ChaptersFailed) ==>
                Storage.ChaptersFailed(db.publicId, log.afterMain, db.Contents(), log.rows, old(prevWorldBloom), prevWorldBloom,
                                       old(wlUserKeys), wlUserKeys)
      ensures failure.None? ==>
                && db.Contents() == log.afterChapters
                && ChaptersLanded(db.publicId, log.rows, log.afterMain, log.afterChapters, old(prevWorldBloom), prevWorldBloom,
                                  old(wlUserKeys), wlUserKeys, log.inserted)
      ensures failure.Some? || !batchCalled ==>
                && cache.issued == old(cache.issued) + Bracket(log.records != [] || log.rows != [], log.commits)
                && (cache.dirty ==> old(cache.dirty) && cache.issued == old(cache.issued))
                && cache.epoch == old(cache.epoch) + (if log.commits == [] then 0 else 1)
      ensures failure.None? ==> (batchCalled <==> log.commits != []) && (batchCalled <==> log.records != [] || log.inserted > 0)
      ensures failure.None? && batchCalled ==>
                && cache.issued + [Bump, ClearDirty] == old(cache.issued) + Bracket(log.records != [] || log.rows != [], log.commits)
                && cache.epoch == old(cache.epoch)
      ensures |log.commits| <= 2 && db.rows == (if log.commits == [] then old(db.rows) else log.commits[|log.commits| - 1])
    {
      hide *;
      ghost var issued := cache.issued;
      var records;
      changedRanks, records := DiffMain(data, onlyWorldBloom);
      var rows;
      ghost var order;
      rows, order := BuildWorldBloomRows(data.recordTime, data.chapters, true, wlUserKeys, prevWorldBloom);
      var willWrite := records != [] || rows != [];
      if willWrite { cache.Begin(); }
      var ok;
      ghost var commits;
      ok, commits := PersistMain(data, onlyWorldBloom, records, changedRanks);
      ghost var afterMain := db.Contents();
      log := PersistLog(records, rows, order, afterMain, afterMain, 0, commits);
      batchCalled := records != [];
      BracketParts(issued, willWrite, commits, []);
      if !ok { return Some(MainFailed), changedRanks, batchCalled, log; }
      var inserted;
      ghost var landed;
      ok, inserted, landed := PersistChapters(rows, batchCalled);
      log := PersistLog(records, rows, order, afterMain, db.Contents(), inserted, commits + landed);
      BracketParts(issued, willWrite, commits, landed);
      if !ok { return Some(ChaptersFailed), changedRanks, batchCalled, log; }
      batchCalled := batchCalled || inserted > 0;
      failure := None;
    }

    method PersistRankingData(data: HandledData, onlyWorldBloom: bool, writeIdleHeartbeat: bool, now: int)
      returns (result: Outcome, ghost log: PersistLog)
      requires Valid()
      modifies this`prevRankState, this`prevWorldBloom, this`wlUserKeys, this`borderHash, this`savedRankState, db, db.users, cache
      ensures Valid()
      ensures Ticked(db.publicId, data, onlyWorldBloom, writeIdleHeartbeat, now, result, log, old(State()), State())
      // the bracket
      ensures cache.issued == old(cache.issued) + Bracket(log.records != [] || log.rows != [], log.commits)
      ensures cache.dirty ==> old(cache.dirty) && cache.issued == old(cache.issued)
      ensures cache.epoch == old(cache.epoch) + (if log.commits == [] then 0 else 1)
      ensures |log.commits| <= 2 && db.rows == (if log.commits == [] then old(db.rows) else log.commits[|log.commits| - 1])
      ensures result.Persisted? ==> result.changed == (log.commits != [])
      // the copy in Redis moves on only with a completed persist
      ensures savedRankState == old(savedRankState)
           || (result.Persisted? && savedRankState == old(savedRankState) + StatesOf(MainRows(data, onlyWorldBloom, old(prevRankState))))
    {
      hide MainLanded, ChaptersLanded, OnlyUsers, Storage.ChaptersFailed, StampsGrow, Bracket, RowsOf, Valid, D.Database.Valid, D.Database.Contents, Sound;
      var failure, changedRanks, batchCalled;
      failure, changedRanks, batchCalled, log := WriteRows(data, onlyWorldBloom);
      if failure.Some? { return failure.value, log; }
      var beat := CloseTick(batchCalled, writeIdleHeartbeat, now);
      if !beat { return HeartbeatFailed, log; }
      var stored: bool := *;
      if !onlyWorldBloom && data.borderCache.Some? && stored { borderHash := data.borderCache; }
      var saved: bool := *;
      if saved { savedRankState := savedRankState + changedRanks; }
      result := Persisted(batchCalled);
    }

    /** Publishes what was written, or marks a live tick that changed nothing. */
    method CloseTick(batchCalled: bool, writeIdleHeartbeat: bool, now: int) returns (ok: bool)
      requires Valid()
      modifies db`stamps, db`nextTimeId, cache
      ensures Valid()
      ensures batchCalled ==> ok && !cache.dirty && cache.epoch == old(cache.epoch) + 1 && cache.issued == old(cache.issued) + [Bump, ClearDirty]
      ensures !batchCalled ==> cache.dirty == old(cache.dirty) && cache.epoch == old(cache.epoch) && cache.issued == old(cache.issued)
      ensures db.Contents() == old(db.Contents()).(stamps := db.Contents().stamps)
      ensures if ok && !batchCalled && writeIdleHeartbeat then StampsGrow(old(db.Contents()).stamps, db.Contents().stamps, {now})
              else db.Contents() == old(db.Contents())
      ensures db.rows == old(db.rows)
    {
      ok := true;
      if !batchCalled {
        if writeIdleHeartbeat { ok := db.WriteHeartbeat(now); }
      } else {
        cache.Finish();
      }
    }

    // -------------------------------------------------------------------- ticks

    /** Merges the border in unless its hash is the stored one. */
    method HandleRankingData(p: Payload, recordTime: int) returns (data: HandledData)
      ensures Handled(p, recordTime, borderHash, data)
      ensures forall c | c in data.chapters :: worldBloom && Tracks(statuses, chapterEnded, c)
      ensures forall c :: At(data.chapters, c) == if worldBloom then Extracted(p.chapters, p.chapterBorders, statuses, chapterEnded, c) else None
    {
      var chapters: ChapterRankings := map[];
      if worldBloom { chapters := ExtractWorldBloomRankings(p.chapters, p.chapterBorders, statuses, chapterEnded); }
      var answered: bool := *;
      var hit := answered && borderHash == Some(p.borderHash);
      if hit {
        data := HandledData(recordTime, p.top100, chapters, None);
      } else {
        var merged := MergeRankings(p.top100, p.border);
        data := HandledData(recordTime, merged, chapters, Some(p.borderHash));
      }
    }

    /** One live tick; `fetched` is None when upstream failed. */
    method RecordRankingData(onlyWorldBloom: bool, fetched: Option<Payload>, now: int, recordTime: int)
      returns (result: Option<Outcome>, ghost data: HandledData, ghost log: PersistLog)
      requires Valid()
      modifies this`prevRankState, this`prevWorldBloom, this`wlUserKeys, this`borderHash, this`savedRankState, db, db.users, cache
      ensures Valid()
      ensures isEventEnded ==> result == Some(Persisted(false)) && State() == old(State()) && cache.issued == old(cache.issued)
      ensures !isEventEnded && fetched.None? ==> result.None? && cache.issued == old(cache.issued) && Marked(old(State()), State(), now)
      ensures !isEventEnded && fetched.Some? ==>
                && result.Some? && Handled(fetched.value, recordTime, old(borderHash), data)
                && Ticked(db.publicId, data, onlyWorldBloom, true, now, result.value, log, old(State()), State())
                && cache.issued == old(cache.issued) + Bracket(log.records != [] || log.rows != [], log.commits)
                && cache.epoch == old(cache.epoch) + (if log.commits == [] then 0 else 1)
                && db.rows == (if log.commits == [] then old(db.rows) else log.commits[|log.commits| - 1])
      ensures isEventEnded || fetched.None? ==> cache.epoch == old(cache.epoch)
      ensures cache.dirty ==> old(cache.dirty) && cache.issued == old(cache.issued)
    {
      hide Valid, Ticked, Bracket;
      data := HandledData(recordTime, [], map[], None);
      log := PersistLog([], [], [], db.Contents(), db.Contents(), 0, []);
      if isEventEnded { result := Some(Persisted(false)); return; }
      if fetched.None? {
        Heartbeat(now);
        result := None;
        return;
      }
      var handled := HandleRankingData(fetched.value, recordTime);
      data := handled;
      var outcome;
      outcome, log := PersistRankingData(handled, onlyWorldBloom, true, now);
      result := Some(outcome);
    }

    /** The mark of a tick whose fetch failed; if it cannot be written, so be it. */
    method Heartbeat(now: int)
      requires Valid()
      modifies db`stamps, db`nextTimeId
      ensures Valid() && Marked(old(State()), State(), now)
    {
      var _ := db.WriteHeartbeat(now);
    }

    /** Everybody visible in the payload and nobody else, for the user dimension. */
    method CollectVisibleUserRecords(data: HandledData) returns (records: seq<Record>)
      ensures forall u :: HasRecord(records, u) <==> Visible(data, u)
      ensures forall r | r in records :: r.timestamp == data.recordTime
    {
      var main := BuildEventRecords(data.recordTime, data.rankings);
      RecordTimes(data.recordTime, data.rankings, main);
      RecordsShow(data.recordTime, data.rankings, main);
      var rows;
      ghost var order;
      rows, order := BuildWorldBloomRows(data.recordTime, data.chapters, false, map[], map[]);
      RowsShow(data.recordTime, order, data.chapters, rows);
      records := main;
      for i := 0 to |rows|
        invariant forall r :: r in records <==> r in main || exists k :: 0 <= k < i && rows[k].base == r
      {
        records := records + [rows[i].base];
      }
    }

    static predicate ShouldRefresh(last: Option<int>, now: int, interval: nat) {
      interval == 0 || last.None? || now - last.value >= interval
    }

    /** The post-end refresh: the diff-based persist without heartbeats, then the
        user dimension inside a bracket of its own. */
    method RefreshAfterEnd(fetched: Option<Payload>, now: int, recordTime: int, interval: nat)
      returns (result: Option<Outcome>, ghost log: Option<RefreshLog>, ghost second: seq<Command>)
      requires Valid()
      modifies this`prevRankState, this`prevWorldBloom, this`wlUserKeys, this`borderHash, this`savedRankState, this`lastPostEndRefresh,
               db, db.users, cache
      ensures Valid()
      ensures log.Some? <==> ShouldRefresh(old(lastPostEndRefresh), now, interval) && fetched.Some?
      ensures log.None? ==> State() == old(State()) && cache.issued == old(cache.issued) && cache.epoch == old(cache.epoch) && second == []
      ensures log.Some? ==>
                && Handled(fetched.value, recordTime, old(borderHash), log.value.data)
                && Ticked(db.publicId, log.value.data, false, false, now, log.value.outcome, log.value.persisted, old(State()), log.value.between)
                && State() == log.value.between.(tables := log.value.between.tables.(users := db.Contents().users))
                && U.Extends(log.value.between.tables.users, db.Contents().users, log.value.dims)
                && cache.issued == old(cache.issued)
                     + Bracket(log.value.persisted.records != [] || log.value.persisted.rows != [], log.value.persisted.commits) + second
                && cache.epoch == old(cache.epoch) + (if log.value.persisted.commits == [] then 0 else 1)
                     + (if second == [SetDirty, Bump, ClearDirty] then 1 else 0)
                && db.rows == (if log.value.persisted.commits == [] then old(db.rows)
                               else log.value.persisted.commits[|log.value.persisted.commits| - 1])
      ensures second != [] ==> log.Some? && log.value.outcome.Persisted?
      ensures second != [] ==> forall u :: u in log.value.dims <==> Visible(log.value.data, u)
      ensures log.Some? && log.value.outcome.Persisted? && second == [] ==> forall u :: !Visible(log.value.data, u)
      ensures second == [] || second == [SetDirty, ClearDirty] || second == [SetDirty, Bump, ClearDirty]
      ensures cache.dirty ==> old(cache.dirty) && cache.issued == old(cache.issued)
      ensures lastPostEndRefresh != old(lastPostEndRefresh) ==> lastPostEndRefresh == Some(now) && log.Some? && log.value.outcome.Persisted?
    {
      hide Valid, Ticked, Bracket, U.Extends;
      log, second := None, [];
      if !ShouldRefresh(lastPostEndRefresh, now, interval) { return Some(Persisted(false)), log, second; }
      if fetched.None? { return None, log, second; }
      var data := HandleRankingData(fetched.value, recordTime);
      var outcome;
      ghost var persisted;
      outcome, persisted := PersistRankingData(data, false, false, now);
      NoUsers(db.users.rows);
      log := Some(RefreshLog(data, outcome, persisted, State(), map[]));
      result := Some(outcome);
      if !outcome.Persisted? { return; }
      var records := CollectVisibleUserRecords(data);
      if records == [] {
        assert forall u :: !HasRecord(records, u);
        lastPostEndRefresh := Some(now);
        return;
      }
      HaveRecords(records);
      log := Some(RefreshLog(data, outcome, persisted, State(), DimsOf(db.publicId, records)));
      var upserted := RefreshUsers(records);
      second := if upserted then [SetDirty, Bump, ClearDirty] else [SetDirty, ClearDirty];
      if !upserted { result := None; return; }
      lastPostEndRefresh := Some(now);
    }

    method RefreshUsers(records: seq<Record>) returns (ok: bool)
      requires Valid()
      modifies db.users, cache
      ensures Valid() && !cache.dirty
      ensures State() == old(State()).(tables := old(State()).tables.(users := db.Contents().users))
      ensures U.Extends(old(db.Contents()).users, db.Contents().users, DimsOf(db.publicId, records))
      ensures cache.issued == old(cache.issued) + (if ok then [SetDirty, Bump, ClearDirty] else [SetDirty, ClearDirty])
      ensures cache.epoch == old(cache.epoch) + (if ok then 1 else 0) && db.rows == old(db.rows)
    {
      ghost var issued := cache.issued;
      cache.Begin();
      ok := UpsertUsers(records);
      if ok { cache.Finish(); } else { cache.Abort(); }
      assert issued + [SetDirty] + [Bump, ClearDirty] == issued + [SetDirty, Bump, ClearDirty];
      assert issued + [SetDirty] + [ClearDirty] == issued + [SetDirty, ClearDirty];
    }

    method UpsertUsers(records: seq<Record>) returns (ok: bool)
      requires Valid()
      modifies db.users
      ensures Valid() && db.stamps == old(db.stamps) && db.rows == old(db.rows)
      ensures ok ==> U.Upserted(old(db.users.rows), db.users.rows, DimsOf(db.publicId, records))
      ensures U.Extends(old(db.users.rows), db.users.rows, DimsOf(db.publicId, records))
    {
      var _, dims := db.CollectDims(records);
      var r := db.users.GetOrCreateKeys(dims);
      ok := r.Ok?;
    }
  }

  lemma NoUsers(rows: map<int, U.UserRow>)
    ensures U.Extends(rows, rows, map[])
  {
  }

  predicate Shows(rows: seq<Player>, u: int) {
    exists p | p in rows :: Named(p) && p.userId.value == u
  }

  /** A named row of the main ranking or of a chapter is the user's. */
  predicate Visible(data: HandledData, u: int) {
    Shows(data.rankings, u) || exists c | c in data.chapters :: Shows(data.chapters[c], u)
  }

  predicate HasRecord(records: seq<Record>, u: int) {
    exists r | r in records :: r.userId == u
  }

  lemma HaveRecords(records: seq<Record>)
    ensures forall u :: HasRecord(records, u) <==> exists k :: 0 <= k < |records| && records[k].userId == u
  {
  }

  lemma RecordTimes(time: int, rows: seq<Player>, records: seq<Record>)
    requires Lists(records, FirstNamed(time, rows))
    ensures forall r | r in records :: r.timestamp == time
  {
    forall r | r in records ensures r.timestamp == time {
      var k :| 0 <= k < |records| && records[k] == r;
      assert FirstNamed(time, rows)[records[k].userId] == records[k];
    }
  }

  lemma RecordsShow(time: int, rows: seq<Player>, records: seq<Record>)
    requires Lists(records, FirstNamed(time, rows))
    ensures forall u :: HasRecord(records, u) <==> Shows(rows, u)
  {
    var m := FirstNamed(time, rows);
    forall r | r in records ensures Shows(rows, r.userId) {
      var k :| 0 <= k < |records| && records[k] == r;
      assert r.userId in m && m[r.userId] == r;
    }
    forall u | Shows(rows, u) ensures HasRecord(records, u) {
      assert u in m && m[u] in records;
    }
  }

  lemma RowsShow(time: int, order: seq<int>, chapters: ChapterRankings, rows: seq<ChapterRecord>)
    requires (forall c :: c in order <==> c in chapters) && rows == RowsOf(time, order, chapters, false, map[], map[])
    ensures forall r | r in rows :: r.base.timestamp == time && r.characterId in chapters && Shows(chapters[r.characterId], r.base.userId)
    ensures forall c, u | c in chapters && Shows(chapters[c], u) :: exists r | r in rows :: r.base.userId == u
  {
    RowsOfAre(time, order, chapters, false, map[], map[]);
    forall r | r in rows
      ensures r.base.timestamp == time && r.characterId in chapters && Shows(chapters[r.characterId], r.base.userId)
    {
      RowsOfChapterAre(time, r.characterId, chapters[r.characterId], false, map[], map[]);
    }
    forall u, c | c in chapters && Shows(chapters[c], u) ensures exists r | r in rows :: r.base.userId == u {
      var p :| p in chapters[c] && Named(p) && p.userId.value == u;
      RowsOfChapterAre(time, c, chapters[c], false, map[], map[]);
      assert ChapterRecord(RecordOf(time, p), c) in rows;
    }
  }
}
