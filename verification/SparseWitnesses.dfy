/** Runs of the sparse log that show its hypotheses can be met, and what is lost
    where they are not. */
module SparseWitnesses {
  import opened RankingTables
  import opened RankDiff
  import opened Storage
  import opened Tracker
  import opened WorldBloomRows
  import opened SparseLog
  import U = UserTable

  // ------------------------------------------------------------- a first tick

  /** The tables after a first tick that stored (rank 1, user 7, score). */
  function AfterOne(time: int, score: int): Tables {
    Tables(map[7 := U.UserRow(1, "a", None, None, Some(0))], map[1 := time], RankingRows(map[RowKey(1, 1) := Standing(1, score)], map[]))
  }

  function AfterFirst(time: int): Tables {
    AfterOne(time, 10)
  }

  lemma FirstAgrees(time: int)
    ensures Tidy(AfterFirst(time), time) && Agrees(AfterFirst(time), map[1 := RankState(7, 10)])
  {
    var t := AfterFirst(time);
    var k := RowKey(1, 1);
    OwnedBy(t.users, 7, 1);
    assert Candidate(t, 1, None, k);
    assert IsRow(t, 1, None, RankState(7, 10), k);
  }

  const NO_IDS: PublicId := _ => None

  /** User 7 at rank 1. */
  function Leader(score: int): Player {
    Player(Some(1), Some(score), Some(7), Some("a"), None, 0)
  }

  function FirstPlayer(): Player {
    Leader(10)
  }

  function FirstView(): View {
    View(AfterFirst(5), map[1 := RankState(7, 10)], map[], map[], Some(9))
  }

  function FirstTick(): Act {
    Tick(HandledData(5, [FirstPlayer()], map[], Some(9)), false, true, 4, Persisted(true),
         PersistLog([RecordOf(5, FirstPlayer())], [], [], AfterFirst(5), AfterFirst(5), 0, [AfterFirst(5).rows]))
  }

  lemma LeaderChanges(score: int, prev: RankMap)
    requires Changed(Leader(score), prev)
    ensures ChangedRows([Leader(score)], prev) == [Leader(score)]
    ensures StatesOf([Leader(score)]) == map[1 := RankState(7, score)]
  {
    var p := Leader(score);
    assert [p][..0] == [];
    assert ChangedRows([], prev) == [] && StatesOf([]) == map[];
    assert map[][1 := RankState(7, score)] == map[1 := RankState(7, score)];
  }

  lemma LeaderRecords(time: int, score: int)
    ensures FirstNamed(time, [Leader(score)]) == map[7 := RecordOf(time, Leader(score))]
  {
    var p := Leader(score);
    assert [p][..0] == [];
    assert FirstNamed(time, []) == map[];
    assert map[][7 := RecordOf(time, p)] == map[7 := RecordOf(time, p)];
  }

  lemma LeaderCommits(score: int)
    ensures EventCommitted(NO_IDS, Start().tables, AfterOne(5, score), [RecordOf(5, Leader(score))])
  {
    var rec := RecordOf(5, Leader(score));
    var now := AfterOne(5, score);
    LeaderDims(rec);
    assert TimesOf([rec]) == {5};
    assert 1 in now.stamps && now.stamps[1] == 5;
    assert HasStamp(now.stamps, 5);
    assert Resolved(now.stamps, now.users, [rec]);
    var rows := EventRows(now.stamps, now.users, [rec]);
    assert rows == [(RowKey(1, 1), Standing(1, score))] by { assert rows[0] == EventRow(now.stamps, now.users, rec); }
    assert rows[..0] == [];
    assert InsertAll(Start().tables.rows.event, []) == map[];
    assert InsertAll(Start().tables.rows.event, rows) == now.rows.event;
  }

  lemma LeaderDims(rec: Record)
    requires rec.userId == 7 && rec.name == "a" && rec.team == None && rec.profile == 0
    ensures DimsOf(NO_IDS, [rec]) == map[7 := U.UserDim("a", None, None, 0)]
  {
    assert [rec][..0] == [];
    assert DimsOf(NO_IDS, []) == map[];
  }

  /** A tick whose changed rows `rows` come to one record. */
  lemma OneRecordLands(id: PublicId, data: HandledData, rows: seq<Player>, rec: Record, was: Tables, now: Tables, prev: RankMap, next: RankMap)
    requires ChangedRows(data.rankings, prev) == rows && FirstNamed(data.recordTime, rows) == map[rec.userId := rec]
    requires EventCommitted(id, was, now, [rec]) && next == prev + StatesOf(rows)
    ensures MainLanded(id, data, false, [rec], was, now, prev, next)
  {
    hide EventCommitted, ChangedRows, StatesOf, FirstNamed;
  }

  lemma FirstLands()
    ensures MainLanded(NO_IDS, FirstTick().data, false, FirstTick().log.records, Start().tables, AfterFirst(5), map[], FirstView().ranks)
  {
    LeaderChanges(10, map[]);
    LeaderRecords(5, 10);
    LeaderCommits(10);
    hide EventCommitted, ChangedRows, StatesOf, FirstNamed, AfterOne, MainLanded;
    assert map[] + map[1 := RankState(7, 10)] == map[1 := RankState(7, 10)];
    OneRecordLands(NO_IDS, FirstTick().data, [Leader(10)], RecordOf(5, Leader(10)), Start().tables, AfterFirst(5), map[], FirstView().ranks);
  }

  lemma FirstActs()
    ensures Acts(NO_IDS, Start(), FirstTick(), FirstView())
  {
    FirstLands();
    FirstAgrees(5);
    hide MainLanded, Agrees, Storage.ChaptersFailed;
    assert RowsOf(5, [], map[], true, map[], map[]) == [];
  }

  lemma FirstIsRegular()
    ensures Regular(Start(), FirstTick())
  {
    LeaderChanges(10, map[]);
    hide ChangedRows, Collides, Lands;
    forall p, k | p in [FirstPlayer()] && Complete(p) ensures !Collides(Start().tables, 5, p, k) { NoRowsNoCollision(p, k); }
    assert DistinctRanks([FirstPlayer()]) && DistinctUsers([FirstPlayer()]);
  }

  lemma NoRowsNoCollision(p: Player, k: RowKey)
    requires Complete(p)
    ensures !Collides(Start().tables, 5, p, k)
  {
  }

  lemma FirstRun()
    ensures var steps := [Step(FirstTick(), FirstView())]; Run(NO_IDS, Start(), 3, steps) && AllRegular(Start(), steps)
  {
    FirstActs();
    FirstIsRegular();
    hide Acts, Regular;
    assert [Step(FirstTick(), FirstView())][1..] == [];
  }

  lemma FirstSeen()
    ensures var h := HistoryFrom([], [Step(FirstTick(), FirstView())]);
            LastSeen(h, 1, Some(6)) == Some(RankState(7, 10)) && LastSeen(h, 1, Some(4)) == None
  {
    var seen := Seen(5, [FirstPlayer()]);
    LeaderChanges(10, map[]);
    hide StatesOf;
    assert [Step(FirstTick(), FirstView())][1..] == [];
    assert [seen][..0] == [] && [] + [seen] == [seen];
    assert LastSeen([], 1, Some(6)) == None && LastSeen([], 1, Some(4)) == None;
  }

  /** The hypotheses of the refinement can be met: a first tick from nothing, and
      what the query then answers before and after it. */
  lemma FirstTickIsARun()
    ensures var steps := [Step(FirstTick(), FirstView())];
            && Run(NO_IDS, Start(), 3, steps) && AllRegular(Start(), steps)
            && Answers(End(Start(), steps).tables, 1, Some(6), Some(RankState(7, 10)))
            && Answers(End(Start(), steps).tables, 1, Some(4), None)
  {
    hide Run, AllRegular, Answers, LastSeen, HistoryFrom, End;
    var steps := [Step(FirstTick(), FirstView())];
    FirstRun();
    FirstSeen();
    SparseLogIsDense(NO_IDS, 3, steps, 1, Some(6));
    SparseLogIsDense(NO_IDS, 3, steps, 1, Some(4));
  }

  // ------------------------------------------------ what an unfaithful tick loses

  function TwoRanks(): seq<Player> {
    [Leader(20), Player(Some(2), Some(10), Some(7), Some("a"), None, 0)]
  }

  lemma TwoRanksChange()
    ensures ChangedRows(TwoRanks(), map[]) == TwoRanks() && !DistinctUsers(TwoRanks()) && DistinctRanks(TwoRanks())
  {
    var a, b := TwoRanks()[0], TwoRanks()[1];
    assert TwoRanks()[..1] == [a] && [a][..0] == [];
    assert ChangedRows([a], map[]) == [a];
  }

  lemma NothingAgrees(time: int)
    ensures Tidy(Start().tables, time) && Agrees(Start().tables, map[])
  {
  }

  /** One user at two ranks of a payload: one of the ranks is never written, whatever
      the user keys and time ids are, although the state moves on for both. */
  lemma UserAtTwoRanksIsLost(id: PublicId, now: Tables, next: RankMap, data: HandledData, records: seq<Record>)
    requires data.rankings == TwoRanks()
    requires MainLanded(id, data, false, records, Start().tables, now, map[], next)
    ensures !Agrees(now, next)
  {
    hide MainLanded, TwoRanks, ChangedRows, Agrees, Tidy, DistinctUsers, DistinctRanks;
    TwoRanksChange();
    NothingAgrees(data.recordTime);
    TickIsExact(id, Start().tables, now, map[], next, data, records);
  }

  /** A score that changes within one second: the second row meets the first one's
      key and is not inserted. */
  lemma SameInstantIsLost(id: PublicId, now: Tables, next: RankMap, data: HandledData, records: seq<Record>)
    requires data.rankings == [Leader(20)]
    requires MainLanded(id, data, false, records, AfterFirst(data.recordTime), now, map[1 := RankState(7, 10)], next)
    ensures !Agrees(now, next)
  {
    var was := AfterFirst(data.recordTime);
    var prev := map[1 := RankState(7, 10)];
    var k := RowKey(1, 1);
    FirstAgrees(data.recordTime);
    LeaderChanges(20, prev);
    hide ChangedRows, StatesOf, FirstNamed, MainLanded, Tidy, Agrees;
    var p := data.rankings[0];
    assert p in ChangedRows(data.rankings, prev) && Collides(was, data.recordTime, p, k);
    TickIsExact(id, was, now, prev, next, data, records);
  }

  /** Such ticks land: each of the two loses its row for good. */
  lemma TwoRanksLand()
    ensures MainLanded(NO_IDS, HandledData(5, TwoRanks(), map[], None), false, [RecordOf(5, Leader(20))],
                       Start().tables, AfterOne(5, 20), map[], map[1 := RankState(7, 20), 2 := RankState(7, 10)])
  {
    TwoRanksChange();
    LeaderCommits(20);
    LeaderRecords(5, 20);
    TwoRanksStates();
    TwoRanksRecords();
    hide EventCommitted, ChangedRows, StatesOf, FirstNamed, TwoRanks, DistinctUsers, DistinctRanks, MainLanded, AfterOne;
    assert map[] + StatesOf(TwoRanks()) == StatesOf(TwoRanks());
    OneRecordLands(NO_IDS, HandledData(5, TwoRanks(), map[], None), TwoRanks(), RecordOf(5, Leader(20)),
                   Start().tables, AfterOne(5, 20), map[], StatesOf(TwoRanks()));
  }

  lemma TwoRanksStates()
    ensures StatesOf(TwoRanks()) == map[1 := RankState(7, 20), 2 := RankState(7, 10)]
  {
    assert TwoRanks()[..1] == [Leader(20)];
    LeaderChanges(20, map[]);
  }

  lemma TwoRanksRecords()
    ensures FirstNamed(5, TwoRanks()) == FirstNamed(5, [Leader(20)])
  {
    assert TwoRanks()[..1] == [Leader(20)];
    LeaderRecords(5, 20);
  }

  lemma SameInstantLands()
    ensures MainLanded(NO_IDS, HandledData(5, [Leader(20)], map[], None), false, [RecordOf(5, Leader(20))],
                       AfterFirst(5), AfterFirst(5), map[1 := RankState(7, 10)], map[1 := RankState(7, 20)])
  {
    LeaderChanges(20, map[1 := RankState(7, 10)]);
    LeaderRecords(5, 20);
    NothingNew();
    hide EventCommitted, ChangedRows, StatesOf, FirstNamed, MainLanded, AfterOne;
    assert map[1 := RankState(7, 10)] + map[1 := RankState(7, 20)] == map[1 := RankState(7, 20)];
    OneRecordLands(NO_IDS, HandledData(5, [Leader(20)], map[], None), [Leader(20)], RecordOf(5, Leader(20)),
                   AfterFirst(5), AfterFirst(5), map[1 := RankState(7, 10)], map[1 := RankState(7, 20)]);
  }

  lemma NothingNew()
    ensures EventCommitted(NO_IDS, AfterFirst(5), AfterFirst(5), [RecordOf(5, Leader(20))])
  {
    var rec := RecordOf(5, Leader(20));
    var t := AfterFirst(5);
    LeaderDims(rec);
    assert TimesOf([rec]) == {5};
    assert 1 in t.stamps && t.stamps[1] == 5;
    assert HasStamp(t.stamps, 5);
    var rows := EventRows(t.stamps, t.users, [rec]);
    assert rows == [(RowKey(1, 1), Standing(1, 20))] by { assert rows[0] == EventRow(t.stamps, t.users, rec); }
    assert rows[..0] == [];
    assert InsertAll(t.rows.event, []) == t.rows.event;
    assert InsertAll(t.rows.event, rows) == t.rows.event;
  }
}
