/** Where a chapter's log parts from what the payloads said: a user who leaves its
    rank to another and comes back to it with its old score is not written again. */
module AbsentUser {
  import opened RankingTables
  import opened RankDiff
  import opened Storage
  import opened Tracker
  import opened WorldBloomRows
  import opened SparseLog
  import opened RestartLog
  import opened ChapterLog
  import U = UserTable
  import W = SparseWitnesses
  import X = WorldBloomExact

  lemma {:induction false} StatesUntouched(users: Users, prev: ChapterStates, records: seq<ChapterRecord>, key: WorldBloomKey)
    requires Known(users, records) && forall k | 0 <= k < |records| :: ChapterKey(users, records[k]) != key
    ensures var next := ChapterStatesOf(users, prev, records);
            (key in next <==> key in prev) && (key in prev ==> next[key] == prev[key])
  {
    if records != [] { StatesUntouched(users, prev, records[..|records| - 1], key); }
  }

  /** A user that a landed tick's payload does not list stays as remembered. */
  lemma StaysRemembered(id: PublicId, c: int, s: View, a: Act, t: View, clock: int, p: Player)
    requires Sane(c, s, clock) && Acts(id, s, a, t) && Timely(clock, a) && ChapterLands(c, a)
    requires Remembered(s.tables.users, s.chapters, c, p)
    requires forall q | q in a.data.chapters[c] && Complete(q) :: q.userId != p.userId
    ensures Remembered(t.tables.users, t.chapters, c, p)
  {
    hide Landing, Calm, Slice, Tidy, Quiet, MainLanded, ChaptersLanded, StampsGrow, RowsOf, Written, X.MemoHolds, StatesOwned,
         ChaptersCommitted, ChangedChapters, ChapterStatesOf, Sane, Parts;
    var time, mid, post := a.data.recordTime, a.log.afterMain, a.log.afterChapters;
    SaneMeans(c, s, clock);
    MainCalm(id, s, a, t, c);
    OwnersStay(s.tables.users, mid.users, s.memo, s.chapters);
    ChapterTimes(time, a.log.order, a.data.chapters, true, s.memo, s.chapters);
    ChaptersGrow(id, a.log.rows, mid, post, time, s.chapters, t.chapters, s.memo, t.memo, a.log.inserted);
    assert Sound(post) by { QuietIsSound(mid, post, time); }
    PostCalm(id, s, a, t, c);
    var changed := ChangedChapters(post.users, s.chapters, a.log.rows);
    var u := p.userId.value;
    assert u in mid.users && u in post.users && u in t.tables.users;
    var key := WorldBloomKey(post.users[u].key, c);
    forall k | 0 <= k < |changed| ensures ChapterKey(post.users, changed[k]) != key {
      var q := SentFrom(time, a.log.order, a.data.chapters, s.memo, s.chapters, mid.users, post.users, changed[k]);
      assert changed[k].base.userId == q.userId.value;
      if changed[k].characterId == c { assert q.userId != p.userId; }
    }
    StatesUntouched(post.users, s.chapters, changed, key);
  }

  lemma QuietIsSound(was: Tables, now: Tables, time: int)
    requires Quiet(was, now, time)
    ensures Sound(now)
  {
  }

  lemma NewInstant(t: Tables, clock: int, time: int)
    requires Tidy(t, clock) && clock < time
    ensures NoneAt(t, time)
  {
  }

  lemma RecalledRow(c: int, s: View, payload: seq<Player>, p: Player)
    requires Recalled(c, s, payload) && p in payload && Remembered(s.tables.users, s.chapters, c, p)
    ensures AnswersRow(Slice(s.tables, c), p)
  {
  }

  /** After a tick whose payload the log answers with another user at p's rank and
      without p's user, a payload in which p is back as remembered is not answered. */
  lemma AbsentUserIsLost(id: PublicId, c: int, s: View, a: Act, t: View, b: Act, u: View, clock: int, p: Player, q: Player)
    requires Sane(c, s, clock) && Acts(id, s, a, t) && Timely(clock, a) && Acts(id, t, b, u) && Timely(ClockAfter(clock, a), b)
    requires ChapterLands(c, a) && ChapterLands(c, b) && clock < a.data.recordTime < b.data.recordTime
    requires Clean(a.data.chapters[c]) && Clean(b.data.chapters[c])
    requires Remembered(s.tables.users, s.chapters, c, p) && p in b.data.chapters[c]
    requires q in a.data.chapters[c] && Complete(q) && q.rank == p.rank
    requires forall o | o in a.data.chapters[c] && Complete(o) :: o.userId != p.userId
    requires Recalled(c, s, a.data.chapters[c])
    ensures !AnswersAll(Slice(u.tables, c), b.data.chapters[c])
  {
    hide Sane, Acts, Clean, NoneAt, Recalled, AnswersAll, Slice, Tidy, Answers;
    SaneMeans(c, s, clock);
    NewInstant(Slice(s.tables, c), clock, a.data.recordTime);
    ChapterTickIsExact(id, c, s, a, t, clock);
    AllMeans(Slice(t.tables, c), a.data.chapters[c], q);
    StaysRemembered(id, c, s, a, t, clock, p);
    SaneStays(id, c, s, a, t, clock);
    SaneMeans(c, t, a.data.recordTime);
    NewInstant(Slice(t.tables, c), a.data.recordTime, b.data.recordTime);
    ChapterTickIsExact(id, c, t, b, u, a.data.recordTime);
    if Recalled(c, t, b.data.chapters[c]) {
      RecalledRow(c, t, b.data.chapters[c], p);
      TwoUsers(Slice(t.tables, c), a.data.recordTime, p, q);
    }
  }

  /** The log cannot answer one rank with two users. */
  lemma TwoUsers(t: Tables, clock: int, p: Player, q: Player)
    requires Tidy(t, clock) && Complete(p) && Complete(q) && p.rank == q.rank && AnswersRow(t, p) && AnswersRow(t, q)
    ensures p.userId == q.userId
  {
    AnswersAreOne(t, p.rank.value, Some(StateOf(p)), Some(StateOf(q)));
  }

  // ------------------------------------------------------- such a run is there

  const CHAPTER := 3

  function Other(): Player {
    Player(Some(1), Some(10), Some(8), Some("b"), None, 0)
  }

  /** A tick that records the chapter alone. */
  function ChapterTick(time: int, payload: seq<Player>, rows: seq<ChapterRecord>, was: Tables, now: Tables, inserted: nat): Act {
    Tick(HandledData(time, [], map[CHAPTER := payload], None), true, false, time - 1, Persisted(inserted > 0),
         PersistLog([], rows, [CHAPTER], was, now, inserted, if inserted > 0 then [now.rows] else []))
  }

  lemma ChapterTickActs(id: PublicId, s: View, t: View, time: int, payload: seq<Player>, rows: seq<ChapterRecord>, inserted: nat)
    requires rows == RowsOf(time, [CHAPTER], map[CHAPTER := payload], true, s.memo, s.chapters)
    requires ChaptersLanded(id, rows, s.tables, t.tables, s.chapters, t.chapters, s.memo, t.memo, inserted)
    requires t.ranks == s.ranks && t.borderHash == s.borderHash && Sound(t.tables) && (rows == [] ==> inserted == 0)
    ensures Acts(id, s, ChapterTick(time, payload, rows, s.tables, t.tables, inserted), t)
  {
    hide ChaptersLanded, RowsOf;
    NoMain(id, ChapterTick(time, payload, rows, s.tables, t.tables, inserted).data, s.tables, s.ranks);
    hide MainLanded;
  }

  lemma NoMain(id: PublicId, data: HandledData, t: Tables, ranks: RankMap)
    ensures MainLanded(id, data, true, [], t, t, ranks, ranks)
  {
    assert StatesOf([]) == map[] && FirstNamed(data.recordTime, []) == map[];
    assert ranks + map[] == ranks;
  }

  function UserSeven(): U.UserRow {
    U.UserRow(1, "a", None, None, Some(0))
  }

  function UserEight(): U.UserRow {
    U.UserRow(2, "b", None, None, Some(0))
  }

  function TablesOne(): Tables {
    Tables(map[7 := UserSeven()], map[1 := 5], RankingRows(map[], map[ChapterRowKey(1, 1, CHAPTER) := Standing(1, 10)]))
  }

  function TablesTwo(): Tables {
    Tables(map[7 := UserSeven(), 8 := UserEight()], map[1 := 5, 2 := 15],
           RankingRows(map[], map[ChapterRowKey(1, 1, CHAPTER) := Standing(1, 10), ChapterRowKey(2, 2, CHAPTER) := Standing(1, 10)]))
  }

  function ViewOne(): View {
    View(TablesOne(), map[], map[WorldBloomKey(1, CHAPTER) := PlayerState(10, 1)], map[7 := 1], None)
  }

  function ViewTwo(): View {
    View(TablesTwo(), map[], map[WorldBloomKey(1, CHAPTER) := PlayerState(10, 1), WorldBloomKey(2, CHAPTER) := PlayerState(10, 1)],
         map[7 := 1, 8 := 2], None)
  }

  function RowFor(time: int, p: Player): ChapterRecord
    requires Named(p)
  {
    ChapterRecord(RecordOf(time, p), CHAPTER)
  }

  /** User 7 is seen at rank 1, */
  function Comes(): Act {
    ChapterTick(5, [W.Leader(10)], [RowFor(5, W.Leader(10))], Start().tables, TablesOne(), 1)
  }

  /** then user 8 is, */
  function Leaves(): Act {
    ChapterTick(15, [Other()], [RowFor(15, Other())], TablesOne(), TablesTwo(), 1)
  }

  /** and user 7 again, whose row is skipped. */
  function Returns(): Act {
    ChapterTick(25, [W.Leader(10)], [], TablesTwo(), TablesTwo(), 0)
  }

  lemma OneRow(time: int, p: Player, memo: Memo, prev: ChapterStates)
    requires Named(p)
    ensures RowsOf(time, [CHAPTER], map[CHAPTER := [p]], true, memo, prev)
         == if Kept(true, memo, prev, CHAPTER, p) then [RowFor(time, p)] else []
  {
    assert [p][..0] == [] && [CHAPTER][..0] == [];
    assert RowsOfChapter(time, CHAPTER, [], true, memo, prev) == [];
    assert RowsOf(time, [], map[CHAPTER := [p]], true, memo, prev) == [];
  }

  lemma OneChanges(users: Users, prev: ChapterStates, r: ChapterRecord)
    requires r.base.userId in users && ChapterKey(users, r) !in prev
    ensures Known(users, [r]) && ChangedChapters(users, prev, [r]) == [r]
    ensures ChapterStatesOf(users, prev, [r]) == prev[ChapterKey(users, r) := PlayerState(r.base.score, r.base.rank)]
  {
    assert [r][..0] == [];
    assert ChangedChapters(users, prev, []) == [];
    assert ChapterStatesOf(users, prev, []) == prev;
  }

  lemma OneCommitted(was: Tables, now: Tables, r: ChapterRecord, id: nat)
    requires Sound(now) && r.base.userId in now.users && now.rows.event == was.rows.event
    requires id in now.stamps && now.stamps[id] == r.base.timestamp && StampsGrow(was.stamps, now.stamps, {r.base.timestamp})
    requires var k := ChapterRowKey(id, now.users[r.base.userId].key, r.characterId);
             k !in was.rows.worldBloom && now.rows.worldBloom == was.rows.worldBloom[k := Standing(r.base.rank, r.base.score)]
    ensures Bases([r]) == [r.base] && ChaptersCommitted(was, now, TimesOf([r.base]), [r])
  {
    hide StampsGrow;
    assert Bases([r]) == [r.base];
    assert TimesOf([r.base]) == {r.base.timestamp};
    assert HasStamp(now.stamps, r.base.timestamp);
    var rows := ChapterRows(now.stamps, now.users, [r]);
    assert rows[0] == ChapterRow(now.stamps, now.users, r);
    assert rows[..0] == [];
    assert InsertAll(was.rows.worldBloom, []) == was.rows.worldBloom;
    assert InsertAll(was.rows.worldBloom, rows) == now.rows.worldBloom;
  }

  /** One record of a new user lands. */
  lemma OneInserted(was: Tables, now: Tables, prev: ChapterStates, next: ChapterStates, memo: Memo, fed: Memo, r: ChapterRecord)
    requires Sound(now) && r.base.userId in now.users && ChapterKey(now.users, r) !in prev
    requires var dims := DimsOf(W.NO_IDS, [r.base]);
             dims.Keys == {r.base.userId} && U.Upserted(was.users, now.users, dims)
    requires Bases([r]) == [r.base] && ChaptersCommitted(was, now, TimesOf([r.base]), [r])
    requires next == prev[ChapterKey(now.users, r) := PlayerState(r.base.score, r.base.rank)]
    requires fed == memo[r.base.userId := now.users[r.base.userId].key]
    ensures ChaptersLanded(W.NO_IDS, [r], was, now, prev, next, memo, fed, 1)
  {
    hide U.Upserted, DimsOf, ChaptersCommitted, TimesOf, ChangedChapters, ChapterStatesOf;
    OneChanges(now.users, prev, r);
    assert fed == Fed(memo, now.users, {r.base.userId});
  }

  lemma DimsOfOne(r: Record)
    ensures DimsOf(W.NO_IDS, [r]) == map[r.userId := DimOf(W.NO_IDS, r)]
  {
    assert [r][..0] == [];
    assert DimsOf(W.NO_IDS, []) == map[];
  }

  lemma ComesLands()
    ensures ChaptersLanded(W.NO_IDS, [RowFor(5, W.Leader(10))], Start().tables, TablesOne(), map[], ViewOne().chapters, map[], ViewOne().memo, 1)
  {
    var r := RowFor(5, W.Leader(10));
    DimsOfOne(r.base);
    OneCommitted(Start().tables, TablesOne(), r, 1);
    hide ChaptersLanded, DimsOf, ChaptersCommitted, Bases, TimesOf;
    OneInserted(Start().tables, TablesOne(), map[], ViewOne().chapters, map[], ViewOne().memo, r);
  }

  lemma ComesActs()
    ensures Acts(W.NO_IDS, Start(), Comes(), ViewOne())
  {
    var r := RowFor(5, W.Leader(10));
    OneRow(5, W.Leader(10), map[], map[]);
    ComesLands();
    hide RowsOf, ChaptersLanded, Acts;
    ChapterTickActs(W.NO_IDS, Start(), ViewOne(), 5, [W.Leader(10)], [r], 1);
  }

  lemma EightIsNew()
    ensures U.Upserted(TablesOne().users, TablesTwo().users, DimsOf(W.NO_IDS, [RecordOf(15, Other())]))
    ensures DimsOf(W.NO_IDS, [RecordOf(15, Other())]).Keys == {8}
  {
    DimsOfOne(RecordOf(15, Other()));
    hide DimsOf;
  }

  lemma EightIsStored()
    ensures var r := RowFor(15, Other());
            Bases([r]) == [r.base] && ChaptersCommitted(TablesOne(), TablesTwo(), TimesOf([r.base]), [r])
  {
    hide ChaptersCommitted, Bases, TimesOf;
    OneCommitted(TablesOne(), TablesTwo(), RowFor(15, Other()), 2);
  }

  lemma LeavesLands()
    ensures ChaptersLanded(W.NO_IDS, [RowFor(15, Other())], TablesOne(), TablesTwo(), ViewOne().chapters, ViewTwo().chapters,
                           ViewOne().memo, ViewTwo().memo, 1)
  {
    EightIsNew();
    EightIsStored();
    hide ChaptersLanded, DimsOf, ChaptersCommitted, Bases, TimesOf, U.Upserted;
    OneInserted(TablesOne(), TablesTwo(), ViewOne().chapters, ViewTwo().chapters, ViewOne().memo, ViewTwo().memo, RowFor(15, Other()));
  }

  lemma LeavesActs()
    ensures Acts(W.NO_IDS, ViewOne(), Leaves(), ViewTwo())
  {
    OneRow(15, Other(), ViewOne().memo, ViewOne().chapters);
    LeavesLands();
    hide RowsOf, ChaptersLanded, Acts;
    ChapterTickActs(W.NO_IDS, ViewOne(), ViewTwo(), 15, [Other()], [RowFor(15, Other())], 1);
  }

  lemma ReturnsActs()
    ensures Acts(W.NO_IDS, ViewTwo(), Returns(), ViewTwo())
  {
    OneRow(25, W.Leader(10), ViewTwo().memo, ViewTwo().chapters);
    ChapterTickActs(W.NO_IDS, ViewTwo(), ViewTwo(), 25, [W.Leader(10)], [], 0);
  }

  /** A run from nothing whose payloads are clean and after which the log does not
      answer the last of them. */
  lemma ReturningUserIsARun()
    ensures Run(W.NO_IDS, Start(), 3, [Step(Comes(), ViewOne()), Step(Leaves(), ViewTwo()), Step(Returns(), ViewTwo())])
    ensures !AnswersAll(Slice(ViewTwo().tables, CHAPTER), Returns().data.chapters[CHAPTER])
  {
    ComesActs();
    LeavesActs();
    ReturnsActs();
    StartIsSane(CHAPTER, 3);
    hide Acts, Sane, AnswersAll, Slice, SliceRefines;
    SaneStays(W.NO_IDS, CHAPTER, Start(), Comes(), ViewOne(), 3);
    AbsentUserIsLost(W.NO_IDS, CHAPTER, ViewOne(), Leaves(), ViewTwo(), Returns(), ViewTwo(), 5, W.Leader(10), Other());
    var one, two, three := Step(Comes(), ViewOne()), Step(Leaves(), ViewTwo()), Step(Returns(), ViewTwo());
    assert [one, two, three][1..] == [two, three] && [two, three][1..] == [three] && [three][1..] == [];
  }
}
