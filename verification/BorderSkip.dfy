/** The border-hash skip: a tick whose border response hashes to the stored value
    does not merge the border into its payload. */
module BorderSkip {
  import opened RankingTables
  import opened RankDiff
  import opened Storage
  import opened Tracker
  import opened WorldBloomRows
  import SparseLog
  import W = SparseWitnesses

  /** A border row that the merge would add. */
  predicate Adds(top100: seq<Player>, b: Player) {
    Complete(b) && Uncovered(RanksOf(top100), b)
  }

  // --------------------------------------------------------------- one merge

  lemma {:induction false} ChangedAppend(a: seq<Player>, b: seq<Player>, prev: RankMap)
    ensures ChangedRows(a + b, prev) == ChangedRows(a, prev) + ChangedRows(b, prev)
    decreases |b|
  {
    if b == [] {
      assert a + b == a;
    } else {
      assert (a + b)[..|a + b| - 1] == a + b[..|b| - 1];
      ChangedAppend(a, b[..|b| - 1], prev);
    }
  }

  /** Skipping the merge is exact, for the diff and so for the records and the state,
      if and only if the state already holds every border row the merge would add. */
  lemma SkipIsExactWhen(top100: seq<Player>, border: seq<Player>, prev: RankMap)
    ensures ChangedRows(top100, prev) == ChangedRows(Merged(top100, border), prev)
       <==> forall b | b in border && Adds(top100, b) :: Entry(prev, b.rank.value) == Some(StateOf(b))
  {
    var extra := Outside(RanksOf(top100), border);
    ChangedAppend(top100, extra, prev);
    ChangedRowsAre(extra, prev);
    var added := ChangedRows(extra, prev);
    if forall b | b in border && Adds(top100, b) :: Entry(prev, b.rank.value) == Some(StateOf(b)) {
      if added != [] {
        assert added[0] in added && added[0] in extra;
        assert Adds(top100, added[0]);
      }
    } else {
      var b :| b in border && Adds(top100, b) && Entry(prev, b.rank.value) != Some(StateOf(b));
      assert b in extra;
      assert b in added;
      assert |ChangedRows(top100, prev)| < |ChangedRows(top100 + extra, prev)|;
    }
  }

  // --------------------------------------------------------------------- runs

  /** `borderOf` is what a hash stands for: different borders hash differently. */
  type BorderOf = int -> seq<Player>

  /** The border lists each rank once, and the ranks it shares with the top 100 are
      the same in every payload. */
  ghost predicate Fits(p: Payload, borderOf: BorderOf, overlap: set<int>) {
    && p.border == borderOf(p.borderHash)
    && DistinctRanks(p.border)
    && forall r | r in RanksOf(p.border) :: r in RanksOf(p.top100) <==> r in overlap
  }

  /** The state holds the border whose hash is stored. */
  ghost predicate HoldsBorder(s: View, borderOf: BorderOf, overlap: set<int>) {
    s.borderHash.Some? ==>
      forall b | b in borderOf(s.borderHash.value) && Complete(b) && b.rank.value !in overlap ::
        Entry(s.ranks, b.rank.value) == Some(StateOf(b))
  }

  datatype Step = Step(payload: Payload, data: HandledData, onlyWorldBloom: bool, idle: bool, now: int,
                       outcome: Outcome, log: PersistLog, after: View)

  ghost predicate Ticks(id: PublicId, s: View, step: Step) {
    && Handled(step.payload, step.data.recordTime, s.borderHash, step.data)
    && Ticked(id, step.data, step.onlyWorldBloom, step.idle, step.now, step.outcome, step.log, s, step.after)
  }

  /** Where a merged payload moved the state on, its hash was stored: the persist
      completed and the store did not fail. */
  ghost predicate HashKept(s: View, step: Step) {
    step.data.borderCache.Some? && !step.onlyWorldBloom ==>
      step.after.borderHash == step.data.borderCache || step.after.ranks == s.ranks
  }

  ghost predicate Run(id: PublicId, s: View, borderOf: BorderOf, overlap: set<int>, steps: seq<Step>)
    decreases |steps|
  {
    steps != [] ==>
      && Ticks(id, s, steps[0]) && Fits(steps[0].payload, borderOf, overlap) && HashKept(s, steps[0])
      && Run(id, steps[0].after, borderOf, overlap, steps[1..])
  }

  /** The only complete row of its rank decides the state of that rank. */
  lemma {:induction false} StateOfOnly(rows: seq<Player>, p: Player)
    requires p in rows && Complete(p) && forall q | q in rows && Complete(q) && q.rank == p.rank :: q == p
    ensures Entry(StatesOf(rows), p.rank.value) == Some(StateOf(p))
  {
    var last := rows[|rows| - 1];
    assert rows == rows[..|rows| - 1] + [last];
    if p in rows[..|rows| - 1] { StateOfOnly(rows[..|rows| - 1], p); }
  }

  lemma NextOfOnly(rankings: seq<Player>, prev: RankMap, p: Player)
    requires p in rankings && Complete(p) && forall q | q in rankings && Complete(q) && q.rank == p.rank :: q == p
    ensures Entry(prev + StatesOf(ChangedRows(rankings, prev)), p.rank.value) == Some(StateOf(p))
  {
    var rows := ChangedRows(rankings, prev);
    ChangedRowsAre(rankings, prev);
    if p in rows {
      StateOfOnly(rows, p);
    } else {
      StatesAre(rows);
    }
  }

  /** A rank of which the payload has no complete row keeps its state. */
  lemma NextOfUnlisted(rankings: seq<Player>, prev: RankMap, r: int)
    requires forall q | q in rankings && Complete(q) :: q.rank.value != r
    ensures Entry(prev + StatesOf(ChangedRows(rankings, prev)), r) == Entry(prev, r)
  {
    var rows := ChangedRows(rankings, prev);
    StatesAre(rows);
    ChangedRowsAre(rankings, prev);
  }

  /** What a tick does to the rank state and the stored hash. */
  lemma TickRanks(id: PublicId, s: View, step: Step)
    requires Ticks(id, s, step)
    ensures step.after.ranks == s.ranks
         || (!step.onlyWorldBloom && step.after.ranks == s.ranks + StatesOf(ChangedRows(step.data.rankings, s.ranks)))
    ensures step.after.borderHash == s.borderHash
         || (!step.onlyWorldBloom && step.after.borderHash == step.data.borderCache && !step.outcome.MainFailed?
             && step.after.ranks == s.ranks + StatesOf(ChangedRows(step.data.rankings, s.ranks)))
  {
    hide EventCommitted, OnlyUsers, ChaptersLanded, Storage.ChaptersFailed, StampsGrow, Lists;
    if step.onlyWorldBloom { assert StatesOf([]) == map[]; }
  }

  lemma StepKeeps(id: PublicId, s: View, borderOf: BorderOf, overlap: set<int>, step: Step)
    requires Ticks(id, s, step) && Fits(step.payload, borderOf, overlap) && HashKept(s, step)
    requires HoldsBorder(s, borderOf, overlap)
    ensures HoldsBorder(step.after, borderOf, overlap)
  {
    hide Ticked;
    TickRanks(id, s, step);
    var t := step.after;
    var p := step.payload;
    if t.borderHash.Some? {
      forall b | b in borderOf(t.borderHash.value) && Complete(b) && b.rank.value !in overlap
        ensures Entry(t.ranks, b.rank.value) == Some(StateOf(b))
      {
        if t.borderHash == s.borderHash && t.ranks == s.ranks {
        } else if step.data.borderCache.Some? {
          MergedRow(p, borderOf, overlap, b);
          NextOfOnly(step.data.rankings, s.ranks, b);
        } else {
          BorderRank(p, b);
          NextOfUnlisted(p.top100, s.ranks, b.rank.value);
        }
      }
    }
  }

  lemma BorderRank(p: Payload, b: Player)
    requires b in p.border && Complete(b)
    ensures b.rank.value in RanksOf(p.border)
  {
  }

  lemma TopRank(top100: seq<Player>, q: Player)
    requires q in top100 && Complete(q)
    ensures q.rank.value in RanksOf(top100)
  {
  }

  lemma MergedRow(p: Payload, borderOf: BorderOf, overlap: set<int>, b: Player)
    requires Fits(p, borderOf, overlap) && b in p.border && Complete(b) && b.rank.value !in overlap
    ensures var m := Merged(p.top100, p.border);
            b in m && forall q | q in m && Complete(q) && q.rank == b.rank :: q == b
  {
    BorderRank(p, b);
    var r := b.rank.value;
    assert r in RanksOf(p.border);
    assert r in RanksOf(p.top100) <==> r in overlap;
    MergeCovers(p.top100, p.border, b);
    forall q | q in Merged(p.top100, p.border) && Complete(q) && q.rank == b.rank ensures q == b {
      MergeCovers(p.top100, p.border, q);
      if q in p.border {
        SameRankSameRow(p.border, q, b);
      } else {
        TopRank(p.top100, q);
      }
    }
  }

  lemma {:induction false} RunHolds(id: PublicId, s: View, borderOf: BorderOf, overlap: set<int>, steps: seq<Step>, i: nat)
    requires Run(id, s, borderOf, overlap, steps) && HoldsBorder(s, borderOf, overlap) && i <= |steps|
    ensures HoldsBorder(Before(s, steps, i), borderOf, overlap)
    decreases i
  {
    hide Ticks, Fits, HashKept, HoldsBorder;
    if i > 0 {
      StepKeeps(id, s, borderOf, overlap, steps[0]);
      RunHolds(id, steps[0].after, borderOf, overlap, steps[1..], i - 1);
    }
  }

  /** The state before step `i`. */
  function Before(s: View, steps: seq<Step>, i: nat): View
    requires i <= |steps|
  {
    if i == 0 then s else steps[i - 1].after
  }

  lemma {:induction false} RunAt(id: PublicId, s: View, borderOf: BorderOf, overlap: set<int>, steps: seq<Step>, i: nat)
    requires Run(id, s, borderOf, overlap, steps) && i < |steps|
    ensures Ticks(id, Before(s, steps, i), steps[i]) && Fits(steps[i].payload, borderOf, overlap)
    decreases i
  {
    if i > 0 { RunAt(id, steps[0].after, borderOf, overlap, steps[1..], i - 1); }
  }

  /** The skip is sound: on every run on which each merged payload's hash was stored,
      a tick that skips the merge finds the changed rows it would have found. */
  lemma SkipIsSound(id: PublicId, s: View, borderOf: BorderOf, overlap: set<int>, steps: seq<Step>, i: nat)
    requires Run(id, s, borderOf, overlap, steps) && HoldsBorder(s, borderOf, overlap) && i < |steps|
    requires steps[i].data.borderCache.None?
    ensures var p := steps[i].payload; var prev := Before(s, steps, i).ranks;
            ChangedRows(steps[i].data.rankings, prev) == ChangedRows(Merged(p.top100, p.border), prev)
  {
    hide Ticked;
    var p := steps[i].payload;
    var before := Before(s, steps, i);
    RunAt(id, s, borderOf, overlap, steps, i);
    RunHolds(id, s, borderOf, overlap, steps, i);
    forall b | b in p.border && Adds(p.top100, b) ensures Entry(before.ranks, b.rank.value) == Some(StateOf(b)) {
      BorderRank(p, b);
    }
    SkipIsExactWhen(p.top100, p.border, before.ranks);
  }

  /** Without that proviso it is not.  If the World Bloom insert fails after a merged
      main insert, the state moves on and the old hash stays, so that the old border,
      when it comes back, is not merged.  Its skip is then exact if and only if none
      of the rows its merge would add says otherwise than the failed tick's payload. */
  lemma SkipAfterChapterFailureIff(id: PublicId, s: View, borderOf: BorderOf, overlap: set<int>, step: Step, p: Payload)
    requires Ticks(id, s, step) && step.outcome.ChaptersFailed? && !step.onlyWorldBloom && step.data.borderCache.Some?
    requires Fits(step.payload, borderOf, overlap) && DistinctRanks(step.payload.top100)
    requires HoldsBorder(s, borderOf, overlap) && s.borderHash == Some(p.borderHash) && Fits(p, borderOf, overlap)
    ensures forall time, chapters :: Handled(p, time, step.after.borderHash, HandledData(time, p.top100, chapters, None))
    ensures ChangedRows(p.top100, step.after.ranks) == ChangedRows(Merged(p.top100, p.border), step.after.ranks)
       <==> forall b, q | b in p.border && Adds(p.top100, b) && q in Merged(step.payload.top100, step.payload.border)
                         && Complete(q) && q.rank == b.rank :: StateOf(q) == StateOf(b)
  {
    hide Ticked, ChangedRows, Merged, Adds, DistinctRanks, HoldsBorder, Fits;
    LandedRanks(id, s, step);
    var m := Merged(step.payload.top100, step.payload.border);
    MergedDistinct(step.payload, borderOf, overlap);
    SkipIsExactWhen(p.top100, p.border, step.after.ranks);
    forall b | b in p.border && Adds(p.top100, b)
      ensures Complete(b) && (Entry(step.after.ranks, b.rank.value) == Some(StateOf(b))
                              <==> forall q | q in m && Complete(q) && q.rank == b.rank :: StateOf(q) == StateOf(b))
    {
      HeldBefore(s, borderOf, overlap, p, b);
      AfterFailed(m, s.ranks, b);
    }
  }

  lemma MergedDistinct(p: Payload, borderOf: BorderOf, overlap: set<int>)
    requires Fits(p, borderOf, overlap) && DistinctRanks(p.top100)
    ensures DistinctRanks(Merged(p.top100, p.border))
  {
    if p.border == [] {
      assert Merged(p.top100, p.border) == p.top100;
    } else {
      MergeCovers(p.top100, p.border, p.border[0]);
    }
  }

  /** The state holds every row that merging the border of the stored hash would add. */
  lemma HeldBefore(s: View, borderOf: BorderOf, overlap: set<int>, p: Payload, b: Player)
    requires HoldsBorder(s, borderOf, overlap) && s.borderHash == Some(p.borderHash) && Fits(p, borderOf, overlap)
    requires b in p.border && Adds(p.top100, b)
    ensures Complete(b) && Entry(s.ranks, b.rank.value) == Some(StateOf(b))
  {
    BorderRank(p, b);
  }

  lemma AfterFailed(m: seq<Player>, prev: RankMap, b: Player)
    requires DistinctRanks(m) && Complete(b) && Entry(prev, b.rank.value) == Some(StateOf(b))
    ensures Entry(prev + StatesOf(ChangedRows(m, prev)), b.rank.value) == Some(StateOf(b))
       <==> forall q | q in m && Complete(q) && q.rank == b.rank :: StateOf(q) == StateOf(b)
  {
    if q :| q in m && Complete(q) && q.rank == b.rank {
      forall o | o in m && Complete(o) && o.rank == q.rank ensures o == q { SameRankSameRow(m, o, q); }
      NextOfOnly(m, prev, q);
    } else {
      NextOfUnlisted(m, prev, b.rank.value);
    }
  }

  lemma LandedRanks(id: PublicId, s: View, step: Step)
    requires Ticks(id, s, step) && step.outcome.ChaptersFailed? && !step.onlyWorldBloom
    ensures step.after.ranks == s.ranks + StatesOf(ChangedRows(step.data.rankings, s.ranks)) && step.after.borderHash == s.borderHash
  {
    hide EventCommitted, OnlyUsers, Storage.ChaptersFailed, StampsGrow, Lists;
  }

  // ------------------------------------------------------- such a run is there

  function BorderAt(hash: int): seq<Player> {
    if hash == 9 then [W.Leader(10)] else if hash == 10 then [W.Leader(20)] else []
  }

  function Response(hash: int): Payload {
    Payload([], BorderAt(hash), hash, [], [])
  }

  /** Rank 1 is first merged with score 10, */
  function Merges(): Step {
    var a := W.FirstTick();
    Step(Response(9), a.data, false, true, 4, a.outcome, a.log, W.FirstView())
  }

  function AfterTwo(): Tables {
    Tables(W.AfterFirst(5).users, map[1 := 5, 2 := 15],
           RankingRows(map[RowKey(1, 1) := Standing(1, 10), RowKey(2, 1) := Standing(1, 20)], map[]))
  }

  function ViewTwo(): View {
    View(AfterTwo(), map[1 := RankState(7, 20)], map[], map[], Some(9))
  }

  /** then with score 20 by a tick whose chapter part fails, */
  function Fails(): Step {
    var rec := RecordOf(15, W.Leader(20));
    Step(Response(10), HandledData(15, [W.Leader(20)], map[3 := [W.Leader(20)]], Some(10)), false, true, 14, Outcome.ChaptersFailed,
         PersistLog([rec], [ChapterRecord(rec, 3)], [3], AfterTwo(), AfterTwo(), 0, [AfterTwo().rows]), ViewTwo())
  }

  /** and when score 10 comes back, nothing is merged. */
  function Skips(): Step {
    Step(Response(9), HandledData(25, [], map[], None), false, false, 24, Persisted(false),
         PersistLog([], [], [], AfterTwo(), AfterTwo(), 0, []), ViewTwo())
  }

  lemma OneRowMerges(p: Player)
    requires p.rank.Some?
    ensures Merged([], [p]) == [p] && DistinctRanks([p])
  {
    assert [p][..0] == [];
    assert Outside({}, []) == [];
    assert RanksOf([]) == {};
    assert [] + [p] == [p];
  }

  lemma ResponsesFit(hash: int)
    requires hash == 9 || hash == 10
    ensures Fits(Response(hash), BorderAt, {})
  {
    OneRowMerges(BorderAt(hash)[0]);
  }

  lemma FirstTicks()
    ensures Ticks(W.NO_IDS, SparseLog.Start(), Merges())
  {
    W.FirstActs();
    OneRowMerges(W.Leader(10));
    hide Ticked, Merged;
  }

  lemma SecondLands()
    ensures var a := Fails();
            MainLanded(W.NO_IDS, a.data, false, a.log.records, W.FirstView().tables, AfterTwo(), W.FirstView().ranks, ViewTwo().ranks)
  {
    var prev := map[1 := RankState(7, 10)];
    W.LeaderChanges(20, prev);
    W.LeaderRecords(15, 20);
    SecondCommits();
    hide EventCommitted, ChangedRows, StatesOf, FirstNamed, MainLanded, AfterTwo;
    assert prev + map[1 := RankState(7, 20)] == map[1 := RankState(7, 20)];
    W.OneRecordLands(W.NO_IDS, Fails().data, [W.Leader(20)], RecordOf(15, W.Leader(20)), W.FirstView().tables, AfterTwo(), prev, ViewTwo().ranks);
  }

  lemma SecondCommits()
    ensures EventCommitted(W.NO_IDS, W.FirstView().tables, AfterTwo(), [RecordOf(15, W.Leader(20))])
  {
    var rec := RecordOf(15, W.Leader(20));
    var was, now := W.AfterFirst(5), AfterTwo();
    W.LeaderDims(rec);
    assert TimesOf([rec]) == {15};
    assert 2 in now.stamps && now.stamps[2] == 15;
    assert HasStamp(now.stamps, 15);
    var rows := EventRows(now.stamps, now.users, [rec]);
    assert rows == [(RowKey(2, 1), Standing(1, 20))] by { assert rows[0] == EventRow(now.stamps, now.users, rec); }
    assert rows[..0] == [];
    assert InsertAll(was.rows.event, []) == was.rows.event;
    assert InsertAll(was.rows.event, rows) == now.rows.event;
  }

  lemma SecondFails()
    ensures var rec := RecordOf(15, W.Leader(20));
            && RowsOf(15, [3], map[3 := [W.Leader(20)]], true, map[], map[]) == [ChapterRecord(rec, 3)]
            && Storage.ChaptersFailed(W.NO_IDS, AfterTwo(), AfterTwo(), [ChapterRecord(rec, 3)], map[], map[], map[], map[])
  {
    var p := W.Leader(20);
    assert [p][..0] == [] && [3][..0] == [];
    assert RowsOfChapter(15, 3, [], true, map[], map[]) == [];
    assert RowsOfChapter(15, 3, [p], true, map[], map[]) == [ChapterRecord(RecordOf(15, p), 3)];
    assert RowsOf(15, [], map[3 := [p]], true, map[], map[]) == [];
  }

  lemma FailedTick(id: PublicId, s: View, step: Step)
    requires Handled(step.payload, step.data.recordTime, s.borderHash, step.data)
    requires MainLanded(id, step.data, step.onlyWorldBloom, step.log.records, s.tables, step.log.afterMain, s.ranks, step.after.ranks)
    requires step.log.rows == RowsOf(step.data.recordTime, step.log.order, step.data.chapters, true, s.memo, s.chapters)
    requires forall c :: c in step.log.order <==> c in step.data.chapters
    requires step.outcome.ChaptersFailed? && step.after.borderHash == s.borderHash
    requires Storage.ChaptersFailed(id, step.log.afterMain, step.after.tables, step.log.rows, s.chapters, step.after.chapters, s.memo, step.after.memo)
    ensures Ticks(id, s, step)
  {
    hide Handled, MainLanded, Storage.ChaptersFailed, RowsOf;
  }

  lemma SecondShape()
    ensures var step := Fails(); var s := W.FirstView();
            && Handled(step.payload, step.data.recordTime, s.borderHash, step.data)
            && (forall c :: c in step.log.order <==> c in step.data.chapters)
            && step.outcome.ChaptersFailed? && step.after.borderHash == s.borderHash
  {
    OneRowMerges(W.Leader(20));
    hide Merged;
  }

  lemma SecondParts()
    ensures var step := Fails(); var s := W.FirstView();
            && MainLanded(W.NO_IDS, step.data, step.onlyWorldBloom, step.log.records, s.tables, step.log.afterMain, s.ranks, step.after.ranks)
            && step.log.rows == RowsOf(step.data.recordTime, step.log.order, step.data.chapters, true, s.memo, s.chapters)
            && Storage.ChaptersFailed(W.NO_IDS, step.log.afterMain, step.after.tables, step.log.rows, s.chapters, step.after.chapters, s.memo, step.after.memo)
  {
    SecondLands();
    SecondFails();
    hide MainLanded, Storage.ChaptersFailed, RowsOf, AfterTwo;
  }

  lemma SecondTicks()
    ensures Ticks(W.NO_IDS, W.FirstView(), Fails())
  {
    hide MainLanded, Storage.ChaptersFailed, RowsOf, Handled, Ticks, Fails, W.FirstView;
    SecondShape();
    SecondParts();
    FailedTick(W.NO_IDS, W.FirstView(), Fails());
  }

  lemma ThirdTicks()
    ensures Ticks(W.NO_IDS, ViewTwo(), Skips())
  {
    assert RowsOf(25, [], map[], true, map[], map[]) == [];
    assert ChangedRows([], ViewTwo().ranks) == [] && StatesOf([]) == map[] && FirstNamed(25, []) == map[];
    assert ViewTwo().ranks + map[] == ViewTwo().ranks;
  }

  lemma FirstHolds()
    ensures HoldsBorder(W.FirstView(), BorderAt, {})
  {
  }

  lemma SkippedShape()
    ensures var step := Fails(); var p := Skips().payload;
            && step.outcome.ChaptersFailed? && !step.onlyWorldBloom && step.data.borderCache.Some? && DistinctRanks(step.payload.top100)
            && W.FirstView().borderHash == Some(p.borderHash) && Skips().data.rankings == p.top100
  {
  }

  lemma SkippedRow()
    ensures var b, q := W.Leader(10), W.Leader(20); var p := Skips().payload; var m := Fails().payload;
            && b in p.border && Adds(p.top100, b) && q in Merged(m.top100, m.border)
            && Complete(q) && q.rank == b.rank && StateOf(q) != StateOf(b)
  {
    OneRowMerges(W.Leader(20));
    assert RanksOf([]) == {};
  }

  lemma SkippedChange()
    ensures var p := Skips().payload; var prev := Fails().after.ranks;
            ChangedRows(Skips().data.rankings, prev) != ChangedRows(Merged(p.top100, p.border), prev)
  {
    hide *;
    SecondTicks();
    ResponsesAllFit();
    FirstHolds();
    SkippedShape();
    SkippedRow();
    SkipAfterChapterFailureIff(W.NO_IDS, W.FirstView(), BorderAt, {}, Fails(), Skips().payload);
  }

  lemma ResponsesAllFit()
    ensures Fits(Merges().payload, BorderAt, {}) && Fits(Fails().payload, BorderAt, {}) && Fits(Skips().payload, BorderAt, {})
  {
    ResponsesFit(9);
    ResponsesFit(10);
    hide Fits;
  }

  /** A run from nothing on which a skipped merge loses a change: rank 1 goes to 20
      in a tick whose chapter part fails, and back to 10 unnoticed. */
  lemma ChapterFailureBreaksTheSkip()
    ensures Ticks(W.NO_IDS, SparseLog.Start(), Merges()) && Ticks(W.NO_IDS, Merges().after, Fails()) && Ticks(W.NO_IDS, Fails().after, Skips())
    ensures Fits(Merges().payload, BorderAt, {}) && Fits(Fails().payload, BorderAt, {}) && Fits(Skips().payload, BorderAt, {})
    ensures Skips().data.borderCache.None?
    ensures var p := Skips().payload; var prev := Fails().after.ranks;
            ChangedRows(Skips().data.rankings, prev) != ChangedRows(Merged(p.top100, p.border), prev)
  {
    hide Ticks, Fits, ChangedRows, Merged;
    FirstTicks();
    SecondTicks();
    ThirdTicks();
    ResponsesAllFit();
    SkippedChange();
  }
}
