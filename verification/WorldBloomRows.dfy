/** World Bloom chapters: which ones a tick tracks, and the records it builds for
    them.  The pre-diff drops rows whose user's key is remembered and whose score
    and rank are those of the state. */
module WorldBloomRows {
  import opened RankingTables
  import opened RankDiff
  import opened Storage
  import U = UserTable

  datatype EventStatus = NotStarted | Ongoing | Aggregating | Ended

  datatype Chapter = Chapter(characterId: Option<int>, aggregating: bool, rankings: seq<Player>)
  datatype ChapterBorder = ChapterBorder(characterId: Option<int>, rankings: seq<Player>)

  type ChapterRankings = map<int, seq<Player>>

  // ----------------------------------------------------------------- extract

  predicate Tracks(statuses: map<int, EventStatus>, ended: map<int, bool>, c: int) {
    && c in statuses
    && (statuses[c].Ongoing? || (statuses[c].Ended? && !(c in ended && ended[c])))
  }

  function ProcessChapter(chapter: Chapter, statuses: map<int, EventStatus>, ended: map<int, bool>): Option<(int, seq<Player>)> {
    if chapter.characterId.None? || chapter.characterId.value !in statuses || chapter.aggregating then None
    else if Tracks(statuses, ended, chapter.characterId.value) && chapter.rankings != [] then
      Some((chapter.characterId.value, chapter.rankings))
    else None
  }

  /** The last border listed for `c` is the one that counts. */
  function LastBorder(borders: seq<ChapterBorder>, c: int): Option<seq<Player>> {
    if borders == [] then None
    else
      var last := borders[|borders| - 1];
      if last.characterId == Some(c) then Some(last.rankings) else LastBorder(borders[..|borders| - 1], c)
  }

  function At(m: ChapterRankings, c: int): Option<seq<Player>> {
    if c in m then Some(m[c]) else None
  }

  function OrEmpty(rows: Option<seq<Player>>): seq<Player> {
    if rows.Some? then rows.value else []
  }

  method CollectBorders(borders: seq<ChapterBorder>) returns (byChar: ChapterRankings)
    ensures forall c :: At(byChar, c) == LastBorder(borders, c)
  {
    byChar := map[];
    for j := 0 to |borders|
      invariant forall c :: At(byChar, c) == LastBorder(borders[..j], c)
    {
      assert borders[..j + 1][..j] == borders[..j];
      if borders[j].characterId.Some? { byChar := byChar[borders[j].characterId.value := borders[j].rankings]; }
    }
    assert borders[..|borders|] == borders;
  }

  predicate TrackedAs(chapter: Chapter, statuses: map<int, EventStatus>, ended: map<int, bool>, c: int) {
    chapter.characterId == Some(c) && ProcessChapter(chapter, statuses, ended).Some?
  }

  /** The last chapter of the payload that reaches the tick as `c`. */
  function LastTracked(chapters: seq<Chapter>, statuses: map<int, EventStatus>, ended: map<int, bool>, c: int): (i: Option<nat>)
    ensures i.Some? ==> i.value < |chapters| && TrackedAs(chapters[i.value], statuses, ended, c)
    ensures forall k | (if i.Some? then i.value + 1 else 0) <= k < |chapters| :: !TrackedAs(chapters[k], statuses, ended, c)
  {
    if chapters == [] then None
    else
      var n := |chapters| - 1;
      if TrackedAs(chapters[n], statuses, ended, c) then Some(n)
      else
        var i := LastTracked(chapters[..n], statuses, ended, c);
        assert forall k | 0 <= k < n :: chapters[..n][k] == chapters[k];
        i
  }

  /** It wins, and it is merged with the border listed for `c` if it is also the first. */
  function Extracted(chapters: seq<Chapter>, borders: seq<ChapterBorder>, statuses: map<int, EventStatus>,
                     ended: map<int, bool>, c: int): Option<seq<Player>> {
    match LastTracked(chapters, statuses, ended, c)
    case None => None
    case Some(i) =>
      var border := LastBorder(borders, c);
      var first := LastTracked(chapters[..i], statuses, ended, c).None?;
      Some(Merged(chapters[i].rankings, if first then OrEmpty(border) else []))
  }

  /** Chapters not in the status map, aggregating, not started, or already
      finalised never reach the tick; of the others one per character does. */
  method ExtractWorldBloomRankings(chapters: seq<Chapter>, borders: seq<ChapterBorder>,
                                   statuses: map<int, EventStatus>, ended: map<int, bool>)
    returns (out: ChapterRankings)
    ensures forall c | c in out :: Tracks(statuses, ended, c)
    ensures forall c :: At(out, c) == Extracted(chapters, borders, statuses, ended, c)
  {
    hide Merged, Extracted, LastTracked, LastBorder;
    out := map[];
    var left := CollectBorders(borders);
    NothingExtracted(borders, statuses, ended);
    assert chapters[..0] == [];
    for n := 0 to |chapters|
      invariant forall c :: At(left, c) == if LastTracked(chapters[..n], statuses, ended, c).Some? then None else LastBorder(borders, c)
      invariant forall c | c in out :: Tracks(statuses, ended, c)
      invariant forall c :: At(out, c) == Extracted(chapters[..n], borders, statuses, ended, c)
    {
      var tracked := ProcessChapter(chapters[n], statuses, ended);
      ghost var out0, left0 := out, left;
      if tracked.Some? {
        var (c, rankings) := tracked.value;
        var border := OrEmpty(At(left, c));
        left := left - {c};
        var merged := MergeRankings(rankings, border);
        out := out[c := merged];
      }
      forall c
        ensures At(left, c) == if LastTracked(chapters[..n + 1], statuses, ended, c).Some? then None else LastBorder(borders, c)
        ensures At(out, c) == Extracted(chapters[..n + 1], borders, statuses, ended, c)
      {
        assert At(left0, c) == if LastTracked(chapters[..n], statuses, ended, c).Some? then None else LastBorder(borders, c);
        assert At(out0, c) == Extracted(chapters[..n], borders, statuses, ended, c);
        ExtractedNext(chapters, borders, statuses, ended, n, c);
      }
    }
    assert chapters[..|chapters|] == chapters;
  }

  lemma NothingExtracted(borders: seq<ChapterBorder>, statuses: map<int, EventStatus>, ended: map<int, bool>)
    ensures forall c :: LastTracked([], statuses, ended, c).None? && Extracted([], borders, statuses, ended, c).None?
  {
  }

  lemma ExtractedNext(chapters: seq<Chapter>, borders: seq<ChapterBorder>, statuses: map<int, EventStatus>,
                      ended: map<int, bool>, n: nat, c: int)
    requires n < |chapters|
    ensures var was := LastTracked(chapters[..n], statuses, ended, c);
            LastTracked(chapters[..n + 1], statuses, ended, c) == if TrackedAs(chapters[n], statuses, ended, c) then Some(n) else was
    ensures Extracted(chapters[..n + 1], borders, statuses, ended, c)
         == if !TrackedAs(chapters[n], statuses, ended, c) then Extracted(chapters[..n], borders, statuses, ended, c)
            else
              var border := if LastTracked(chapters[..n], statuses, ended, c).Some? then None else LastBorder(borders, c);
              Some(Merged(chapters[n].rankings, OrEmpty(border)))
  {
    hide Merged, LastBorder;
    assert chapters[..n + 1][..n] == chapters[..n];
    var was := LastTracked(chapters[..n], statuses, ended, c);
    if was.Some? { assert chapters[..n + 1][..was.value] == chapters[..n][..was.value]; }
  }

  // ------------------------------------------------------------------- build

  /** The skip callback of the pre-diff. */
  predicate Skips(memo: Memo, prev: ChapterStates, c: int, uid: int, score: int, rank: int) {
    && uid in memo
    && WorldBloomKey(memo[uid], c) in prev
    && prev[WorldBloomKey(memo[uid], c)] == PlayerState(score, rank)
  }

  predicate Kept(filter: bool, memo: Memo, prev: ChapterStates, c: int, p: Player) {
    Named(p) && !(filter && Skips(memo, prev, c, p.userId.value, p.score.value, p.rank.value))
  }

  /** The records of one chapter; with `filter` off nothing is skipped. */
  function RowsOfChapter(time: int, c: int, rankings: seq<Player>, filter: bool, memo: Memo, prev: ChapterStates): seq<ChapterRecord> {
    if rankings == [] then []
    else
      var last := rankings[|rankings| - 1];
      var rest := RowsOfChapter(time, c, rankings[..|rankings| - 1], filter, memo, prev);
      if Kept(filter, memo, prev, c, last) then rest + [ChapterRecord(RecordOf(time, last), c)] else rest
  }

  function RowsOf(time: int, order: seq<int>, chapters: ChapterRankings, filter: bool, memo: Memo, prev: ChapterStates): seq<ChapterRecord> {
    if order == [] then []
    else
      var c := order[|order| - 1];
      var rest := RowsOf(time, order[..|order| - 1], chapters, filter, memo, prev);
      if c in chapters then rest + RowsOfChapter(time, c, chapters[c], filter, memo, prev) else rest
  }

  /** The rows of a chapter are the records of its kept rows. */
  lemma {:induction false} RowsOfChapterAre(time: int, c: int, rankings: seq<Player>, filter: bool, memo: Memo, prev: ChapterStates)
    ensures forall r :: r in RowsOfChapter(time, c, rankings, filter, memo, prev)
                <==> exists p :: p in rankings && Kept(filter, memo, prev, c, p) && r == ChapterRecord(RecordOf(time, p), c)
  {
    if rankings != [] {
      RowsOfChapterAre(time, c, rankings[..|rankings| - 1], filter, memo, prev);
      assert rankings == rankings[..|rankings| - 1] + [rankings[|rankings| - 1]];
    }
  }

  lemma {:induction false} RowsOfAre(time: int, order: seq<int>, chapters: ChapterRankings, filter: bool, memo: Memo, prev: ChapterStates)
    ensures forall r :: r in RowsOf(time, order, chapters, filter, memo, prev)
                <==> && r.characterId in order && r.characterId in chapters
                     && r in RowsOfChapter(time, r.characterId, chapters[r.characterId], filter, memo, prev)
  {
    if order != [] {
      var init, c := order[..|order| - 1], order[|order| - 1];
      RowsOfAre(time, init, chapters, filter, memo, prev);
      if c in chapters { RowsOfChapterAre(time, c, chapters[c], filter, memo, prev); }
      assert order == init + [c];
    }
  }

  lemma ChapterTimes(time: int, order: seq<int>, chapters: ChapterRankings, filter: bool, memo: Memo, prev: ChapterStates)
    ensures forall r | r in RowsOf(time, order, chapters, filter, memo, prev) :: r.base.timestamp == time
  {
    RowsOfAre(time, order, chapters, filter, memo, prev);
    forall r | r in RowsOf(time, order, chapters, filter, memo, prev) ensures r.base.timestamp == time {
      RowsOfChapterAre(time, r.characterId, chapters[r.characterId], filter, memo, prev);
    }
  }

  /** The chapters come in the map's iteration order, which is any order. */
  method BuildWorldBloomRows(time: int, chapters: ChapterRankings, filter: bool, memo: Memo, prev: ChapterStates)
    returns (out: seq<ChapterRecord>, ghost order: seq<int>)
    ensures forall c :: c in order <==> c in chapters
    ensures forall i, j | 0 <= i < j < |order| :: order[i] != order[j]
    ensures out == RowsOf(time, order, chapters, filter, memo, prev)
  {
    out := [];
    var ids := U.Enumerate(chapters.Keys);
    order := ids;
    for i := 0 to |ids|
      invariant out == RowsOf(time, ids[..i], chapters, filter, memo, prev)
    {
      assert ids[..i + 1][..i] == ids[..i];
      assert ids[i] in ids;
      var rows := BuildChapter(time, ids[i], chapters[ids[i]], filter, memo, prev);
      out := out + rows;
    }
    assert ids[..|ids|] == ids;
    assert forall c :: c in ids <==> c in chapters.Keys;
  }

  method BuildChapter(time: int, c: int, rankings: seq<Player>, filter: bool, memo: Memo, prev: ChapterStates)
    returns (out: seq<ChapterRecord>)
    ensures out == RowsOfChapter(time, c, rankings, filter, memo, prev)
  {
    out := [];
    for i := 0 to |rankings|
      invariant out == RowsOfChapter(time, c, rankings[..i], filter, memo, prev)
    {
      assert rankings[..i + 1][..i] == rankings[..i];
      var r := rankings[i];
      if r.rank.Some? && r.score.Some? && r.userId.Some? {
        var skip := filter && Skips(memo, prev, c, r.userId.value, r.score.value, r.rank.value);
        if !skip && r.name.Some? {
          out := out + [ChapterRecord(RecordOf(time, r), c)];
        }
      }
    }
    assert rankings[..|rankings|] == rankings;
  }
}
