/** The World Bloom log of one chapter, read by rank.  The diff compares a row with
    what is remembered of its user, so a user who is back where it last stood is
    not written again, whoever held the rank in between. */
module ChapterLog {
  import opened RankingTables
  import opened RankDiff
  import opened Storage
  import opened Tracker
  import opened WorldBloomRows
  import opened SparseLog
  import opened RestartLog
  import U = UserTable
  import X = WorldBloomExact

  /** The chapter's part of the World Bloom table, seen as a table of its own. */
  ghost function Slice(t: Tables, c: int): Tables {
    Tables(t.users, t.stamps, RankingRows(
      map k | k in t.rows.worldBloom && k.characterId == c :: RowKey(k.timeId, k.userKey) := t.rows.worldBloom[k], map[]))
  }

  lemma SliceRows(t: Tables, c: int)
    ensures forall k :: k in Slice(t, c).rows.event <==> ChapterRowKey(k.timeId, k.userKey, c) in t.rows.worldBloom
    ensures forall k | k in Slice(t, c).rows.event :: Slice(t, c).rows.event[k] == t.rows.worldBloom[ChapterRowKey(k.timeId, k.userKey, c)]
  {
    forall k: RowKey | ChapterRowKey(k.timeId, k.userKey, c) in t.rows.worldBloom
      ensures k in Slice(t, c).rows.event
    {
      var l := ChapterRowKey(k.timeId, k.userKey, c);
      assert l in t.rows.worldBloom && k == RowKey(l.timeId, l.userKey);
    }
  }

  // ----------------------------------------------------------- what is written

  /** The state of the row's user is the row's. */
  predicate Remembered(users: Users, prev: ChapterStates, c: int, p: Player) {
    && Complete(p) && p.userId.value in users
    && var key := WorldBloomKey(users[p.userId.value].key, c);
       key in prev && prev[key] == PlayerState(p.score.value, p.rank.value)
  }

  /** The rows of the payload that are not remembered, in order. */
  function Written(users: Users, prev: ChapterStates, c: int, payload: seq<Player>): seq<Player> {
    if payload == [] then []
    else
      var last := payload[|payload| - 1];
      var rest := Written(users, prev, c, payload[..|payload| - 1]);
      if Complete(last) && !Remembered(users, prev, c, last) then rest + [last] else rest
  }

  lemma {:induction false} WrittenAre(users: Users, prev: ChapterStates, c: int, payload: seq<Player>)
    ensures forall p :: p in Written(users, prev, c, payload) <==> p in payload && Complete(p) && !Remembered(users, prev, c, p)
  {
    if payload != [] {
      WrittenAre(users, prev, c, payload[..|payload| - 1]);
      assert payload == payload[..|payload| - 1] + [payload[|payload| - 1]];
    }
  }

  lemma {:induction false} WrittenDistinct(users: Users, prev: ChapterStates, c: int, payload: seq<Player>)
    requires DistinctRanks(payload) && DistinctUsers(payload)
    ensures DistinctRanks(Written(users, prev, c, payload)) && DistinctUsers(Written(users, prev, c, payload))
  {
    if payload != [] {
      var init, last := payload[..|payload| - 1], payload[|payload| - 1];
      WrittenDistinct(users, prev, c, init);
      WrittenAre(users, prev, c, init);
      var rest := Written(users, prev, c, init);
      forall k | 0 <= k < |rest| && Complete(last) ensures rest[k].rank != last.rank && rest[k].userId != last.userId {
        assert rest[k] in init;
        var i :| 0 <= i < |init| && init[i] == rest[k];
        assert payload[i] == rest[k];
      }
    }
  }

  lemma {:induction false} ChangedChaptersAre(users: Users, prev: ChapterStates, records: seq<ChapterRecord>)
    requires Known(users, records)
    ensures forall r :: r in ChangedChapters(users, prev, records)
                   <==> r in records && r.base.userId in users && ChapterChanged(users, prev, r)
  {
    if records != [] {
      var init, last := records[..|records| - 1], records[|records| - 1];
      ChangedChaptersAre(users, prev, init);
      assert records == init + [last];
      assert forall r | r in init :: exists i :: 0 <= i < |init| && records[i] == r;
    }
  }

  /** The states belong to stored users. */
  ghost predicate StatesOwned(states: ChapterStates, users: Users) {
    forall key | key in states :: HasOwner(users, key.userKey)
  }

  /** Keys stay and stay distinct. */
  ghost predicate KeysStay(was: Users, now: Users) {
    U.Injective(now) && forall u | u in was :: u in now && now[u].key == was[u].key
  }

  /** Whether a row is remembered does not depend on users stored since. */
  lemma RememberedStays(was: Users, now: Users, states: ChapterStates, c: int, p: Player)
    requires KeysStay(was, now) && StatesOwned(states, was)
    ensures Remembered(was, states, c, p) <==> Remembered(now, states, c, p)
  {
    if Remembered(was, states, c, p) {
      var u := p.userId.value;
      assert u in was;
      assert u in now && now[u].key == was[u].key;
    }
    if Remembered(now, states, c, p) {
      var u := p.userId.value;
      var key := WorldBloomKey(now[u].key, c);
      assert HasOwner(was, key.userKey);
      var o :| o in was && was[o].key == key.userKey;
      assert o in now && now[o].key == now[u].key;
      assert o == u;
    }
  }

  /** The record built for a row changes the states exactly if the row is not remembered. */
  lemma RecordChanges(users: Users, states: ChapterStates, c: int, p: Player, time: int)
    requires Named(p) && p.userId.value in users
    ensures ChapterChanged(users, states, ChapterRecord(RecordOf(time, p), c)) <==> !Remembered(users, states, c, p)
  {
  }

  // ---------------------------------------------------------------- one landing

  /** The pre-diff and the diff together send the rows that are not remembered. */
  lemma SentRows(time: int, order: seq<int>, chapters: ChapterRankings, memo: Memo, prev: ChapterStates,
                 was: Users, now: Users, c: int, p: Player)
    requires X.MemoHolds(memo, was) && StatesOwned(prev, was) && KeysStay(was, now)
    requires (forall d :: d in order <==> d in chapters) && c in chapters && p in chapters[c] && Named(p)
    requires Known(now, RowsOf(time, order, chapters, true, memo, prev)) && !Remembered(was, prev, c, p)
    ensures var r := ChapterRecord(RecordOf(time, p), c);
            r in ChangedChapters(now, prev, RowsOf(time, order, chapters, true, memo, prev))
  {
    var rows := RowsOf(time, order, chapters, true, memo, prev);
    var r := ChapterRecord(RecordOf(time, p), c);
    RowsOfAre(time, order, chapters, true, memo, prev);
    RowsOfChapterAre(time, c, chapters[c], true, memo, prev);
    assert Kept(true, memo, prev, c, p);
    assert r in rows;
    var i :| 0 <= i < |rows| && rows[i] == r;
    assert r.base.userId in now;
    RememberedStays(was, now, prev, c, p);
    RecordChanges(now, prev, c, p, time);
    ChangedChaptersAre(now, prev, rows);
  }

  lemma SentFrom(time: int, order: seq<int>, chapters: ChapterRankings, memo: Memo, prev: ChapterStates,
                 was: Users, now: Users, r: ChapterRecord) returns (p: Player)
    requires StatesOwned(prev, was) && KeysStay(was, now)
    requires Known(now, RowsOf(time, order, chapters, true, memo, prev))
    requires r in ChangedChapters(now, prev, RowsOf(time, order, chapters, true, memo, prev))
    ensures r.characterId in chapters && p in chapters[r.characterId] && Named(p) && r.base == RecordOf(time, p)
    ensures !Remembered(was, prev, r.characterId, p) && r.base.userId in now
  {
    var c := r.characterId;
    ChangedChaptersAre(now, prev, RowsOf(time, order, chapters, true, memo, prev));
    RowsOfAre(time, order, chapters, true, memo, prev);
    RowsOfChapterAre(time, c, chapters[c], true, memo, prev);
    p :| p in chapters[c] && Kept(true, memo, prev, c, p) && r == ChapterRecord(RecordOf(time, p), c);
    RememberedStays(was, now, prev, c, p);
    RecordChanges(now, prev, c, p, time);
  }

  lemma ChaptersGrow(id: PublicId, rows: seq<ChapterRecord>, was: Tables, now: Tables, time: int,
                     prev: ChapterStates, next: ChapterStates, memo: Memo, fed: Memo, inserted: nat)
    requires Sound(was) && ChaptersLanded(id, rows, was, now, prev, next, memo, fed, inserted)
    requires forall r | r in rows :: r.base.timestamp == time
    ensures Quiet(was, now, time) && KeysStay(was.users, now.users) && Known(now.users, rows)
    ensures var changed := ChangedChapters(now.users, prev, rows);
            && next == ChapterStatesOf(now.users, prev, changed)
            && (changed == [] ==> now.rows.worldBloom == was.rows.worldBloom)
            && (changed != [] ==> ChaptersCommitted(was, now, TimesOf(Bases(rows)), changed))
  {
    ChaptersAreQuiet(id, rows, was, now, time, prev, next, memo, fed, inserted);
  }

  /** A row of the slice that was not there comes from a row of the payload. */
  lemma NewSliceRow(was: Tables, now: Tables, times: set<int>, changed: seq<ChapterRecord>, c: int, k: RowKey) returns (r: ChapterRecord)
    requires ChaptersCommitted(was, now, times, changed)
    requires k in Slice(now, c).rows.event && k !in Slice(was, c).rows.event
    ensures r in changed && r.characterId == c && HasStamp(now.stamps, r.base.timestamp) && r.base.userId in now.users
    ensures k == RowKey(IdAt(now.stamps, r.base.timestamp), now.users[r.base.userId].key)
    ensures Slice(now, c).rows.event[k] == Standing(r.base.rank, r.base.score)
  {
    hide StampsGrow;
    SliceRows(was, c);
    SliceRows(now, c);
    var l := ChapterRowKey(k.timeId, k.userKey, c);
    var rows := ChapterRows(now.stamps, now.users, changed);
    InsertedRows(was.rows.worldBloom, rows);
    assert (l, now.rows.worldBloom[l]) in rows;
    var i :| 0 <= i < |rows| && rows[i] == (l, now.rows.worldBloom[l]);
    r := changed[i];
    assert rows[i] == ChapterRow(now.stamps, now.users, r);
  }

  lemma SentKey(was: Tables, now: Tables, times: set<int>, changed: seq<ChapterRecord>, r: ChapterRecord) returns (k: RowKey)
    requires ChaptersCommitted(was, now, times, changed) && r in changed
    ensures k in Slice(now, r.characterId).rows.event && HasStamp(now.stamps, r.base.timestamp) && r.base.userId in now.users
    ensures k == RowKey(IdAt(now.stamps, r.base.timestamp), now.users[r.base.userId].key)
  {
    hide StampsGrow;
    SliceRows(now, r.characterId);
    var rows := ChapterRows(now.stamps, now.users, changed);
    InsertedRows(was.rows.worldBloom, rows);
    var i :| 0 <= i < |changed| && changed[i] == r;
    assert Bases(changed)[i] == r.base;
    assert rows[i] == ChapterRow(now.stamps, now.users, r) && rows[i] in rows;
    k := RowKey(rows[i].0.timeId, rows[i].0.userKey);
  }

  lemma SliceGrows(was: Tables, now: Tables, c: int, time: int)
    requires Quiet(was, now, time) && forall k | k in was.rows.worldBloom :: k in now.rows.worldBloom && now.rows.worldBloom[k] == was.rows.worldBloom[k]
    ensures Sound(Slice(now, c)) && Grows(Slice(was, c), Slice(now, c)) && NewStamps(Slice(was, c).stamps, Slice(now, c).stamps, time)
  {
    SliceRows(was, c);
    SliceRows(now, c);
  }

  lemma SliceSame(was: Tables, now: Tables, c: int)
    requires now.rows.worldBloom == was.rows.worldBloom
    ensures Slice(now, c).rows == Slice(was, c).rows
  {
  }

  /** The payload's part for the chapter, or nothing. */
  function PayloadOf(chapters: ChapterRankings, c: int): seq<Player> {
    if c in chapters then chapters[c] else []
  }

  /** A World Bloom phase lands in the slice as the rows that were not remembered. */
  lemma ChapterLanding(id: PublicId, time: int, order: seq<int>, chapters: ChapterRankings, c: int, was: Tables, now: Tables,
                       prev: ChapterStates, next: ChapterStates, memo: Memo, fed: Memo, inserted: nat)
    requires ChaptersLanded(id, RowsOf(time, order, chapters, true, memo, prev), was, now, prev, next, memo, fed, inserted)
    requires Sound(was) && X.MemoHolds(memo, was.users) && StatesOwned(prev, was.users)
    requires forall d :: d in order <==> d in chapters
    ensures Landing(Slice(was, c), Slice(now, c), time, Written(was.users, prev, c, PayloadOf(chapters, c)))
  {
    hide ChaptersLanded, RowsOf, ChangedChapters, ChaptersCommitted, Written, FirstNamed, Slice, X.MemoHolds, StatesOwned;
    var rows := RowsOf(time, order, chapters, true, memo, prev);
    var written := Written(was.users, prev, c, PayloadOf(chapters, c));
    ChapterTimes(time, order, chapters, true, memo, prev);
    ChaptersGrow(id, rows, was, now, time, prev, next, memo, fed, inserted);
    var changed := ChangedChapters(now.users, prev, rows);
    assert forall k | k in was.rows.worldBloom :: k in now.rows.worldBloom && now.rows.worldBloom[k] == was.rows.worldBloom[k] by {
      if changed != [] { CommittedKeeps(was, now, TimesOf(Bases(rows)), changed); }
    }
    SliceGrows(was, now, c, time);
    WrittenAre(was.users, prev, c, PayloadOf(chapters, c));
    forall k | k in Slice(now, c).rows.event && k !in Slice(was, c).rows.event
      ensures exists p :: p in written && Holds(Slice(now, c), time, p, k)
    {
      if changed == [] { SliceSame(was, now, c); }
      var r := NewSliceRow(was, now, TimesOf(Bases(rows)), changed, c, k);
      var p := SentFrom(time, order, chapters, memo, prev, was.users, now.users, r);
      SliceHas(now, c);
    }
    forall u | u in FirstNamed(time, written) ensures exists k :: Taken(Slice(now, c), time, u, k) {
      var p :| p in written && Named(p) && p.userId.value == u;
      SentRows(time, order, chapters, memo, prev, was.users, now.users, c, p);
      var k := SentKey(was, now, TimesOf(Bases(rows)), changed, ChapterRecord(RecordOf(time, p), c));
      SliceHas(now, c);
      assert Taken(Slice(now, c), time, u, k);
    }
  }

  lemma SliceHas(t: Tables, c: int)
    ensures Slice(t, c).users == t.users && Slice(t, c).stamps == t.stamps
  {
  }

  lemma CommittedKeeps(was: Tables, now: Tables, times: set<int>, changed: seq<ChapterRecord>)
    requires ChaptersCommitted(was, now, times, changed)
    ensures forall k | k in was.rows.worldBloom :: k in now.rows.worldBloom && now.rows.worldBloom[k] == was.rows.worldBloom[k]
  {
  }

  // ------------------------------------------------------- one payload, exactly

  /** The slice, read with any cutoff, is the dense history. */
  ghost predicate SliceRefines(t: Tables, h: seq<Seen>, clock: int) {
    && Tidy(t, clock) && Settled(h, clock)
    && forall r, cutoff :: Answers(t, r, cutoff, LastSeen(h, r, cutoff))
  }

  lemma AnswersAreOne(t: Tables, r: int, a: Option<RankState>, b: Option<RankState>)
    requires Sound(t) && Answers(t, r, None, a) && Answers(t, r, None, b)
    ensures a == b
  {
    if a.Some? {
      var k := RowOf(t, r, None, a.value);
      assert IsLatest(t, r, None, k) && Candidate(t, r, None, k);
      if b.Some? { var l := RowOf(t, r, None, b.value); }
    }
  }

  /** What the history says of a rank once the payload is part of it. */
  lemma SeenNext(h: seq<Seen>, time: int, payload: seq<Player>, r: int, cutoff: Option<int>)
    requires DistinctRanks(payload)
    ensures var g := h + [Seen(time, payload)];
            && (cutoff.Some? && cutoff.value < time ==> LastSeen(g, r, cutoff) == LastSeen(h, r, cutoff))
            && ((forall p | p in payload && Complete(p) :: p.rank.value != r) ==> LastSeen(g, r, cutoff) == LastSeen(h, r, cutoff))
            && (forall p | p in payload && Complete(p) && p.rank.value == r && (cutoff.Some? ==> time <= cutoff.value) ::
                  LastSeen(g, r, cutoff) == Some(StateOf(p)))
  {
    hide DistinctRanks;
    var g := h + [Seen(time, payload)];
    assert g[..|g| - 1] == h;
    StatesAre(payload);
    forall p | p in payload && Complete(p) && p.rank.value == r ensures StatesOf(payload)[r] == StateOf(p) { StateAt(payload, p); }
  }

  lemma CleanMeans(payload: seq<Player>)
    requires Clean(payload)
    ensures DistinctRanks(payload)
  {
  }

  lemma SliceMeans(t: Tables, h: seq<Seen>, clock: int)
    requires SliceRefines(t, h, clock)
    ensures Tidy(t, clock) && Settled(h, clock) && forall r, cutoff :: Answers(t, r, cutoff, LastSeen(h, r, cutoff))
  {
  }

  lemma SliceIs(t: Tables, h: seq<Seen>, clock: int)
    requires Tidy(t, clock) && Settled(h, clock) && forall r, cutoff :: Answers(t, r, cutoff, LastSeen(h, r, cutoff))
    ensures SliceRefines(t, h, clock)
  {
  }

  lemma SettledNext(h: seq<Seen>, clock: int, time: int, payload: seq<Player>)
    requires Settled(h, clock) && clock <= time
    ensures Settled(h + [Seen(time, payload)], time)
  {
  }

  lemma SliceAnswers(was: Tables, now: Tables, h: seq<Seen>, clock: int, time: int, payload: seq<Player>, rows: seq<Player>,
                     r: int, cutoff: Option<int>)
    requires SliceRefines(was, h, clock) && clock <= time && Tidy(was, time) && Tidy(now, time)
    requires DistinctRanks(payload) && Part(rows, payload) && Landing(was, now, time, rows)
    requires forall p | p in payload && Complete(p) :: AnswersRow(now, p)
    ensures Answers(now, r, cutoff, LastSeen(h + [Seen(time, payload)], r, cutoff))
  {
    hide Tidy, Landing, Answers, LastSeen, SliceRefines;
    var g := h + [Seen(time, payload)];
    SliceMeans(was, h, clock);
    SettledNext(h, clock, time, payload);
    TidyMeans(was, time);
    TidyMeans(now, time);
    LandingGrows(was, now, time, rows);
    SeenNext(h, time, payload, r, cutoff);
    SeenNext(h, time, payload, r, None);
    assert Answers(was, r, cutoff, LastSeen(h, r, cutoff)) && Answers(was, r, None, LastSeen(h, r, None));
    if cutoff.Some? && cutoff.value < time {
      EarlyCutoff(was, now, r, cutoff.value, LastSeen(h, r, cutoff), time, rows);
    } else {
      if p :| p in payload && Complete(p) && p.rank.value == r {
        assert AnswersRow(now, p);
      } else {
        UnwrittenRank(was, now, time, rows, r);
        CarryAnswer(was, now, r, None, LastSeen(h, r, None));
      }
      if cutoff.Some? {
        SeenLate(g, r, cutoff.value);
        LateCutoff(now, r, cutoff.value, LastSeen(g, r, None));
      }
    }
  }

  // --------------------------------------------------------------------- acts

  /** No row of the slice changed. */
  ghost predicate Calm(was: Tables, now: Tables) {
    Sound(now) && Grows(was, now) && now.rows.event == was.rows.event
  }

  lemma CalmKeeps(was: Tables, now: Tables, h: seq<Seen>, clock: int, next: int)
    requires SliceRefines(was, h, clock) && clock <= next && Tidy(now, next) && Calm(was, now)
    ensures SliceRefines(now, h, next)
  {
    hide Tidy, Answers, LastSeen;
    TidyMeans(was, clock);
    forall r, cutoff ensures Answers(now, r, cutoff, LastSeen(h, r, cutoff)) {
      assert Answers(was, r, cutoff, LastSeen(h, r, cutoff));
      CarryAnswer(was, now, r, cutoff, LastSeen(h, r, cutoff));
    }
  }

  lemma CalmSame(was: Tables, now: Tables, p: Player)
    requires Calm(was, now) && Referential(was) && Complete(p)
    ensures AnswersRow(was, p) <==> AnswersRow(now, p)
  {
    hide Answers;
    if AnswersRow(was, p) { CarryAnswer(was, now, p.rank.value, None, Some(StateOf(p))); }
    if AnswersRow(now, p) { CarryBack(was, now, p.rank.value, StateOf(p)); }
  }

  lemma CalmRefers(was: Tables, now: Tables, time: int)
    requires Calm(was, now) && Referential(was)
    ensures Referential(now) && (NoneAt(was, time) ==> NoneAt(now, time))
  {
    forall k | k in now.rows.event ensures HasOwner(now.users, k.userKey) && k.timeId in now.stamps {
      var u :| u in was.users && was.users[u].key == k.userKey;
      assert u in now.users && now.users[u].key == k.userKey;
    }
  }

  lemma SliceCalm(was: Tables, now: Tables, c: int)
    requires Sound(now) && Grows(was, now) && now.rows.worldBloom == was.rows.worldBloom
    ensures Calm(Slice(was, c), Slice(now, c)) && KeysStay(was.users, now.users)
  {
  }

  lemma NoRowsCalm(was: Tables, now: Tables, time: int)
    requires Landing(was, now, time, [])
    ensures Calm(was, now)
  {
    assert forall k | k in now.rows.event :: k in was.rows.event;
    assert now.rows.event == was.rows.event;
  }

  lemma SliceTidy(t: Tables, c: int, clock: int)
    requires Tidy(t, clock) && Referential(Slice(t, c))
    ensures Tidy(Slice(t, c), clock)
  {
  }

  lemma LandingRefers(was: Tables, now: Tables, time: int, rows: seq<Player>)
    requires Landing(was, now, time, rows) && Referential(was)
    ensures Referential(now)
  {
    forall k | k in now.rows.event ensures k.timeId in now.stamps && HasOwner(now.users, k.userKey) {
      if k in was.rows.event {
        var u :| u in was.users && was.users[u].key == k.userKey;
        assert u in now.users && now.users[u].key == k.userKey;
      } else {
        var p := SourceOf(was, now, time, rows, k);
        OwnedBy(now.users, p.userId.value, k.userKey);
      }
    }
  }

  /** The tables, the memo and the states of a view fit together. */
  ghost predicate Sane(c: int, s: View, clock: int) {
    && Tidy(s.tables, clock) && Referential(Slice(s.tables, c))
    && X.MemoHolds(s.memo, s.tables.users) && StatesOwned(s.chapters, s.tables.users)
  }

  /** The chapter part of a tick went through, and `c` was in it. */
  predicate ChapterLands(c: int, a: Act) {
    a.Tick? && (a.outcome.Persisted? || a.outcome.HeartbeatFailed?) && c in a.data.chapters
  }

  lemma OwnersStay(was: Users, now: Users, memo: Memo, states: ChapterStates)
    requires KeysStay(was, now) && X.MemoHolds(memo, was) && StatesOwned(states, was)
    ensures X.MemoHolds(memo, now) && StatesOwned(states, now)
  {
    forall key | key in states ensures HasOwner(now, key.userKey) {
      assert HasOwner(was, key.userKey);
      var u :| u in was && was[u].key == key.userKey;
      assert u in now && now[u].key == key.userKey;
    }
  }

  lemma MainCalm(id: PublicId, s: View, a: Act, t: View, c: int)
    requires Sound(s.tables) && a.Tick? && Acts(id, s, a, t) && !a.outcome.MainFailed?
    ensures var mid := a.log.afterMain; Calm(Slice(s.tables, c), Slice(mid, c)) && KeysStay(s.tables.users, mid.users) && Sound(mid)
  {
    hide ChaptersLanded, Storage.ChaptersFailed, StampsGrow, Landing, U.Upserted;
    MainIsLanding(id, a.data, a.onlyWorldBloom, a.log.records, s.tables, a.log.afterMain, s.ranks, t.ranks);
    LandingGrows(s.tables, a.log.afterMain, a.data.recordTime, MainRows(a.data, a.onlyWorldBloom, s.ranks));
    SliceCalm(s.tables, a.log.afterMain, c);
  }

  /** The parts of a tick whose chapter phase went through, seen in the slice. */
  ghost predicate Parts(c: int, s: View, a: Act, t: View)
    requires a.Tick?
  {
    var time, mid, post := a.data.recordTime, a.log.afterMain, a.log.afterChapters;
    && Calm(Slice(s.tables, c), Slice(mid, c)) && KeysStay(s.tables.users, mid.users)
    && Landing(Slice(mid, c), Slice(post, c), time, Written(mid.users, s.chapters, c, PayloadOf(a.data.chapters, c)))
    && Calm(Slice(post, c), Slice(t.tables, c)) && KeysStay(post.users, t.tables.users)
    && Tidy(mid, time) && Tidy(post, time) && Tidy(t.tables, time)
  }

  lemma PostCalm(id: PublicId, s: View, a: Act, t: View, c: int)
    requires a.Tick? && Acts(id, s, a, t) && !a.outcome.MainFailed? && !a.outcome.ChaptersFailed? && Sound(a.log.afterChapters)
    ensures Calm(Slice(a.log.afterChapters, c), Slice(t.tables, c)) && KeysStay(a.log.afterChapters.users, t.tables.users)
  {
    hide MainLanded, ChaptersLanded;
    SliceCalm(a.log.afterChapters, t.tables, c);
  }

  lemma ChaptersTidy(was: Tables, now: Tables, time: int)
    requires Tidy(was, time) && Quiet(was, now, time)
    ensures Tidy(now, time)
  {
    TidyMeans(was, time);
    TidyStays(was, now, time, time, time);
  }

  lemma MainTidy(id: PublicId, s: View, a: Act, t: View, clock: int)
    requires Tidy(s.tables, clock) && a.Tick? && Acts(id, s, a, t) && Timely(clock, a) && !a.outcome.MainFailed?
    ensures Tidy(a.log.afterMain, a.data.recordTime)
  {
    hide ChaptersLanded, Storage.ChaptersFailed, StampsGrow, Landing, U.Upserted, Tidy, MainLanded;
    TidyMeans(s.tables, clock);
    MainIsLanding(id, a.data, a.onlyWorldBloom, a.log.records, s.tables, a.log.afterMain, s.ranks, t.ranks);
    LandingTidy(s.tables, a.log.afterMain, a.data.recordTime, MainRows(a.data, a.onlyWorldBloom, s.ranks), clock);
  }

  lemma SaneMeans(c: int, s: View, clock: int)
    requires Sane(c, s, clock)
    ensures Tidy(s.tables, clock) && Sound(s.tables) && Referential(Slice(s.tables, c)) && Tidy(Slice(s.tables, c), clock)
    ensures X.MemoHolds(s.memo, s.tables.users) && StatesOwned(s.chapters, s.tables.users)
  {
    SliceTidy(s.tables, c, clock);
  }

  lemma TickInParts(id: PublicId, c: int, s: View, a: Act, t: View, clock: int)
    requires Sane(c, s, clock) && a.Tick? && Acts(id, s, a, t) && Timely(clock, a)
    requires !a.outcome.MainFailed? && !a.outcome.ChaptersFailed?
    ensures Parts(c, s, a, t)
    ensures X.MemoHolds(t.memo, t.tables.users) && StatesOwned(t.chapters, t.tables.users)
  {
    hide Sane, Landing, Calm, Slice, Tidy, Quiet, MainLanded, ChaptersLanded, StampsGrow, RowsOf, Written, X.MemoHolds, StatesOwned, KeysStay,
         ChaptersCommitted, ChangedChapters, ChapterStatesOf;
    var time, mid, post := a.data.recordTime, a.log.afterMain, a.log.afterChapters;
    SaneMeans(c, s, clock);
    MainCalm(id, s, a, t, c);
    MainTidy(id, s, a, t, clock);
    OwnersStay(s.tables.users, mid.users, s.memo, s.chapters);
    ChapterLanding(id, time, a.log.order, a.data.chapters, c, mid, post, s.chapters, t.chapters, s.memo, t.memo, a.log.inserted);
    ChapterTimes(time, a.log.order, a.data.chapters, true, s.memo, s.chapters);
    ChaptersGrow(id, a.log.rows, mid, post, time, s.chapters, t.chapters, s.memo, t.memo, a.log.inserted);
    ChaptersTidy(mid, post, time);
    TidyMeans(post, time);
    PostCalm(id, s, a, t, c);
    TidyAct(id, s, a, t, clock);
    PhaseOwners(id, a.log.rows, mid, post, s.chapters, t.chapters, s.memo, t.memo, a.log.inserted);
    OwnersStay(post.users, t.tables.users, t.memo, t.chapters);
  }

  /** The phase remembers stored users only. */
  lemma PhaseOwners(id: PublicId, rows: seq<ChapterRecord>, was: Tables, now: Tables,
                    prev: ChapterStates, next: ChapterStates, memo: Memo, fed: Memo, inserted: nat)
    requires Sound(was) && X.MemoHolds(memo, was.users) && StatesOwned(prev, was.users) && KeysStay(was.users, now.users)
    requires ChaptersLanded(id, rows, was, now, prev, next, memo, fed, inserted) && Known(now.users, rows)
    requires next == ChapterStatesOf(now.users, prev, ChangedChapters(now.users, prev, rows))
    ensures X.MemoHolds(fed, now.users) && StatesOwned(next, now.users)
  {
    hide ChaptersLanded, StatesOwned, X.MemoHolds, X.Phase, X.Good;
    assert X.Good(X.Side(was, prev, memo)) by { GoodSide(was, prev, memo); }
    assert X.Phase(id, rows, X.Side(was, prev, memo), X.Side(now, next, fed)) by { LandedPhase(id, rows, was, now, prev, next, memo, fed, inserted); }
    X.PhaseIsGood(id, rows, X.Side(was, prev, memo), X.Side(now, next, fed));
    SideGood(now, next, fed);
    OwnersStay(was.users, now.users, memo, prev);
    StatesOfOwned(now.users, prev, ChangedChapters(now.users, prev, rows));
  }

  lemma GoodSide(t: Tables, states: ChapterStates, memo: Memo)
    requires Sound(t) && X.MemoHolds(memo, t.users)
    ensures X.Good(X.Side(t, states, memo))
  {
  }

  lemma SideGood(t: Tables, states: ChapterStates, memo: Memo)
    requires X.Good(X.Side(t, states, memo))
    ensures X.MemoHolds(memo, t.users)
  {
  }

  lemma LandedPhase(id: PublicId, rows: seq<ChapterRecord>, was: Tables, now: Tables,
                    prev: ChapterStates, next: ChapterStates, memo: Memo, fed: Memo, inserted: nat)
    requires ChaptersLanded(id, rows, was, now, prev, next, memo, fed, inserted)
    ensures X.Phase(id, rows, X.Side(was, prev, memo), X.Side(now, next, fed))
  {
  }

  lemma {:induction false} StatesOfOwned(users: Users, prev: ChapterStates, records: seq<ChapterRecord>)
    requires Known(users, records) && StatesOwned(prev, users)
    ensures StatesOwned(ChapterStatesOf(users, prev, records), users)
  {
    if records != [] {
      var last := records[|records| - 1];
      StatesOfOwned(users, prev, records[..|records| - 1]);
      OwnedBy(users, last.base.userId, users[last.base.userId].key);
    }
  }

  lemma PartsMean(c: int, s: View, a: Act, t: View)
    requires a.Tick? && Parts(c, s, a, t)
    ensures var time, mid, post := a.data.recordTime, a.log.afterMain, a.log.afterChapters;
            && Calm(Slice(s.tables, c), Slice(mid, c)) && KeysStay(s.tables.users, mid.users)
            && Landing(Slice(mid, c), Slice(post, c), time, Written(mid.users, s.chapters, c, PayloadOf(a.data.chapters, c)))
            && Calm(Slice(post, c), Slice(t.tables, c)) && KeysStay(post.users, t.tables.users)
            && Tidy(mid, time) && Tidy(post, time) && Tidy(t.tables, time)
  {
  }

  /** The chapter part failed or was not reached: the slice is as it was. */
  lemma OtherIsCalm(id: PublicId, c: int, s: View, a: Act, t: View, clock: int)
    requires Sane(c, s, clock) && Acts(id, s, a, t) && Timely(clock, a)
    requires !a.Tick? || a.outcome.MainFailed? || a.outcome.ChaptersFailed?
    ensures Calm(Slice(s.tables, c), Slice(t.tables, c)) && X.MemoHolds(t.memo, t.tables.users) && StatesOwned(t.chapters, t.tables.users)
  {
    hide Slice, Calm, X.MemoHolds, StatesOwned, StampsGrow, Sane, Storage.ChaptersFailed;
    SaneMeans(c, s, clock);
    if a.Tick? && a.outcome.ChaptersFailed? {
      MainCalm(id, s, a, t, c);
      OwnersStay(s.tables.users, a.log.afterMain.users, s.memo, s.chapters);
      FailedOwners(id, a.log.rows, a.log.afterMain, t.tables, s.chapters, t.chapters, s.memo, t.memo);
      FailedCalm(id, a.log.rows, a.log.afterMain, t.tables, s.chapters, t.chapters, s.memo, t.memo, c);
      CalmBoth(Slice(s.tables, c), Slice(a.log.afterMain, c), Slice(t.tables, c));
    } else {
      OthersGrow(id, s, a, t);
      SliceCalm(s.tables, t.tables, c);
      OwnersStay(s.tables.users, t.tables.users, s.memo, s.chapters);
    }
  }

  lemma OthersGrow(id: PublicId, s: View, a: Act, t: View)
    requires Acts(id, s, a, t) && (!a.Tick? || a.outcome.MainFailed?)
    ensures Sound(t.tables) && Grows(s.tables, t.tables) && t.tables.rows == s.tables.rows
    ensures t.memo == s.memo && t.chapters == s.chapters
  {
  }

  lemma CalmBoth(was: Tables, mid: Tables, now: Tables)
    requires Calm(was, mid) && Calm(mid, now)
    ensures Calm(was, now)
  {
  }

  lemma FailedCalm(id: PublicId, rows: seq<ChapterRecord>, was: Tables, now: Tables,
                   prev: ChapterStates, next: ChapterStates, memo: Memo, fed: Memo, c: int)
    requires Storage.ChaptersFailed(id, was, now, rows, prev, next, memo, fed)
    ensures Calm(Slice(was, c), Slice(now, c)) && KeysStay(was.users, now.users)
  {
    SliceCalm(was, now, c);
  }

  lemma FailedOwners(id: PublicId, rows: seq<ChapterRecord>, was: Tables, now: Tables,
                     prev: ChapterStates, next: ChapterStates, memo: Memo, fed: Memo)
    requires Sound(was) && X.MemoHolds(memo, was.users) && StatesOwned(prev, was.users)
    requires Storage.ChaptersFailed(id, was, now, rows, prev, next, memo, fed)
    ensures X.MemoHolds(fed, now.users) && StatesOwned(next, now.users)
  {
    hide StatesOwned, U.Extends;
    assert KeysStay(was.users, now.users) by { FailedCalm(id, rows, was, now, prev, next, memo, fed, 0); }
    OwnersStay(was.users, now.users, memo, prev);
    if fed != memo { X.FedUsers(id, was.users, now.users, rows, memo, fed); }
  }

  lemma SaneStays(id: PublicId, c: int, s: View, a: Act, t: View, clock: int)
    requires Sane(c, s, clock) && Acts(id, s, a, t) && Timely(clock, a)
    ensures Sane(c, t, ClockAfter(clock, a))
  {
    hide Slice, Calm, X.MemoHolds, StatesOwned, Referential, Landing, Tidy, Parts, Acts;
    TidyAct(id, s, a, t, clock);
    if a.Tick? && !a.outcome.MainFailed? && !a.outcome.ChaptersFailed? {
      TickInParts(id, c, s, a, t, clock);
      PartsMean(c, s, a, t);
      var time, mid, post := a.data.recordTime, a.log.afterMain, a.log.afterChapters;
      CalmRefers(Slice(s.tables, c), Slice(mid, c), time);
      LandingRefers(Slice(mid, c), Slice(post, c), time, Written(mid.users, s.chapters, c, PayloadOf(a.data.chapters, c)));
      CalmRefers(Slice(post, c), Slice(t.tables, c), time);
    } else {
      OtherIsCalm(id, c, s, a, t, clock);
      CalmRefers(Slice(s.tables, c), Slice(t.tables, c), 0);
    }
  }

  // ------------------------------------------------------------- exact in a tick

  /** What a caller can check of a chapter's payload before the tick: its remembered
      rows are what the log answers for their ranks. */
  ghost predicate Recalled(c: int, s: View, payload: seq<Player>) {
    forall p | p in payload && Remembered(s.tables.users, s.chapters, c, p) :: AnswersRow(Slice(s.tables, c), p)
  }

  ghost predicate AnswersAll(t: Tables, payload: seq<Player>) {
    forall p | p in payload && Complete(p) :: AnswersRow(t, p)
  }

  lemma PartsAreExact(c: int, s: View, a: Act, t: View, clock: int)
    requires Sane(c, s, clock) && ChapterLands(c, a) && Parts(c, s, a, t)
    requires Clean(a.data.chapters[c]) && NoneAt(Slice(s.tables, c), a.data.recordTime)
    ensures AnswersAll(Slice(t.tables, c), a.data.chapters[c]) <==> Recalled(c, s, a.data.chapters[c])
  {
    hide Slice, Calm, Referential, Landing, Tidy, Parts, Answers, AnswersRow, NoneAt, Remembered, KeysStay, StatesOwned, Sane;
    var time, mid, post := a.data.recordTime, a.log.afterMain, a.log.afterChapters;
    var payload := a.data.chapters[c];
    var rows := Written(mid.users, s.chapters, c, payload);
    SaneMeans(c, s, clock);
    PartsMean(c, s, a, t);
    CalmRefers(Slice(s.tables, c), Slice(mid, c), time);
    SliceTidy(mid, c, time);
    LandingRefers(Slice(mid, c), Slice(post, c), time, rows);
    WrittenAre(mid.users, s.chapters, c, payload);
    WrittenDistinct(mid.users, s.chapters, c, payload);
    WrittenOrAnswered(Slice(mid, c), Slice(post, c), time, payload, rows);
    forall p | p in payload && Complete(p)
      ensures AnswersRow(Slice(t.tables, c), p) <==> AnswersRow(Slice(post, c), p)
      ensures AnswersRow(Slice(mid, c), p) <==> AnswersRow(Slice(s.tables, c), p)
      ensures p !in rows <==> Remembered(s.tables.users, s.chapters, c, p)
    {
      CalmSame(Slice(post, c), Slice(t.tables, c), p);
      CalmSame(Slice(s.tables, c), Slice(mid, c), p);
      RememberedStays(s.tables.users, mid.users, s.chapters, c, p);
    }
    assert forall p | p in payload && Remembered(s.tables.users, s.chapters, c, p) :: Complete(p) by { RememberedComplete(); }
  }

  lemma RememberedComplete()
    ensures forall users, prev, c, p :: Remembered(users, prev, c, p) ==> Complete(p)
  {
  }

  /** Exactness of one chapter's part of a tick: once a clean payload has landed,
      the chapter's log answers all of it if and only if it answered the rows whose
      users were last seen at the same rank with the same score already. */
  lemma ChapterTickIsExact(id: PublicId, c: int, s: View, a: Act, t: View, clock: int)
    requires Sane(c, s, clock) && Acts(id, s, a, t) && Timely(clock, a) && ChapterLands(c, a)
    requires Clean(a.data.chapters[c]) && NoneAt(Slice(s.tables, c), a.data.recordTime)
    ensures AnswersAll(Slice(t.tables, c), a.data.chapters[c]) <==> Recalled(c, s, a.data.chapters[c])
  {
    hide Sane, Parts, Acts, Clean, NoneAt, AnswersAll, Recalled;
    TickInParts(id, c, s, a, t, clock);
    PartsAreExact(c, s, a, t, clock);
  }

  lemma AnsweredIfRefines(t: Tables, h: seq<Seen>, time: int, payload: seq<Player>)
    requires SliceRefines(t, h + [Seen(time, payload)], time) && DistinctRanks(payload)
    ensures AnswersAll(t, payload)
  {
    hide Answers, LastSeen, Tidy;
    var g := h + [Seen(time, payload)];
    forall p | p in payload && Complete(p) ensures AnswersRow(t, p) {
      SeenNext(h, time, payload, p.rank.value, None);
      assert Answers(t, p.rank.value, None, LastSeen(g, p.rank.value, None));
    }
  }

  /** The refinement of the longer history is kept exactly then, too. */
  lemma PartsRefine(c: int, s: View, a: Act, t: View, h: seq<Seen>, clock: int)
    requires Sane(c, s, clock) && ChapterLands(c, a) && Parts(c, s, a, t) && clock <= a.data.recordTime
    requires Clean(a.data.chapters[c]) && NoneAt(Slice(s.tables, c), a.data.recordTime)
    requires SliceRefines(Slice(s.tables, c), h, clock)
    ensures SliceRefines(Slice(t.tables, c), h + [Seen(a.data.recordTime, a.data.chapters[c])], a.data.recordTime)
       <==> Recalled(c, s, a.data.chapters[c])
  {
    hide Slice, Calm, Referential, Landing, Tidy, Parts, Answers, AnswersRow, NoneAt, Remembered, KeysStay, StatesOwned, Sane, SliceRefines, Recalled, AnswersAll;
    var time, mid, post := a.data.recordTime, a.log.afterMain, a.log.afterChapters;
    var payload := a.data.chapters[c];
    var rows := Written(mid.users, s.chapters, c, payload);
    PartsAreExact(c, s, a, t, clock);
    CleanMeans(payload);
    SaneMeans(c, s, clock);
    PartsMean(c, s, a, t);
    CalmRefers(Slice(s.tables, c), Slice(mid, c), time);
    LandingRefers(Slice(mid, c), Slice(post, c), time, rows);
    CalmRefers(Slice(post, c), Slice(t.tables, c), time);
    SliceTidy(mid, c, time);
    SliceTidy(post, c, time);
    SliceTidy(t.tables, c, time);
    if SliceRefines(Slice(t.tables, c), h + [Seen(time, payload)], time) {
      AnsweredIfRefines(Slice(t.tables, c), h, time, payload);
    }
    if Recalled(c, s, payload) {
      CalmKeeps(Slice(s.tables, c), Slice(mid, c), h, clock, time);
      forall p | p in payload && Complete(p) ensures AnswersRow(Slice(post, c), p) {
        AllMeans(Slice(t.tables, c), payload, p);
        CalmSame(Slice(post, c), Slice(t.tables, c), p);
      }
      WrittenAre(mid.users, s.chapters, c, payload);
      WrittenDistinct(mid.users, s.chapters, c, payload);
      forall r, cutoff ensures Answers(Slice(post, c), r, cutoff, LastSeen(h + [Seen(time, payload)], r, cutoff)) {
        SliceAnswers(Slice(mid, c), Slice(post, c), h, time, time, payload, rows, r, cutoff);
      }
      SliceMeans(Slice(s.tables, c), h, clock);
      SettledNext(h, clock, time, payload);
      SliceIs(Slice(post, c), h + [Seen(time, payload)], time);
      CalmKeeps(Slice(post, c), Slice(t.tables, c), h + [Seen(time, payload)], time, time);
    }
  }

  lemma AllMeans(t: Tables, payload: seq<Player>, p: Player)
    requires AnswersAll(t, payload) && p in payload && Complete(p)
    ensures AnswersRow(t, p)
  {
  }

  /** And so is the refinement of the dense history. */
  lemma ChapterRefinesExactly(id: PublicId, c: int, s: View, a: Act, t: View, h: seq<Seen>, clock: int)
    requires Sane(c, s, clock) && Acts(id, s, a, t) && Timely(clock, a) && ChapterLands(c, a)
    requires Clean(a.data.chapters[c]) && NoneAt(Slice(s.tables, c), a.data.recordTime)
    requires SliceRefines(Slice(s.tables, c), h, clock)
    ensures SliceRefines(Slice(t.tables, c), h + [Seen(a.data.recordTime, a.data.chapters[c])], a.data.recordTime)
       <==> Recalled(c, s, a.data.chapters[c])
  {
    hide Sane, Parts, Acts, Clean, NoneAt, Recalled, SliceRefines, Slice;
    TickInParts(id, c, s, a, t, clock);
    PartsRefine(c, s, a, t, h, clock);
  }

  /** A tick without the chapter leaves its slice as it was. */
  lemma AbsentIsCalm(c: int, s: View, a: Act, t: View)
    requires a.Tick? && Parts(c, s, a, t) && c !in a.data.chapters
    ensures Calm(Slice(s.tables, c), Slice(t.tables, c))
  {
    hide Slice, Calm, Landing, Tidy;
    var time, mid, post := a.data.recordTime, a.log.afterMain, a.log.afterChapters;
    assert Written(mid.users, s.chapters, c, []) == [];
    NoRowsCalm(Slice(mid, c), Slice(post, c), time);
    CalmBoth(Slice(s.tables, c), Slice(mid, c), Slice(post, c));
    CalmBoth(Slice(s.tables, c), Slice(post, c), Slice(t.tables, c));
  }

  // --------------------------------------------------------------------- runs

  function ChapterHeard(c: int, h: seq<Seen>, a: Act): seq<Seen> {
    if ChapterLands(c, a) then h + [Seen(a.data.recordTime, a.data.chapters[c])] else h
  }

  function ChapterHistory(c: int, h: seq<Seen>, steps: seq<Step>): seq<Seen>
    decreases |steps|
  {
    if steps == [] then h else ChapterHistory(c, ChapterHeard(c, h, steps[0].act), steps[1..])
  }

  /** A payload that lands is clean, at an instant of its own, and recalled. */
  ghost predicate ChapterRegular(c: int, s: View, a: Act) {
    ChapterLands(c, a) ==>
      Clean(a.data.chapters[c]) && NoneAt(Slice(s.tables, c), a.data.recordTime) && Recalled(c, s, a.data.chapters[c])
  }

  ghost predicate AllChapterRegular(c: int, s: View, steps: seq<Step>)
    decreases |steps|
  {
    steps != [] ==> ChapterRegular(c, s, steps[0].act) && AllChapterRegular(c, steps[0].after, steps[1..])
  }

  lemma ChapterActKeeps(id: PublicId, c: int, s: View, a: Act, t: View, h: seq<Seen>, clock: int)
    requires Sane(c, s, clock) && Acts(id, s, a, t) && Timely(clock, a) && ChapterRegular(c, s, a)
    requires SliceRefines(Slice(s.tables, c), h, clock)
    ensures Sane(c, t, ClockAfter(clock, a)) && SliceRefines(Slice(t.tables, c), ChapterHeard(c, h, a), ClockAfter(clock, a))
  {
    hide Slice, Calm, Sane, Parts, Acts, SliceRefines, Clean, NoneAt, Recalled;
    var next := ClockAfter(clock, a);
    SaneStays(id, c, s, a, t, clock);
    SaneMeans(c, t, next);
    if ChapterLands(c, a) {
      TickInParts(id, c, s, a, t, clock);
      PartsRefine(c, s, a, t, h, clock);
    } else {
      if a.Tick? && !a.outcome.MainFailed? && !a.outcome.ChaptersFailed? {
        TickInParts(id, c, s, a, t, clock);
        AbsentIsCalm(c, s, a, t);
      } else {
        OtherIsCalm(id, c, s, a, t, clock);
      }
      CalmKeeps(Slice(s.tables, c), Slice(t.tables, c), h, clock, next);
    }
  }

  lemma {:induction false} ChapterRunKeeps(id: PublicId, c: int, s: View, clock: int, steps: seq<Step>, h: seq<Seen>)
    requires Sane(c, s, clock) && SliceRefines(Slice(s.tables, c), h, clock)
    requires Run(id, s, clock, steps) && AllChapterRegular(c, s, steps)
    ensures exists n :: SliceRefines(Slice(End(s, steps).tables, c), ChapterHistory(c, h, steps), n)
    decreases |steps|
  {
    hide Sane, SliceRefines, Slice, Acts, ChapterRegular, ChapterHeard;
    if steps == [] {
      assert SliceRefines(Slice(End(s, steps).tables, c), ChapterHistory(c, h, steps), clock);
    } else {
      ChapterActKeeps(id, c, s, steps[0].act, steps[0].after, h, clock);
      var g := ChapterHeard(c, h, steps[0].act);
      ChapterRunKeeps(id, c, steps[0].after, ClockAfter(clock, steps[0].act), steps[1..], g);
      assert End(steps[0].after, steps[1..]) == End(s, steps);
      var n :| SliceRefines(Slice(End(s, steps).tables, c), ChapterHistory(c, g, steps[1..]), n);
      assert SliceRefines(Slice(End(s, steps).tables, c), ChapterHistory(c, h, steps), n);
    }
  }

  lemma StartIsSane(c: int, clock: int)
    ensures Sane(c, Start(), clock) && SliceRefines(Slice(Start().tables, c), [], clock)
  {
    assert Slice(Start().tables, c) == Start().tables;
  }

  /** The refinement, for a chapter: over any run whose landed payloads of the chapter
      are clean and recalled, its rank-wise query answers with the last landed payload
      at or before the cutoff that contained the rank. */
  lemma ChapterLogIsDense(id: PublicId, c: int, clock: int, steps: seq<Step>, r: int, cutoff: Option<int>)
    requires Run(id, Start(), clock, steps) && AllChapterRegular(c, Start(), steps)
    ensures Answers(Slice(End(Start(), steps).tables, c), r, cutoff, LastSeen(ChapterHistory(c, [], steps), r, cutoff))
  {
    hide Run, AllChapterRegular, Slice, Answers, LastSeen, ChapterHistory, Sane, SliceRefines;
    StartIsSane(c, clock);
    ChapterRunKeeps(id, c, Start(), clock, steps, []);
    var n :| SliceRefines(Slice(End(Start(), steps).tables, c), ChapterHistory(c, [], steps), n);
    SliceMeans(Slice(End(Start(), steps).tables, c), ChapterHistory(c, [], steps), n);
  }
}
