/** The other half of the sparse log: it holds nothing but changes. */
module SparseChanges {
  import opened RankingTables
  import opened RankDiff
  import opened Storage
  import opened Tracker
  import opened SparseLog

  /** Up to the second before row `k` the history told something else of its rank. */
  ghost predicate IsChange(t: Tables, h: seq<Seen>, k: RowKey)
    requires k in t.rows.event && k.timeId in t.stamps
  {
    forall u | u in t.users && t.users[u].key == k.userKey ::
      LastSeen(h, t.rows.event[k].rank, Some(t.stamps[k.timeId] - 1)) != Some(RankState(u, t.rows.event[k].score))
  }

  ghost predicate OnlyChanges(t: Tables, h: seq<Seen>) {
    forall k | k in t.rows.event && k.timeId in t.stamps :: IsChange(t, h, k)
  }

  lemma OldRowStaysChange(was: Tables, now: Tables, h: seq<Seen>, k: RowKey)
    requires Grows(was, now) && Sound(now) && Referential(was) && k in was.rows.event && IsChange(was, h, k)
    ensures IsChange(now, h, k)
  {
    var u0 :| u0 in was.users && was.users[u0].key == k.userKey;
    forall u | u in now.users && now.users[u].key == k.userKey ensures u == u0 {
      assert now.users[u].key == now.users[u0].key;
    }
  }

  lemma QuietKeepsChanges(was: Tables, now: Tables, h: seq<Seen>, at: int)
    requires Quiet(was, now, at) && Referential(was) && OnlyChanges(was, h)
    ensures OnlyChanges(now, h)
  {
    forall k | k in now.rows.event && k.timeId in now.stamps ensures IsChange(now, h, k) {
      assert IsChange(was, h, k);
      OldRowStaysChange(was, now, h, k);
    }
  }

  lemma ChangeWithLater(t: Tables, h: seq<Seen>, seen: Seen, k: RowKey)
    requires k in t.rows.event && k.timeId in t.stamps && t.stamps[k.timeId] <= seen.time && IsChange(t, h, k)
    ensures IsChange(t, h + [seen], k)
  {
    assert (h + [seen])[..|h|] == h;
  }

  /** Two answers over the same candidates are one answer. */
  lemma SameAnswer(t: Tables, r: int, c: Option<int>, d: Option<int>, a: Option<RankState>, b: Option<RankState>)
    requires Sound(t) && Answers(t, r, c, a) && Answers(t, r, d, b)
    requires forall k :: Candidate(t, r, c, k) <==> Candidate(t, r, d, k)
    ensures a == b
  {
    if a.Some? && b.Some? {
      var k := RowOf(t, r, c, a.value);
      var l := RowOf(t, r, d, b.value);
      assert IsLatest(t, r, d, k);
      assert t.users[a.value.userId].key == t.users[b.value.userId].key;
    } else if a.Some? {
      var k := RowOf(t, r, c, a.value);
    } else if b.Some? {
      var l := RowOf(t, r, d, b.value);
    }
  }

  /** A changed row's rank has no row of the same instant, so what the history told
      of it before that instant is what the tracker remembered. */
  lemma RememberedIsEarlier(s: View, h: seq<Seen>, clock: int, time: int, p: Player)
    requires Refines(s, h, clock) && clock <= time && Complete(p)
    requires forall k :: !Collides(s.tables, time, p, k)
    ensures LastSeen(h, p.rank.value, Some(time - 1)) == Entry(s.ranks, p.rank.value)
  {
    hide Answers, LastSeen;
    var r := p.rank.value;
    forall k ensures Candidate(s.tables, r, None, k) <==> Candidate(s.tables, r, Some(time - 1), k) {
      if Candidate(s.tables, r, None, k) { assert !Collides(s.tables, time, p, k); }
    }
    assert Answers(s.tables, r, None, LastSeen(h, r, None));
    assert Answers(s.tables, r, Some(time - 1), LastSeen(h, r, Some(time - 1)));
    SameAnswer(s.tables, r, None, Some(time - 1), LastSeen(h, r, None), LastSeen(h, r, Some(time - 1)));
  }

  lemma MainKeepsChanges(s: View, mid: View, h: seq<Seen>, clock: int, time: int, rankings: seq<Player>)
    requires Refines(s, h, clock) && clock <= time && OnlyChanges(s.tables, h)
    requires MainTick(s.tables, mid.tables, s.ranks, mid.ranks, time, rankings)
    requires Faithful(s.tables, s.ranks, time, rankings)
    ensures OnlyChanges(mid.tables, h + [Seen(time, rankings)])
  {
    hide Landing, Refines, Faithful, LastSeen;
    var rows := ChangedRows(rankings, s.ranks);
    var was, now := s.tables, mid.tables;
    RefinesTidy(s, h, clock);
    TidyMeans(was, clock);
    LandingGrows(was, now, time, rows);
    forall k | k in now.rows.event && k.timeId in now.stamps ensures IsChange(now, h + [Seen(time, rankings)], k) {
      if k in was.rows.event {
        assert IsChange(was, h, k);
        OldRowStaysChange(was, now, h, k);
      } else {
        NewRowIsChange(s, mid, h, clock, time, rankings, k);
      }
      ChangeWithLater(now, h, Seen(time, rankings), k);
    }
  }

  lemma NewRowIsChange(s: View, mid: View, h: seq<Seen>, clock: int, time: int, rankings: seq<Player>, k: RowKey)
    requires Refines(s, h, clock) && clock <= time
    requires MainTick(s.tables, mid.tables, s.ranks, mid.ranks, time, rankings) && Faithful(s.tables, s.ranks, time, rankings)
    requires k in mid.tables.rows.event && k !in s.tables.rows.event && k.timeId in mid.tables.stamps
    ensures IsChange(mid.tables, h, k) && mid.tables.stamps[k.timeId] == time
  {
    hide Landing, Refines, LastSeen, Answers;
    var rows := ChangedRows(rankings, s.ranks);
    var now := mid.tables;
    var p := SourceOf(s.tables, now, time, rows, k);
    LandingGrows(s.tables, now, time, rows);
    ChangedRowsAre(rankings, s.ranks);
    RememberedIsEarlier(s, h, clock, time, p);
    forall u | u in now.users && now.users[u].key == k.userKey ensures u == p.userId.value {
      assert now.users[u].key == now.users[p.userId.value].key;
    }
  }

  lemma ActKeepsChanges(id: PublicId, s: View, a: Act, t: View, h: seq<Seen>, clock: int)
    requires Refines(s, h, clock) && OnlyChanges(s.tables, h) && Acts(id, s, a, t) && Timely(clock, a) && Regular(s, a)
    ensures OnlyChanges(t.tables, Heard(h, a))
  {
    hide Refines, OnlyChanges, MainLanded, ChaptersLanded, Storage.ChaptersFailed, StampsGrow, EventCommitted, OnlyUsers, Faithful, MainTick, Quiet;
    RefinesTidy(s, h, clock);
    TidyMeans(s.tables, clock);
    var next := ClockAfter(clock, a);
    if !a.Tick? {
      OtherIsQuiet(id, s, a, t, clock);
      QuietKeepsChanges(s.tables, t.tables, h, next);
    } else if a.outcome.MainFailed? {
      OnlyUsersIsQuiet(id, s.tables, t.tables, a.log.records, next);
      QuietKeepsChanges(s.tables, t.tables, h, next);
    } else {
      var mid, at := TickParts(id, s, a, t);
      MainIsLanding(id, a.data, a.onlyWorldBloom, a.log.records, s.tables, mid, s.ranks, t.ranks);
      LandingTidy(s.tables, mid, next, MainRows(a.data, a.onlyWorldBloom, s.ranks), clock);
      TidyMeans(mid, next);
      var m := View(mid, t.ranks, t.chapters, t.memo, t.borderHash);
      if Lands(a) {
        MainMeans(id, a.data, a.log.records, s.tables, mid, s.ranks, t.ranks);
        MainKeepsChanges(s, m, h, clock, next, a.data.rankings);
      } else {
        NoRowsIsQuiet(id, a.data, a.log.records, s.tables, mid, s.ranks, t.ranks);
        QuietKeepsChanges(s.tables, mid, h, next);
      }
      QuietKeepsChanges(mid, t.tables, Heard(h, a), at);
    }
  }

  lemma {:induction false} RunKeepsChanges(id: PublicId, s: View, clock: int, steps: seq<Step>, h: seq<Seen>)
    requires Refines(s, h, clock) && OnlyChanges(s.tables, h) && Run(id, s, clock, steps) && AllRegular(s, steps)
    ensures OnlyChanges(End(s, steps).tables, HistoryFrom(h, steps))
    decreases |steps|
  {
    hide Refines, OnlyChanges, Acts, Regular;
    if steps != [] {
      ActKeeps(id, s, steps[0].act, steps[0].after, h, clock);
      ActKeepsChanges(id, s, steps[0].act, steps[0].after, h, clock);
      RunKeepsChanges(id, steps[0].after, ClockAfter(clock, steps[0].act), steps[1..], Heard(h, steps[0].act));
      assert End(steps[0].after, steps[1..]) == End(s, steps);
    }
  }

  /** Minimality.  In the table that a faithful run leaves, every row is a change: up
      to the second before it, the landed payloads told another user or another score
      for its rank, or nothing. */
  lemma EveryRowIsAChange(id: PublicId, clock: int, steps: seq<Step>, k: RowKey, u: int)
    requires Run(id, Start(), clock, steps) && AllRegular(Start(), steps)
    requires var t := End(Start(), steps).tables;
             k in t.rows.event && k.timeId in t.stamps && u in t.users && t.users[u].key == k.userKey
    ensures var t := End(Start(), steps).tables;
            LastSeen(HistoryFrom([], steps), t.rows.event[k].rank, Some(t.stamps[k.timeId] - 1)) != Some(RankState(u, t.rows.event[k].score))
  {
    hide Run, AllRegular, LastSeen, HistoryFrom, End;
    StartRefines(clock);
    RunKeepsChanges(id, Start(), clock, steps, []);
    assert IsChange(End(Start(), steps).tables, HistoryFrom([], steps), k);
  }

  lemma StartRefines(clock: int)
    ensures Refines(Start(), [], clock) && OnlyChanges(Start().tables, [])
  {
  }
}
