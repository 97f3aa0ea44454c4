/** Any sequence of calls that the daemon makes on a tracker: what it did to its
    tables is a run of the sparse log, what it told the cache is a run of the
    cache protocol's writer, and the two end at the same rows. */
module TrackerRuns {
  import opened RankingTables
  import opened UpdateBracket
  import opened Storage
  import opened Tracker
  import opened WorldBloomRows
  import W = WriterRuns
  import S = SparseLog
  import C = CacheProtocol
  import U = UserTable

  /** The flags, as the daemon has set them by the time of a call. */
  datatype Flags = Flags(ended: bool, statuses: map<int, EventStatus>, chapterEnded: map<int, bool>)

  datatype Call =
    | Record(flags: Flags, onlyWorldBloom: bool, fetched: Option<Payload>, now: int, recordTime: int)
    | Refresh(flags: Flags, fetched: Option<Payload>, now: int, recordTime: int, interval: nat)

  /** The clock does not go back from call to call. */
  predicate InTime(clock: int, calls: seq<Call>)
    decreases |calls|
  {
    calls != [] ==> clock <= calls[0].now <= calls[0].recordTime && InTime(calls[0].recordTime, calls[1..])
  }

  // ------------------------------------------------------------ appending runs

  function ClockAt(clock: int, steps: seq<S.Step>): int
    decreases |steps|
  {
    if steps == [] then clock else ClockAt(S.ClockAfter(clock, steps[0].act), steps[1..])
  }

  lemma {:induction false} RunAppend(id: PublicId, s: View, clock: int, a: seq<S.Step>, b: seq<S.Step>)
    requires S.Run(id, s, clock, a) && S.Run(id, S.End(s, a), ClockAt(clock, a), b)
    ensures S.Run(id, s, clock, a + b) && S.End(s, a + b) == S.End(S.End(s, a), b)
    ensures ClockAt(clock, a + b) == ClockAt(ClockAt(clock, a), b)
    decreases |a|
  {
    hide S.Acts;
    if a == [] {
      assert a + b == b;
    } else {
      assert (a + b)[1..] == a[1..] + b;
      RunAppend(id, a[0].after, S.ClockAfter(clock, a[0].act), a[1..], b);
    }
  }

  lemma RunOfOne(id: PublicId, s: View, clock: int, act: S.Act, t: View)
    requires S.Acts(id, s, act, t) && S.Timely(clock, act)
    ensures var steps := [S.Step(act, t)];
            S.Run(id, s, clock, steps) && S.End(s, steps) == t && ClockAt(clock, steps) == S.ClockAfter(clock, act)
  {
    hide S.Acts;
    assert [S.Step(act, t)][1..] == [];
  }

  lemma {:induction false} LastRowsAppend(rows: RankingRows, a: seq<Command>, b: seq<Command>)
    ensures W.LastRows(rows, a + b) == W.LastRows(W.LastRows(rows, a), b)
    decreases |a|
  {
    if a == [] {
      assert a + b == b;
    } else {
      assert (a + b)[1..] == a[1..] + b;
      LastRowsAppend(if a[0].Commit? then a[0].rows else rows, a[1..], b);
    }
  }

  lemma {:induction false} LastOfCommits(rows: RankingRows, commits: seq<RankingRows>)
    ensures W.LastRows(rows, Commits(commits)) == if commits == [] then rows else commits[|commits| - 1]
    decreases |commits|
  {
    if commits != [] {
      assert Commits(commits)[1..] == Commits(commits[1..]);
      LastOfCommits(commits[0], commits[1..]);
    }
  }

  lemma NoCommits(rows: RankingRows)
    ensures W.LastRows(rows, [SetDirty, ClearDirty]) == rows && W.LastRows(rows, [SetDirty, Bump, ClearDirty]) == rows
    ensures W.LastRows(rows, [Bump, ClearDirty]) == rows
    ensures W.Bumps([SetDirty, ClearDirty]) == 0 && W.Bumps([SetDirty, Bump, ClearDirty]) == 1
  {
    assert [SetDirty, ClearDirty][1..] == [ClearDirty] && [ClearDirty][1..] == [];
    assert [SetDirty, Bump, ClearDirty][1..] == [Bump, ClearDirty] && [Bump, ClearDirty][1..] == [ClearDirty];
  }

  /** The rows committed last in a bracket are those it leaves. */
  lemma BracketLast(rows: RankingRows, willWrite: bool, commits: seq<RankingRows>)
    ensures W.LastRows(rows, Bracket(willWrite, commits)) == if commits == [] then rows else commits[|commits| - 1]
  {
    NoCommits(rows);
    if commits != [] {
      var all := Bracket(willWrite, commits);
      assert all == [SetDirty] + (Commits(commits) + [Bump, ClearDirty]);
      assert all[1..] == Commits(commits) + [Bump, ClearDirty];
      LastRowsAppend(rows, Commits(commits), [Bump, ClearDirty]);
      LastOfCommits(rows, commits);
      NoCommits(commits[|commits| - 1]);
    }
  }

  // --------------------------------------------------------------------- calls

  /** What the tracker did from `s` to `t`, and what it told the cache meanwhile. */
  ghost predicate Did(id: PublicId, s: View, clock: int, steps: seq<S.Step>, t: View, pieces: seq<seq<Command>>) {
    && S.Run(id, s, clock, steps) && S.End(s, steps) == t
    && (forall i | 0 <= i < |pieces| :: W.Piece(pieces[i]))
    && W.LastRows(s.tables.rows, W.Concat(pieces)) == t.tables.rows
  }

  lemma {:induction false} ConcatAppend(a: seq<seq<Command>>, b: seq<seq<Command>>)
    ensures W.Concat(a + b) == W.Concat(a) + W.Concat(b)
    decreases |b|
  {
    if b == [] {
      assert a + b == a;
    } else {
      var last := b[|b| - 1];
      assert (a + b)[..|a + b| - 1] == a + b[..|b| - 1] && (a + b)[|a + b| - 1] == last;
      ConcatAppend(a, b[..|b| - 1]);
      assert W.Concat(a) + W.Concat(b[..|b| - 1]) + last == W.Concat(a) + (W.Concat(b[..|b| - 1]) + last);
    }
  }

  lemma DidBoth(id: PublicId, s: View, clock: int, a: seq<S.Step>, t: View, p: seq<seq<Command>>, b: seq<S.Step>, u: View, q: seq<seq<Command>>)
    requires Did(id, s, clock, a, t, p) && Did(id, t, ClockAt(clock, a), b, u, q)
    ensures Did(id, s, clock, a + b, u, p + q)
    ensures W.Bumps(W.Concat(p + q)) == W.Bumps(W.Concat(p)) + W.Bumps(W.Concat(q))
    ensures ClockAt(clock, a + b) == ClockAt(ClockAt(clock, a), b)
  {
    hide S.Run, W.Piece;
    RunAppend(id, s, clock, a, b);
    ConcatAppend(p, q);
    LastRowsAppend(s.tables.rows, W.Concat(p), W.Concat(q));
    W.BumpsAppend(W.Concat(p), W.Concat(q));
  }

  lemma DidNothing(id: PublicId, s: View, clock: int)
    ensures Did(id, s, clock, [], s, []) && ClockAt(clock, []) == clock && W.Concat([]) == [] && W.Bumps([]) == 0
  {
  }

  /** One act and its piece of the log. */
  lemma DidOne(id: PublicId, s: View, clock: int, act: S.Act, t: View, piece: seq<Command>)
    requires S.Acts(id, s, act, t) && S.Timely(clock, act) && W.Piece(piece)
    requires W.LastRows(s.tables.rows, piece) == t.tables.rows
    ensures Did(id, s, clock, [S.Step(act, t)], t, [piece]) && W.Concat([piece]) == piece
    ensures ClockAt(clock, [S.Step(act, t)]) == S.ClockAfter(clock, act)
  {
    hide S.Acts, S.Timely, W.Piece, W.LastRows;
    RunOfOne(id, s, clock, act, t);
    assert [piece][..0] == [];
    assert W.Concat([]) == [];
    assert [] + piece == piece;
  }

  lemma DidBracket(id: PublicId, s: View, clock: int, act: S.Act, t: View, wrote: bool, commits: seq<RankingRows>)
    requires S.Acts(id, s, act, t) && S.Timely(clock, act)
    requires t.tables.rows == if commits == [] then s.tables.rows else commits[|commits| - 1]
    ensures Did(id, s, clock, [S.Step(act, t)], t, [Bracket(wrote, commits)])
    ensures ClockAt(clock, [S.Step(act, t)]) == S.ClockAfter(clock, act)
    ensures W.Concat([Bracket(wrote, commits)]) == Bracket(wrote, commits)
    ensures W.Bumps(Bracket(wrote, commits)) == if commits == [] then 0 else 1
  {
    BracketLast(s.tables.rows, wrote, commits);
    W.BracketBumps(wrote, commits);
    hide S.Acts, S.Timely, Bracket, W.LastRows, W.Bumps;
    DidOne(id, s, clock, act, t, Bracket(wrote, commits));
  }

  /** The user refresh publishes at most once and moves no row. */
  lemma DidRefresh(id: PublicId, s: View, clock: int, dims: map<int, U.UserDim>, t: View, second: seq<Command>)
    requires S.Acts(id, s, S.RefreshUsers(dims), t)
    requires second == [] || second == [SetDirty, ClearDirty] || second == [SetDirty, Bump, ClearDirty]
    ensures Did(id, s, clock, [S.Step(S.RefreshUsers(dims), t)], t, [second])
    ensures ClockAt(clock, [S.Step(S.RefreshUsers(dims), t)]) == clock
    ensures W.Concat([second]) == second && W.Bumps(second) == if second == [SetDirty, Bump, ClearDirty] then 1 else 0
  {
    NoCommits(s.tables.rows);
    assert t.tables.rows == s.tables.rows;
    hide S.Acts, W.LastRows, W.Bumps;
    assert W.LastRows(s.tables.rows, []) == s.tables.rows && W.Bumps([]) == 0 by { NothingSaid(s.tables.rows); }
    DidOne(id, s, clock, S.RefreshUsers(dims), t, second);
  }

  lemma NothingSaid(rows: RankingRows)
    ensures W.LastRows(rows, []) == rows && W.Bumps([]) == 0
  {
  }

  /** The tables between the two halves of a refresh are sound, for the users only grew. */
  lemma SoundBetween(between: Tables, now: Tables, dims: map<int, U.UserDim>)
    requires Sound(now) && now == between.(users := now.users) && U.Extends(between.users, now.users, dims)
    ensures Sound(between)
  {
  }

  method Perform(t: EventTracker, call: Call, ghost clock: int) returns (ghost steps: seq<S.Step>, ghost pieces: seq<seq<Command>>)
    requires t.Valid() && clock <= call.now <= call.recordTime
    modifies t, t.db, t.db.users, t.cache
    ensures t.Valid()
    ensures Did(t.db.publicId, old(t.State()), clock, steps, t.State(), pieces) && ClockAt(clock, steps) <= call.recordTime
    ensures t.cache.issued == old(t.cache.issued) + W.Concat(pieces)
    ensures t.cache.epoch == old(t.cache.epoch) + W.Bumps(W.Concat(pieces))
  {
    hide Ticked, Bracket, Did, ClockAt, W.Concat, W.Bumps, Marked, U.Extends;
    t.isEventEnded, t.statuses, t.chapterEnded := call.flags.ended, call.flags.statuses, call.flags.chapterEnded;
    ghost var id, s := t.db.publicId, t.State();
    steps, pieces := [], [];
    DidNothing(id, s, clock);
    match call
    case Record(_, onlyWorldBloom, fetched, now, recordTime) =>
      ghost var data, log;
      var result;
      result, data, log := t.RecordRankingData(onlyWorldBloom, fetched, now, recordTime);
      if !t.isEventEnded {
        if fetched.None? {
          steps, pieces := [S.Step(S.Beat(now), t.State())], [[]];
          Beats(id, s, clock, now, t.State());
        } else {
          ghost var act := S.Tick(data, onlyWorldBloom, true, now, result.value, log);
          steps, pieces := [S.Step(act, t.State())], [Bracket(log.records != [] || log.rows != [], log.commits)];
          DidBracket(id, s, clock, act, t.State(), log.records != [] || log.rows != [], log.commits);
        }
      }
    case Refresh(_, fetched, now, recordTime, interval) =>
      ghost var log, second;
      var result;
      result, log, second := t.RefreshAfterEnd(fetched, now, recordTime, interval);
      if log.Some? {
        ghost var l := log.value;
        ghost var wrote := l.persisted.records != [] || l.persisted.rows != [];
        ghost var act := S.Tick(l.data, false, false, now, l.outcome, l.persisted);
        steps := [S.Step(act, l.between)] + [S.Step(S.RefreshUsers(l.dims), t.State())];
        pieces := [Bracket(wrote, l.persisted.commits)] + [second];
        SoundBetween(l.between.tables, t.State().tables, l.dims);
        DidBracket(id, s, clock, act, l.between, wrote, l.persisted.commits);
        DidRefresh(id, l.between, recordTime, l.dims, t.State(), second);
        DidBoth(id, s, clock, [S.Step(act, l.between)], l.between, [Bracket(wrote, l.persisted.commits)],
                [S.Step(S.RefreshUsers(l.dims), t.State())], t.State(), [second]);
        ConcatAppend([Bracket(wrote, l.persisted.commits)], [second]);
      }
  }

  lemma Beats(id: PublicId, s: View, clock: int, now: int, t: View)
    requires Sound(t.tables) && Marked(s, t, now) && clock <= now
    ensures Did(id, s, clock, [S.Step(S.Beat(now), t)], t, [[]]) && ClockAt(clock, [S.Step(S.Beat(now), t)]) == now
    ensures W.Concat([[]]) == [] && W.Bumps([]) == 0
  {
    NothingSaid(s.tables.rows);
    DidOne(id, s, clock, S.Beat(now), t, []);
  }

  // ----------------------------------------------------------------- all calls

  /** The clock after the first `n` calls. */
  function Clock(clock: int, calls: seq<Call>, n: nat): int
    requires n <= |calls|
  {
    if n == 0 then clock else calls[n - 1].recordTime
  }

  lemma {:induction false} InTimeAt(clock: int, calls: seq<Call>, n: nat)
    requires InTime(clock, calls) && n < |calls|
    ensures Clock(clock, calls, n) <= calls[n].now <= calls[n].recordTime
    decreases n
  {
    if n > 0 { InTimeAt(calls[0].recordTime, calls[1..], n - 1); }
  }

  /** The protocol's writer is idle at these rows and this epoch. */
  ghost predicate StandsAt(s: C.State, rows: RankingRows, epoch: nat) {
    s.h.writer == Idle && s.rows == rows && s.h.epoch == epoch
  }

  ghost predicate CanFollow(w: C.World, s: C.State, cmds: seq<Command>, rows: RankingRows, epoch: nat) {
    exists u :: C.Leads(w, s, W.Issues(cmds), u) && StandsAt(u, rows, epoch)
  }

  /** The cache protocol can follow the commands from any state in which its writer
      is idle at the tracker's rows and epoch, and is then where the tracker is. */
  ghost predicate Followed(cmds: seq<Command>, rows: RankingRows, epoch: nat, now: RankingRows, nowEpoch: nat) {
    forall w: C.World, s: C.State | StandsAt(s, rows, epoch) :: CanFollow(w, s, cmds, now, nowEpoch)
  }

  lemma LogIsFollowed(pieces: seq<seq<Command>>, rows: RankingRows, epoch: nat)
    requires forall i | 0 <= i < |pieces| :: W.Piece(pieces[i])
    ensures var cmds := W.Concat(pieces); Followed(cmds, rows, epoch, W.LastRows(rows, cmds), epoch + W.Bumps(cmds))
  {
    hide W.Piece, W.Concat, W.LastRows, W.Bumps, W.RunWriter, C.Leads;
    var cmds := W.Concat(pieces);
    W.TrackerLogIsARun(pieces);
    var now, nowEpoch := W.LastRows(rows, cmds), epoch + W.Bumps(cmds);
    forall w: C.World, s: C.State | StandsAt(s, rows, epoch) ensures CanFollow(w, s, cmds, now, nowEpoch) {
      var u := W.ProtocolFollows(w, s, cmds);
      assert StandsAt(u, now, nowEpoch);
    }
  }

  /** Whatever the daemon calls and whatever fails, the tables have gone through a
      run of the sparse log and the cache protocol can follow what was issued. */
  method Drive(t: EventTracker, calls: seq<Call>, ghost clock: int) returns (ghost steps: seq<S.Step>, ghost cmds: seq<Command>)
    requires t.Valid() && InTime(clock, calls)
    modifies t, t.db, t.db.users, t.cache
    ensures t.Valid()
    ensures S.Run(t.db.publicId, old(t.State()), clock, steps) && S.End(old(t.State()), steps) == t.State()
    ensures t.cache.issued == old(t.cache.issued) + cmds
    ensures Followed(cmds, old(t.db.rows), old(t.cache.epoch), t.db.rows, t.cache.epoch)
  {
    hide Did, ClockAt, W.Concat, W.Bumps, InTime, Followed, S.Run;
    ghost var id, s := t.db.publicId, t.State();
    ghost var pieces: seq<seq<Command>> := [];
    steps := [];
    DidNothing(id, s, clock);
    for n := 0 to |calls|
      invariant t.Valid()
      invariant Did(id, s, clock, steps, t.State(), pieces) && ClockAt(clock, steps) <= Clock(clock, calls, n)
      invariant t.cache.issued == old(t.cache.issued) + W.Concat(pieces)
      invariant t.cache.epoch == old(t.cache.epoch) + W.Bumps(W.Concat(pieces))
    {
      InTimeAt(clock, calls, n);
      ghost var mid := t.State();
      ghost var more, parts := Perform(t, calls[n], ClockAt(clock, steps));
      DidBoth(id, s, clock, steps, mid, pieces, more, t.State(), parts);
      ConcatAppend(pieces, parts);
      steps, pieces := steps + more, pieces + parts;
    }
    cmds := W.Concat(pieces);
    DidMeans(id, s, clock, steps, t.State(), pieces);
    LogIsFollowed(pieces, s.tables.rows, old(t.cache.epoch));
  }

  lemma DidMeans(id: PublicId, s: View, clock: int, steps: seq<S.Step>, t: View, pieces: seq<seq<Command>>)
    requires Did(id, s, clock, steps, t, pieces)
    ensures S.Run(id, s, clock, steps) && S.End(s, steps) == t
    ensures forall i | 0 <= i < |pieces| :: W.Piece(pieces[i])
    ensures W.LastRows(s.tables.rows, W.Concat(pieces)) == t.tables.rows
  {
  }
}
