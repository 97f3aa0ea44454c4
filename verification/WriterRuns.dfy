/** The tracker's command logs are runs of the writer that the cache protocol
    assumes: what the tracker promises is what the cache theorems need. */
module WriterRuns {
  import opened RankingTables
  import opened UpdateBracket
  import opened Tracker
  import C = CacheProtocol

  function RunWriter(w: Writer, cmds: seq<Command>): Option<Writer>
    decreases |cmds|
  {
    if cmds == [] then Some(w)
    else
      var next := After(w, cmds[0]);
      if next.None? then None else RunWriter(next.value, cmds[1..])
  }

  lemma {:induction false} RunAppend(w: Writer, a: seq<Command>, b: seq<Command>)
    ensures RunWriter(w, a + b) == (var mid := RunWriter(w, a); if mid.None? then None else RunWriter(mid.value, b))
    decreases |a|
  {
    if a == [] {
      assert a + b == b;
    } else {
      assert (a + b)[1..] == a[1..] + b;
      if After(w, a[0]).Some? { RunAppend(After(w, a[0]).value, a[1..], b); }
    }
  }

  lemma {:induction false} CommitsStayOpen(committed: bool, rows: seq<RankingRows>)
    ensures RunWriter(Open(committed), Commits(rows)) == Some(Open(committed || rows != []))
    decreases |rows|
  {
    if rows != [] {
      assert Commits(rows)[1..] == Commits(rows[1..]);
      CommitsStayOpen(true, rows[1..]);
    }
  }

  /** A persist is a whole bracket, however many of its transactions committed. */
  lemma BracketIsARun(willWrite: bool, commits: seq<RankingRows>)
    ensures RunWriter(Idle, Bracket(willWrite, commits)) == Some(Idle)
  {
    if commits == [] {
      assert [SetDirty, ClearDirty][1..] == [ClearDirty];
      assert [ClearDirty][1..] == [];
    } else {
      var tail := [Bump, ClearDirty];
      assert tail[1..] == [ClearDirty] && tail[1..][1..] == [];
      CommitsStayOpen(false, commits);
      RunAppend(Open(false), Commits(commits), tail);
      var all := Bracket(willWrite, commits);
      assert all == [SetDirty] + (Commits(commits) + tail);
      assert all[1..] == Commits(commits) + tail;
    }
  }

  lemma UserBracketIsARun()
    ensures RunWriter(Idle, [SetDirty, ClearDirty]) == Some(Idle)
    ensures RunWriter(Idle, [SetDirty, Bump, ClearDirty]) == Some(Idle)
  {
    assert [SetDirty, ClearDirty][1..] == [ClearDirty] && [ClearDirty][1..] == [];
    assert [SetDirty, Bump, ClearDirty][1..] == [Bump, ClearDirty] && [Bump, ClearDirty][1..] == [ClearDirty];
  }

  /** One entry of a tracker's log: a persist, or the user refresh after the end. */
  ghost predicate Piece(cmds: seq<Command>) {
    || (exists wrote: bool, commits: seq<RankingRows> :: cmds == Bracket(wrote, commits))
    || cmds == [SetDirty, ClearDirty] || cmds == [SetDirty, Bump, ClearDirty] || cmds == []
  }

  function Concat(pieces: seq<seq<Command>>): seq<Command> {
    if pieces == [] then [] else Concat(pieces[..|pieces| - 1]) + pieces[|pieces| - 1]
  }

  /** Every log a tracker can produce, over any number of ticks and any failures,
      is accepted by the writer automaton and leaves it idle. */
  lemma {:induction false} TrackerLogIsARun(pieces: seq<seq<Command>>)
    requires forall i | 0 <= i < |pieces| :: Piece(pieces[i])
    ensures RunWriter(Idle, Concat(pieces)) == Some(Idle)
  {
    if pieces != [] {
      var last := pieces[|pieces| - 1];
      TrackerLogIsARun(pieces[..|pieces| - 1]);
      RunAppend(Idle, Concat(pieces[..|pieces| - 1]), last);
      assert Piece(last);
      if exists wrote: bool, commits: seq<RankingRows> :: last == Bracket(wrote, commits) {
        var wrote: bool, commits: seq<RankingRows> :| last == Bracket(wrote, commits);
        BracketIsARun(wrote, commits);
      } else {
        UserBracketIsARun();
      }
    }
  }

  function Bumps(cmds: seq<Command>): nat {
    if cmds == [] then 0 else (if cmds[0].Bump? then 1 else 0) + Bumps(cmds[1..])
  }

  function LastRows(rows: RankingRows, cmds: seq<Command>): RankingRows
    decreases |cmds|
  {
    if cmds == [] then rows else LastRows(if cmds[0].Commit? then cmds[0].rows else rows, cmds[1..])
  }

  function Issues(cmds: seq<Command>): (r: seq<C.Step>)
    ensures |r| == |cmds| && forall i | 0 <= i < |r| :: r[i] == C.Issue(cmds[i])
  {
    seq(|cmds|, i requires 0 <= i < |cmds| => C.Issue(cmds[i]))
  }

  lemma IssueSteps(w: C.World, s: C.State, c: Command)
    requires After(s.h.writer, c).Some?
    ensures C.Enabled(s, C.Issue(c))
    ensures var u := C.Next(w, s, C.Issue(c));
            && u.h.writer == After(s.h.writer, c).value
            && u.h.epoch == s.h.epoch + (if c.Bump? then 1 else 0)
            && u.rows == (if c.Commit? then c.rows else s.rows)
  {
  }

  /** The cache protocol can follow any accepted log, and ends with the epoch the
      tracker counted, the rows it committed last, and the dirty mark it left. */
  lemma {:induction false} ProtocolFollows(w: C.World, s: C.State, cmds: seq<Command>) returns (t: C.State)
    requires RunWriter(s.h.writer, cmds).Some?
    ensures C.Leads(w, s, Issues(cmds), t)
    ensures t.h.writer == RunWriter(s.h.writer, cmds).value
    ensures t.h.epoch == s.h.epoch + Bumps(cmds) && t.rows == LastRows(s.rows, cmds)
    decreases |cmds|
  {
    if cmds == [] {
      t := s;
    } else {
      hide C.Next, C.Enabled;
      var step := C.Issue(cmds[0]);
      assert Issues(cmds)[1..] == Issues(cmds[1..]);
      IssueSteps(w, s, cmds[0]);
      t := ProtocolFollows(w, C.Next(w, s, step), cmds[1..]);
    }
  }

  lemma {:induction false} BumpsAppend(a: seq<Command>, b: seq<Command>)
    ensures Bumps(a + b) == Bumps(a) + Bumps(b)
    decreases |a|
  {
    if a == [] { assert a + b == b; } else { assert (a + b)[1..] == a[1..] + b; BumpsAppend(a[1..], b); }
  }

  lemma {:induction false} CommitsNoBump(rows: seq<RankingRows>)
    ensures Bumps(Commits(rows)) == 0
  {
    if rows != [] {
      assert Commits(rows)[1..] == Commits(rows[1..]);
      CommitsNoBump(rows[1..]);
    }
  }

  /** A persist publishes exactly once if it committed, and not at all otherwise. */
  lemma BracketBumps(willWrite: bool, commits: seq<RankingRows>)
    ensures Bumps(Bracket(willWrite, commits)) == if commits == [] then 0 else 1
  {
    if commits == [] {
      assert [SetDirty, ClearDirty][1..] == [ClearDirty] && [ClearDirty][1..] == [];
    } else {
      var all := Bracket(willWrite, commits);
      assert all[1..] == Commits(commits) + [Bump, ClearDirty];
      BumpsAppend(Commits(commits), [Bump, ClearDirty]);
      CommitsNoBump(commits);
      assert [Bump, ClearDirty][1..] == [ClearDirty] && [ClearDirty][1..] == [];
    }
  }
}
