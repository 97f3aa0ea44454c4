/** When a World Bloom chapter is finalised, and when it is finalised again. */
module ChapterRuns {
  import opened RankingTables
  import opened WorldBloomRows
  import opened Lifecycle
  import opened LifecycleRuns

  // ------------------------------------------------------------------- inputs

  /** The tick reads the event, of World Bloom type, in play. */
  predicate Plays(i: Inputs, e: int) {
    && i.first.Some? && i.first.value.eventId == e && i.first.value.worldBloom
    && !i.first.value.status.Aggregating? && !i.first.value.status.Ended?
  }

  /** Such a tick lists the chapter as ended, and comes to it. */
  predicate ListsEnded(i: Inputs, e: int, c: int) {
    Plays(i, e) && c in i.first.value.chapters && i.first.value.chapters[c].Ended? && c in i.order
  }

  /** Such a tick does not list the chapter. */
  predicate Unlists(i: Inputs, e: int, c: int) {
    Plays(i, e) && c !in i.first.value.chapters
  }

  /** After this tick an instance that tracks `e` has ended or has been replaced. */
  predicate Closes(i: Inputs, e: int) {
    && i.first.Some?
    && ((i.first.value.eventId == e && i.first.value.status.Ended?)
        || (i.first.value.eventId > e && i.initOk && i.second.Some?))
  }

  // ------------------------------------------------------------ one tick, exact

  lemma {:induction false} ChaptersExactly(b: Base, e: EventInfo, order: seq<int>, c: int)
    ensures var r := AfterChapters(b, e, order);
            var comes := c in e.chapters && e.chapters[c].Ended? && c in order;
            && (ChapterFinal(b.eventId, c) in r.1 <==> comes && !b.ended && !ChapterDone(b, c))
            && (ChapterDone(r.0, c) <==> comes || ChapterDone(b, c))
            && Count(r.1, ChapterFinal(b.eventId, c)) <= 1
  {
    if order != [] {
      ChaptersExactly(b, e, order[..|order| - 1], c);
      assert order == order[..|order| - 1] + [order[|order| - 1]];
    }
  }

  /** The tick looks at the chapters of `b`. */
  predicate Visits(b: Base, i: Inputs) {
    Plays(i, b.eventId) && !b.ended
  }

  /** What a tick does about one chapter of the instance it works on. */
  lemma MatchExactly(s: State, b: Base, i: Inputs, c: int)
    requires i.first.Some?
    ensures var r := AfterMatch(s, b, i.first.value, i.flagOk, i.order);
            && Count(r.1, ChapterFinal(b.eventId, c)) <= 1
            && (ChapterFinal(b.eventId, c) in r.1 <==>
                  Visits(b, i) && ListsEnded(i, b.eventId, c) && !ChapterDone(WithStatuses(b, i.first.value.chapters), c))
            && r.0.inner.Some?
            && (ChapterDone(r.0.inner.value, c) <==>
                  if Visits(b, i) then ListsEnded(i, b.eventId, c) || ChapterDone(WithStatuses(b, i.first.value.chapters), c)
                  else ChapterDone(b, c))
            && (r.0.inner.value.ended <==> b.ended || (b.eventId == i.first.value.eventId && i.first.value.status.Ended?))
  {
    var e := i.first.value;
    if Visits(b, i) {
      var w := WithStatuses(b, e.chapters);
      ChaptersExactly(w, e, i.order, c);
      hide AfterChapters;
      var r := AfterChapters(w, e, i.order);
      assert Count(r.1 + [Live(b.eventId)], ChapterFinal(b.eventId, c)) == Count(r.1, ChapterFinal(b.eventId, c));
    }
  }

  /** A tick makes the final pass of a chapter if and only if it works on an instance
      of the event that has not ended, reads the event as World Bloom in play, finds
      the chapter listed as ended, and does not have it down as done. */
  lemma ChapterFinalIff(s: State, i: Inputs, e: int, c: int)
    ensures ChapterFinal(e, c) in AfterTick(s, i).1 <==>
            && Working(s, i).Some? && Working(s, i).value.eventId == e && !Working(s, i).value.ended
            && ListsEnded(i, e, c)
            && !ChapterDone(WithStatuses(Working(s, i).value, i.first.value.chapters), c)
  {
    hide AfterMatch, AfterTick;
    TickMatches(s, i);
    TickPasses(s, i);
    if Working(s, i).Some? { MatchExactly(s, Working(s, i).value, i, c); }
  }

  /** A finalised chapter is forgotten by a tick that keeps the instance if and only
      if that tick reads the event as World Bloom in play, before its end, and
      replaces the statuses by ones without the chapter. */
  lemma ForgottenIff(s: State, i: Inputs, c: int)
    requires s.inner.Some? && ChapterDone(s.inner.value, c) && Working(s, i) == s.inner
    ensures AfterTick(s, i).0.inner.Some?
    ensures !ChapterDone(AfterTick(s, i).0.inner.value, c) <==>
            && Plays(i, s.inner.value.eventId) && !s.inner.value.ended
            && s.inner.value.statuses != i.first.value.chapters && c !in i.first.value.chapters
  {
    hide AfterMatch, AfterTick;
    TickMatches(s, i);
    MatchExactly(s, s.inner.value, i, c);
  }

  // ------------------------------------------------------ the instance goes on

  /** Only listed chapters are down as done, as every instance has it from its start. */
  ghost predicate DoneAreListed(s: State) {
    s.inner.Some? ==> forall c | ChapterDone(s.inner.value, c) :: c in s.inner.value.statuses
  }

  lemma {:induction false} ChaptersDoneAreListed(b: Base, e: EventInfo, order: seq<int>)
    requires b.statuses == e.chapters && forall c | ChapterDone(b, c) :: c in b.statuses
    ensures forall c | ChapterDone(AfterChapters(b, e, order).0, c) :: c in AfterChapters(b, e, order).0.statuses
  {
    if order != [] { ChaptersDoneAreListed(b, e, order[..|order| - 1]); }
  }

  /** Being in order survives every tick, so it holds of any daemon started anew. */
  lemma DoneStayListed(s: State, i: Inputs)
    requires DoneAreListed(s)
    ensures DoneAreListed(AfterTick(s, i).0)
  {
    TickMatches(s, i);
    if Working(s, i).Some? {
      var b := Working(s, i).value;
      var e := i.first.value;
      if Visits(b, i) {
        var w := WithStatuses(b, e.chapters);
        ChaptersDoneAreListed(w, e, i.order);
        hide AfterChapters;
      }
    }
  }

  /** With agreeing reads a tick that does not close the instance keeps it. */
  lemma GoesOn(s: State, i: Inputs)
    requires s.inner.Some? && !s.inner.value.ended && Agree(i) && !Closes(i, s.inner.value.eventId)
    ensures Working(s, i) == s.inner || (Working(s, i).None? && !Plays(i, s.inner.value.eventId))
    ensures var t := AfterTick(s, i).0.inner;
            t.Some? && t.value.eventId == s.inner.value.eventId && !t.value.ended
  {
    hide AfterMatch;
    TickMatches(s, i);
    TickPasses(s, i);
    if Working(s, i).Some? { MatchExactly(s, s.inner.value, i, 0); }
  }

  /** An ended instance, or one that is closed by the next tick, has no final passes
      of chapters to come. */
  lemma NoneAfterEnd(s: State, run: seq<Inputs>, c: int)
    requires s.inner.Some? && forall k | 0 <= k < |run| :: Agree(run[k])
    requires s.inner.value.ended || (run != [] && Closes(run[0], s.inner.value.eventId))
    ensures ChapterFinal(s.inner.value.eventId, c) !in PassesOf(s, run)
  {
    var e := s.inner.value.eventId;
    if s.inner.value.ended {
      EndedIsAbsorbing(s, run, e);
    } else {
      hide AfterTick, AfterMatch;
      var i := run[0];
      var r := AfterTick(s, i);
      TickMatches(s, i);
      TickPasses(s, i);
      WorkingOn(s, i);
      ChapterFinalIff(s, i, e, c);
      if Working(s, i).Some? && Working(s, i) == s.inner { MatchExactly(s, s.inner.value, i, c); }
      EndedIsAbsorbing(r.0, run[1..], e);
    }
  }

  // ------------------------------------------------------------- looking ahead

  /** No tick before the k-th closes the instance. */
  predicate Open(run: seq<Inputs>, e: int, k: nat)
    requires k <= |run|
  {
    forall l | 0 <= l < k :: !Closes(run[l], e)
  }

  /** The run lists the chapter as ended before the event ends. */
  ghost predicate Finals(run: seq<Inputs>, e: int, c: int) {
    exists k | 0 <= k < |run| :: Open(run, e, k) && ListsEnded(run[k], e, c)
  }

  /** It does so after a tick in play without the chapter. */
  ghost predicate FinalsAfterGap(run: seq<Inputs>, e: int, c: int) {
    exists j, k | 0 <= j < k < |run| :: Open(run, e, k) && Unlists(run[j], e, c) && ListsEnded(run[k], e, c)
  }

  /** And it had done so before that tick. */
  ghost predicate FinalsTwice(run: seq<Inputs>, e: int, c: int) {
    exists h, j, k | 0 <= h < j < k < |run| ::
      Open(run, e, k) && ListsEnded(run[h], e, c) && Unlists(run[j], e, c) && ListsEnded(run[k], e, c)
  }

  lemma OpenStep(run: seq<Inputs>, e: int, k: nat)
    requires run != [] && 0 < k <= |run|
    ensures Open(run, e, k) <==> !Closes(run[0], e) && Open(run[1..], e, k - 1)
  {
    if Open(run[1..], e, k - 1) && !Closes(run[0], e) {
      forall l | 0 <= l < k ensures !Closes(run[l], e) {
        if l > 0 { assert run[1..][l - 1] == run[l]; }
      }
    }
  }

  lemma FinalsStep(run: seq<Inputs>, e: int, c: int)
    requires run != []
    ensures Finals(run, e, c) <==> ListsEnded(run[0], e, c) || (!Closes(run[0], e) && Finals(run[1..], e, c))
  {
    if Finals(run, e, c) {
      var k :| 0 <= k < |run| && Open(run, e, k) && ListsEnded(run[k], e, c);
      if k > 0 {
        OpenStep(run, e, k);
        assert run[1..][k - 1] == run[k];
      }
    }
    if ListsEnded(run[0], e, c) { assert Open(run, e, 0); }
    if !Closes(run[0], e) && Finals(run[1..], e, c) {
      var k :| 0 <= k < |run| - 1 && Open(run[1..], e, k) && ListsEnded(run[1..][k], e, c);
      OpenStep(run, e, k + 1);
      assert run[k + 1] == run[1..][k];
    }
  }

  lemma GapStep(run: seq<Inputs>, e: int, c: int)
    requires run != []
    ensures FinalsAfterGap(run, e, c) <==>
            !Closes(run[0], e) && ((Unlists(run[0], e, c) && Finals(run[1..], e, c)) || FinalsAfterGap(run[1..], e, c))
  {
    hide Closes, ListsEnded, Unlists, Open;
    var rest := run[1..];
    if FinalsAfterGap(run, e, c) {
      var j, k :| 0 <= j < k < |run| && Open(run, e, k) && Unlists(run[j], e, c) && ListsEnded(run[k], e, c);
      OpenStep(run, e, k);
      assert rest[k - 1] == run[k];
      if j > 0 { assert rest[j - 1] == run[j]; }
    }
    if !Closes(run[0], e) && Unlists(run[0], e, c) && Finals(rest, e, c) {
      var k :| 0 <= k < |rest| && Open(rest, e, k) && ListsEnded(rest[k], e, c);
      OpenStep(run, e, k + 1);
      assert run[k + 1] == rest[k];
    }
    if !Closes(run[0], e) && FinalsAfterGap(rest, e, c) {
      var j, k :| 0 <= j < k < |rest| && Open(rest, e, k) && Unlists(rest[j], e, c) && ListsEnded(rest[k], e, c);
      OpenStep(run, e, k + 1);
      assert run[k + 1] == rest[k] && run[j + 1] == rest[j];
    }
  }

  lemma TwiceStep(run: seq<Inputs>, e: int, c: int)
    requires run != []
    ensures FinalsTwice(run, e, c) <==>
            !Closes(run[0], e) && ((ListsEnded(run[0], e, c) && FinalsAfterGap(run[1..], e, c)) || FinalsTwice(run[1..], e, c))
  {
    hide Closes, ListsEnded, Unlists, Open;
    if FinalsTwice(run, e, c) { TwiceMeans(run, e, c); }
    var rest := run[1..];
    if !Closes(run[0], e) && ListsEnded(run[0], e, c) && FinalsAfterGap(rest, e, c) {
      var j, k :| 0 <= j < k < |rest| && Open(rest, e, k) && Unlists(rest[j], e, c) && ListsEnded(rest[k], e, c);
      OpenStep(run, e, k + 1);
      assert run[k + 1] == rest[k] && run[j + 1] == rest[j];
    }
    if !Closes(run[0], e) && FinalsTwice(rest, e, c) {
      var h, j, k :| 0 <= h < j < k < |rest| && Open(rest, e, k) && ListsEnded(rest[h], e, c) && Unlists(rest[j], e, c) && ListsEnded(rest[k], e, c);
      OpenStep(run, e, k + 1);
      assert run[k + 1] == rest[k] && run[j + 1] == rest[j] && run[h + 1] == rest[h];
    }
  }

  lemma TwiceMeans(run: seq<Inputs>, e: int, c: int)
    requires run != [] && FinalsTwice(run, e, c)
    ensures !Closes(run[0], e) && ((ListsEnded(run[0], e, c) && FinalsAfterGap(run[1..], e, c)) || FinalsTwice(run[1..], e, c))
  {
    hide Closes, ListsEnded, Unlists, Open;
    var rest := run[1..];
    var h, j, k :| 0 <= h < j < k < |run| && Open(run, e, k) && ListsEnded(run[h], e, c) && Unlists(run[j], e, c) && ListsEnded(run[k], e, c);
    OpenStep(run, e, k);
    assert rest[k - 1] == run[k] && rest[j - 1] == run[j];
    if h > 0 { assert rest[h - 1] == run[h]; }
  }

  // --------------------------------------------------------- over runs, exactly

  /** A chapter that is not done gets a final pass if and only if the event has not
      ended and a tick before its end lists the chapter as ended. */
  lemma {:induction false} FinalisedIff(s: State, run: seq<Inputs>, c: int)
    requires s.inner.Some? && !ChapterDone(s.inner.value, c)
    requires forall k | 0 <= k < |run| :: Agree(run[k])
    ensures ChapterFinal(s.inner.value.eventId, c) in PassesOf(s, run) <==>
            !s.inner.value.ended && Finals(run, s.inner.value.eventId, c)
    decreases |run|
  {
    hide AfterTick, AfterMatch, Finals;
    var e := s.inner.value.eventId;
    if run == [] {
      assert !Finals(run, e, c) by { NoFinals(e, c); }
    } else {
      var i := run[0];
      var t := AfterTick(s, i).0;
      FinalsStep(run, e, c);
      if s.inner.value.ended || Closes(i, e) {
        NoneAfterEnd(s, run, c);
      } else {
        GoesOn(s, i);
        ChapterFinalIff(s, i, e, c);
        if !ListsEnded(i, e, c) {
          TickMatches(s, i);
          if Working(s, i).Some? { MatchExactly(s, s.inner.value, i, c); }
          FinalisedIff(t, run[1..], c);
        }
      }
    }
  }

  lemma NoFinals(e: int, c: int)
    ensures !Finals([], e, c) && !FinalsAfterGap([], e, c) && !FinalsTwice([], e, c)
  {
  }

  /** A chapter already finalised gets another final pass if and only if the event has
      not ended and, before it ends, a tick in play does not list the chapter and a
      later one lists it as ended. */
  lemma {:induction false} FinalisedAgainIff(s: State, run: seq<Inputs>, c: int)
    requires s.inner.Some? && ChapterDone(s.inner.value, c) && DoneAreListed(s)
    requires forall k | 0 <= k < |run| :: Agree(run[k])
    ensures ChapterFinal(s.inner.value.eventId, c) in PassesOf(s, run) <==>
            !s.inner.value.ended && FinalsAfterGap(run, s.inner.value.eventId, c)
    decreases |run|
  {
    hide AfterTick, AfterMatch, Finals, FinalsAfterGap;
    var e := s.inner.value.eventId;
    if run == [] {
      NoFinals(e, c);
    } else {
      var i := run[0];
      var t := AfterTick(s, i).0;
      GapStep(run, e, c);
      if s.inner.value.ended || Closes(i, e) {
        NoneAfterEnd(s, run, c);
      } else {
        GoesOn(s, i);
        ChapterFinalIff(s, i, e, c);
        DoneStayListed(s, i);
        TickMatches(s, i);
        if Working(s, i).Some? { MatchExactly(s, s.inner.value, i, c); }
        if Unlists(i, e, c) {
          FinalisedIff(t, run[1..], c);
          if FinalsAfterGap(run[1..], e, c) { GapIsFinals(run[1..], e, c); }
        } else {
          FinalisedAgainIff(t, run[1..], c);
        }
      }
    }
  }

  /** A chapter gets two final passes or more if and only if, before the event ends,
      it is listed as ended, then not listed, then listed as ended again. */
  lemma {:induction false} FinalisedTwiceIff(s: State, run: seq<Inputs>, c: int)
    requires s.inner.Some? && !ChapterDone(s.inner.value, c) && DoneAreListed(s)
    requires forall k | 0 <= k < |run| :: Agree(run[k])
    ensures Count(PassesOf(s, run), ChapterFinal(s.inner.value.eventId, c)) >= 2 <==>
            !s.inner.value.ended && FinalsTwice(run, s.inner.value.eventId, c)
    decreases |run|
  {
    hide AfterTick, AfterMatch, FinalsTwice, FinalsAfterGap;
    var e := s.inner.value.eventId;
    if run == [] {
      NoFinals(e, c);
    } else {
      var i := run[0];
      var r := AfterTick(s, i);
      TwiceStep(run, e, c);
      if s.inner.value.ended || Closes(i, e) {
        NoneAfterEnd(s, run, c);
      } else {
        GoesOn(s, i);
        ChapterFinalIff(s, i, e, c);
        DoneStayListed(s, i);
        TickMatches(s, i);
        if Working(s, i).Some? { MatchExactly(s, s.inner.value, i, c); }
        assert Count(PassesOf(s, run), ChapterFinal(e, c)) == Count(r.1, ChapterFinal(e, c)) + Count(PassesOf(r.0, run[1..]), ChapterFinal(e, c));
        if ListsEnded(i, e, c) {
          FinalisedAgainIff(r.0, run[1..], c);
          if FinalsTwice(run[1..], e, c) { TwiceIsGap(run[1..], e, c); }
        } else {
          FinalisedTwiceIff(r.0, run[1..], c);
        }
      }
    }
  }

  lemma TwiceIsGap(run: seq<Inputs>, e: int, c: int)
    requires FinalsTwice(run, e, c)
    ensures FinalsAfterGap(run, e, c)
  {
  }

  // ------------------------------------------------------- from the very start

  /** The tick moves a daemon on to an instance of `e` or of a later event. */
  predicate Reaches(i: Inputs, e: int) {
    i.first.Some? && i.second.Some? && i.initOk && i.first.value.eventId >= e
  }

  /** Tick `m` is the first to reach `e` or beyond, and starts an instance of `e`
      that has not ended. */
  ghost predicate StartsAt(flags: set<int>, run: seq<Inputs>, e: int, m: nat)
    requires m < |run|
  {
    && (forall l | 0 <= l < m :: !Reaches(run[l], e))
    && Reaches(run[m], e) && run[m].first.value.eventId == e
    && !run[m].first.value.status.Ended? && e !in flags
  }

  /** The daemon has yet to come to `e`. */
  ghost predicate Before(s: State, e: int) {
    s.inner.None? || s.inner.value.eventId < e
  }

  lemma NotYet(s: State, i: Inputs, e: int, c: int)
    requires Before(s, e) && Agree(i) && !Reaches(i, e)
    ensures Before(AfterTick(s, i).0, e) && ChapterFinal(e, c) !in AfterTick(s, i).1
    ensures e in AfterTick(s, i).0.flags <==> e in s.flags
  {
    TickPasses(s, i);
    TickMatches(s, i);
    if Working(s, i).Some? { hide AfterChapters; }
  }

  /** The tick that starts an instance goes on as if the instance had been there. */
  lemma StartedHere(s: State, i: Inputs, e: int)
    requires Before(s, e) && Agree(i) && Reaches(i, e)
    ensures var b := NewBase(i.first.value, s.flags);
            && b.eventId >= e && AfterTick(s, i) == AfterTick(State(Some(b), s.flags), i)
            && DoneAreListed(State(Some(b), s.flags)) && forall c :: !ChapterDone(b, c)
  {
    var b := NewBase(i.first.value, s.flags);
    var t := State(Some(b), s.flags);
    TickMatches(s, i);
    TickMatches(t, i);
    assert AfterMatch(s, b, i.first.value, i.flagOk, i.order) == AfterMatch(t, b, i.first.value, i.flagOk, i.order) by { MatchIgnoresInner(s, t, b, i); }
  }

  lemma MatchIgnoresInner(s: State, t: State, b: Base, i: Inputs)
    requires s.flags == t.flags && i.first.Some?
    ensures AfterMatch(s, b, i.first.value, i.flagOk, i.order) == AfterMatch(t, b, i.first.value, i.flagOk, i.order)
  {
    hide AfterChapters;
  }

  /** For a daemon that has yet to come to the event, which is every daemon at its
      start: over any run a chapter is finalised more than once if and only if the run
      comes to the event while it is in play and then, before the event ends, lists
      the chapter as ended, does not list it, and lists it as ended again. */
  lemma {:induction false} FinalisedTwiceFromStartIff(s: State, run: seq<Inputs>, e: int, c: int)
    requires Before(s, e) && forall k | 0 <= k < |run| :: Agree(run[k])
    ensures Count(PassesOf(s, run), ChapterFinal(e, c)) >= 2 <==>
            exists m | 0 <= m < |run| :: StartsAt(s.flags, run, e, m) && FinalsTwice(run[m..], e, c)
    decreases |run|
  {
    hide AfterTick, AfterMatch, FinalsTwice, NewBase, Reaches;
    if run != [] {
      var i := run[0];
      var r := AfterTick(s, i);
      var rest := run[1..];
      if Reaches(i, e) {
        TwiceFromHere(s, run, e, c);
      } else {
        NotYet(s, i, e, c);
        FinalisedTwiceFromStartIff(r.0, rest, e, c);
        assert Count(PassesOf(s, run), ChapterFinal(e, c)) == Count(PassesOf(r.0, rest), ChapterFinal(e, c));
        forall m | 0 < m < |run|
          ensures StartsAt(s.flags, run, e, m) <==> StartsAt(r.0.flags, rest, e, m - 1)
          ensures run[m..] == rest[m - 1..]
        {
          StartsStep(s.flags, r.0.flags, run, e, m);
        }
        assert !StartsAt(s.flags, run, e, 0);
        if exists m | 0 <= m < |rest| :: StartsAt(r.0.flags, rest, e, m) && FinalsTwice(rest[m..], e, c) {
          var m :| 0 <= m < |rest| && StartsAt(r.0.flags, rest, e, m) && FinalsTwice(rest[m..], e, c);
          assert StartsAt(s.flags, run, e, m + 1) && run[m + 1..] == rest[m..];
        }
      }
    }
  }

  lemma TwiceFromHere(s: State, run: seq<Inputs>, e: int, c: int)
    requires Before(s, e) && forall k | 0 <= k < |run| :: Agree(run[k])
    requires run != [] && Reaches(run[0], e)
    ensures Count(PassesOf(s, run), ChapterFinal(e, c)) >= 2 <==>
            exists m | 0 <= m < |run| :: StartsAt(s.flags, run, e, m) && FinalsTwice(run[m..], e, c)
  {
    hide AfterTick, AfterMatch, FinalsTwice, NewBase, StartsAt, PassesOf;
    var i := run[0];
    var b := NewBase(i.first.value, s.flags);
    var t := State(Some(b), s.flags);
    StartedHere(s, i, e);
    NewInstance(s, i, e);
    assert PassesOf(s, run) == PassesOf(t, run) by { PassesByFirstTick(s, t, run); }
    StartsOnlyFirst(s.flags, run, e, c);
    if b.eventId == e {
      FinalisedTwiceIff(t, run, c);
    } else {
      EndedIsAbsorbing(t, run, e);
      assert Records(ChapterFinal(e, c), e) && ChapterFinal(e, c) !in PassesOf(t, run);
    }
  }

  lemma PassesByFirstTick(s: State, t: State, run: seq<Inputs>)
    requires run != [] && AfterTick(s, run[0]) == AfterTick(t, run[0])
    ensures PassesOf(s, run) == PassesOf(t, run)
  {
    hide AfterTick;
  }

  lemma StartsOnlyFirst(flags: set<int>, run: seq<Inputs>, e: int, c: int)
    requires run != [] && Reaches(run[0], e)
    ensures (exists m | 0 <= m < |run| :: StartsAt(flags, run, e, m) && FinalsTwice(run[m..], e, c)) <==>
            run[0].first.value.eventId == e && !run[0].first.value.status.Ended? && e !in flags && FinalsTwice(run, e, c)
  {
    hide FinalsTwice;
    assert run[0..] == run;
    forall m | 0 < m < |run| ensures !StartsAt(flags, run, e, m) {}
    assert StartsAt(flags, run, e, 0) <==> run[0].first.value.eventId == e && !run[0].first.value.status.Ended? && e !in flags;
  }

  lemma NewInstance(s: State, i: Inputs, e: int)
    requires Reaches(i, e)
    ensures var b := NewBase(i.first.value, s.flags);
            && b.eventId == i.first.value.eventId
            && (b.ended <==> i.first.value.status.Ended? || i.first.value.eventId in s.flags)
  {
  }

  lemma StartsStep(flags: set<int>, later: set<int>, run: seq<Inputs>, e: int, m: nat)
    requires 0 < m < |run| && !Reaches(run[0], e) && (e in flags <==> e in later)
    ensures StartsAt(flags, run, e, m) <==> StartsAt(later, run[1..], e, m - 1)
    ensures run[m..] == run[1..][m - 1..]
  {
    hide Reaches;
    var rest := run[1..];
    assert rest[m - 1] == run[m];
    if StartsAt(later, rest, e, m - 1) {
      forall l | 0 <= l < m ensures !Reaches(run[l], e) {
        if l > 0 { assert rest[l - 1] == run[l]; }
      }
    }
  }

  // --------------------------------------------- the chapter that stays listed

  /** A tick in play lists the chapter. */
  predicate Listed(i: Inputs, e: int, c: int) {
    Plays(i, e) ==> c in i.first.value.chapters
  }

  lemma {:induction false} DoneChapterStaysDone(s: State, run: seq<Inputs>, e: int, c: int)
    requires s.inner.Some? && forall k | 0 <= k < |run| :: Agree(run[k]) && Listed(run[k], e, c)
    requires s.inner.value.eventId > e || (s.inner.value.eventId == e && ChapterDone(s.inner.value, c))
    ensures ChapterFinal(e, c) !in PassesOf(s, run)
    decreases |run|
  {
    hide AfterTick, AfterMatch;
    if run != [] {
      var i := run[0];
      TickMatches(s, i);
      TickPasses(s, i);
      WorkingOn(s, i);
      ChapterFinalIff(s, i, e, c);
      if Working(s, i).Some? { MatchExactly(s, Working(s, i).value, i, c); }
      DoneChapterStaysDone(AfterTick(s, i).0, run[1..], e, c);
    }
  }

  /** A chapter that every tick in play lists gets at most one final pass. */
  lemma {:induction false} ListedChapterFinalOnce(s: State, run: seq<Inputs>, e: int, c: int)
    requires forall k | 0 <= k < |run| :: Agree(run[k]) && Listed(run[k], e, c)
    ensures Count(PassesOf(s, run), ChapterFinal(e, c)) <= 1
    decreases |run|
  {
    hide AfterTick, AfterMatch;
    if run != [] {
      var i := run[0];
      var r := AfterTick(s, i);
      TickMatches(s, i);
      TickPasses(s, i);
      ChapterFinalIff(s, i, e, c);
      if Working(s, i).Some? { MatchExactly(s, Working(s, i).value, i, c); }
      ListedChapterFinalOnce(r.0, run[1..], e, c);
      if ChapterFinal(e, c) in r.1 { DoneChapterStaysDone(r.0, run[1..], e, c); }
    }
  }

  lemma GapIsFinals(run: seq<Inputs>, e: int, c: int)
    requires FinalsAfterGap(run, e, c)
    ensures Finals(run, e, c)
  {
  }

  /** One tick without the chapter is enough to finalise it twice. */
  lemma UnlistedChapterFinalTwice()
    ensures var ended := EventInfo(5, true, Ongoing, map[3 := Ended]);
            var without := EventInfo(5, true, Ongoing, map[]);
            var s := State(Some(Base(5, false, map[3 := Ended], map[3 := false])), {});
            var run := [Inputs(Some(ended), Some(ended), true, true, [3]), Inputs(Some(without), Some(without), true, true, []),
                        Inputs(Some(ended), Some(ended), true, true, [3])];
            Count(PassesOf(s, run), ChapterFinal(5, 3)) == 2
  {
    var ended := EventInfo(5, true, Ongoing, map[3 := Ended]);
    var without := EventInfo(5, true, Ongoing, map[]);
    var s := State(Some(Base(5, false, map[3 := Ended], map[3 := false])), {});
    var a := Inputs(Some(ended), Some(ended), true, true, [3]);
    var b := Inputs(Some(without), Some(without), true, true, []);
    var run := [a, b, a];
    var s1 := State(Some(Base(5, false, map[3 := Ended], map[3 := true])), {});
    var s2 := State(Some(Base(5, false, map[], map[])), {});
    TwoOfThree(ended, without);
    assert run[1..] == [b, a] && [b, a][1..] == [a] && [a][1..] == [];
    assert PassesOf(s1, []) == [];
    assert PassesOf(s2, [a]) == [ChapterFinal(5, 3), Live(5)] + [];
    assert PassesOf(s1, [b, a]) == [Live(5)] + PassesOf(s2, [a]);
    assert PassesOf(s, run) == [ChapterFinal(5, 3), Live(5)] + PassesOf(s1, [b, a]);
  }

  lemma TwoOfThree(ended: EventInfo, without: EventInfo)
    requires ended == EventInfo(5, true, Ongoing, map[3 := Ended]) && without == EventInfo(5, true, Ongoing, map[])
    ensures var a := Inputs(Some(ended), Some(ended), true, true, [3]);
            var b := Inputs(Some(without), Some(without), true, true, []);
            var s := State(Some(Base(5, false, map[3 := Ended], map[3 := false])), {});
            var s1 := State(Some(Base(5, false, map[3 := Ended], map[3 := true])), {});
            var s2 := State(Some(Base(5, false, map[], map[])), {});
            && AfterTick(s, a) == (s1, [ChapterFinal(5, 3), Live(5)])
            && AfterTick(s1, b) == (s2, [Live(5)])
            && AfterTick(s2, a) == (s1, [ChapterFinal(5, 3), Live(5)])
  {
    var before := Base(5, false, map[3 := Ended], map[3 := false]);
    var after := Base(5, false, map[3 := Ended], map[3 := true]);
    var bare := Base(5, false, map[], map[]);
    assert [3][..0] == [];
    assert AfterChapters(before, ended, []) == (before, []);
    assert before.chapterEnded[3 := true] == after.chapterEnded;
    assert AfterChapter(before, ended, 3) == (after, [ChapterFinal(5, 3)]);
    assert [] + [ChapterFinal(5, 3)] == [ChapterFinal(5, 3)];
    assert AfterChapters(before, ended, [3]) == (after, [ChapterFinal(5, 3)]);
    assert WithStatuses(bare, ended.chapters) == before by {
      assert (map c | c in ended.chapters :: ChapterDone(bare, c)) == map[3 := false];
    }
    assert WithStatuses(after, without.chapters) == bare by {
      assert (map c | c in without.chapters :: ChapterDone(after, c)) == map[];
    }
    assert AfterChapters(bare, without, []) == (bare, []);
    assert [] + [Live(5)] == [Live(5)];
    assert [ChapterFinal(5, 3)] + [Live(5)] == [ChapterFinal(5, 3), Live(5)];
    hide AfterChapters, WithStatuses;
    assert AfterMatch(State(Some(before), {}), before, ended, true, [3]) == (State(Some(after), {}), [ChapterFinal(5, 3)] + [Live(5)]) by {
      assert WithStatuses(before, ended.chapters) == before by { Unchanged(before, ended.chapters); }
    }
    assert AfterMatch(State(Some(bare), {}), bare, ended, true, [3]) == (State(Some(after), {}), [ChapterFinal(5, 3)] + [Live(5)]);
    assert AfterMatch(State(Some(after), {}), after, without, true, []) == (State(Some(bare), {}), [] + [Live(5)]);
  }

  lemma Unchanged(b: Base, statuses: Lifecycle.Chapters)
    requires b.statuses == statuses
    ensures WithStatuses(b, statuses) == b
  {
  }
}
