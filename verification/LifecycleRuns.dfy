/** What the daemon promises over whole runs, from any state it may start in. */
module LifecycleRuns {
  import opened RankingTables
  import opened WorldBloomRows
  import opened Lifecycle

  /** The two master-data reads of a tick name the same event. */
  predicate Agree(i: Inputs) {
    i.first.Some? && i.second.Some? ==> i.first == i.second
  }

  function StateAfter(s: State, run: seq<Inputs>): State
    decreases |run|
  {
    if run == [] then s else StateAfter(AfterTick(s, run[0]).0, run[1..])
  }

  function PassesOf(s: State, run: seq<Inputs>): seq<Pass>
    decreases |run|
  {
    if run == [] then [] else AfterTick(s, run[0]).1 + PassesOf(AfterTick(s, run[0]).0, run[1..])
  }

  function Count(passes: seq<Pass>, p: Pass): nat {
    multiset(passes)[p]
  }

  /** Passes that fetch for recording, and so may write heartbeats. */
  predicate Records(p: Pass, e: int) {
    p.eventId == e && !p.Refresh?
  }

  // ---------------------------------------------------------------- one tick

  lemma {:induction false} ChapterPasses(b: Base, e: EventInfo, order: seq<int>)
    ensures forall p | p in AfterChapters(b, e, order).1 :: p.ChapterFinal? && p.eventId == b.eventId && !b.ended
  {
    if order != [] { ChapterPasses(b, e, order[..|order| - 1]); }
  }

  /** The instance a tick works on. */
  function Working(s: State, i: Inputs): Option<Base> {
    if i.first.None? then None
    else if NeedsInit(s, i.first.value) then AfterInit(s, i)
    else s.inner
  }

  lemma TickMatches(s: State, i: Inputs)
    ensures var b := Working(s, i);
            AfterTick(s, i) == if b.None? then (s, []) else AfterMatch(s, b.value, i.first.value, i.flagOk, i.order)
  {
    hide AfterMatch;
  }

  /** Every pass of a tick is for the instance it works on, which survives with its
      id; nothing is recorded for an ended event; a final pass ends it. */
  ghost predicate KeepsToItself(b: Base, r: (State, seq<Pass>)) {
    && r.0.inner.Some? && r.0.inner.value.eventId == b.eventId
    && (b.ended ==> r.0.inner.value.ended)
    && (forall p | p in r.1 :: p.eventId == b.eventId && (b.ended ==> p.Refresh?))
    && (forall p | p in r.1 && p.Final? :: r.0.inner.value.ended && r.1 == [p])
  }

  lemma MatchPasses(s: State, b: Base, e: EventInfo, flagOk: bool, order: seq<int>)
    ensures KeepsToItself(b, AfterMatch(s, b, e, flagOk, order))
  {
    if b.eventId != e.eventId || b.ended || e.status.Aggregating? || e.status.Ended? || !e.worldBloom {
    } else {
      ChapterPasses(WithStatuses(b, e.chapters), e, order);
      hide AfterChapters;
      var w := AfterChapters(WithStatuses(b, e.chapters), e, order);
      assert forall p | p in w.1 + [Live(b.eventId)] :: p.eventId == b.eventId && !p.Final?;
    }
  }

  lemma TickPasses(s: State, i: Inputs)
    ensures var r := AfterTick(s, i); var b := Working(s, i);
            if b.None? then r == (s, []) else KeepsToItself(b.value, r)
  {
    hide KeepsToItself, AfterMatch;
    TickMatches(s, i);
    if Working(s, i).Some? { MatchPasses(s, Working(s, i).value, i.first.value, i.flagOk, i.order); }
  }

  /** The tracked id falls in a tick exactly when a switch finds, on its second
      read, an older event than the one tracked. */
  lemma IdFallsExactlyIf(s: State, i: Inputs)
    requires s.inner.Some?
    ensures var r := AfterTick(s, i).0;
            && r.inner.Some?
            && (r.inner.value.eventId < s.inner.value.eventId <==>
                  && i.first.Some? && s.inner.value.eventId < i.first.value.eventId && i.initOk
                  && i.second.Some? && i.second.value.eventId < s.inner.value.eventId)
  {
    TickPasses(s, i);
  }

  /** With agreeing reads an instance is only ever replaced by one of a later event. */
  lemma WorkingOn(s: State, i: Inputs)
    requires s.inner.Some? && Agree(i)
    ensures var b := Working(s, i);
            b.Some? ==> b == s.inner || b.value.eventId > s.inner.value.eventId
  {
  }

  // --------------------------------------------------------------------- runs

  /** The tracked event id never decreases. */
  lemma {:induction false} EventIdNeverDecreases(s: State, run: seq<Inputs>)
    requires s.inner.Some? && forall k | 0 <= k < |run| :: Agree(run[k])
    ensures StateAfter(s, run).inner.Some? && StateAfter(s, run).inner.value.eventId >= s.inner.value.eventId
    decreases |run|
  {
    if run != [] {
      IdFallsExactlyIf(s, run[0]);
      EventIdNeverDecreases(AfterTick(s, run[0]).0, run[1..]);
    }
  }

  /** Ended is absorbing, and nothing is recorded, so no heartbeat written, for an
      event that has ended. */
  lemma {:induction false} EndedIsAbsorbing(s: State, run: seq<Inputs>, e: int)
    requires s.inner.Some? && forall k | 0 <= k < |run| :: Agree(run[k])
    requires s.inner.value.eventId > e || (s.inner.value.eventId == e && s.inner.value.ended)
    ensures var t := StateAfter(s, run);
            t.inner.Some? && (t.inner.value.eventId > e || (t.inner.value.eventId == e && t.inner.value.ended))
    ensures forall p | p in PassesOf(s, run) :: !Records(p, e)
    decreases |run|
  {
    if run != [] {
      TickPasses(s, run[0]);
      WorkingOn(s, run[0]);
      EndedIsAbsorbing(AfterTick(s, run[0]).0, run[1..], e);
    }
  }

  /** An event gets at most one final pass, and once it had it nothing more is
      recorded for it. */
  lemma {:induction false} FinalPassIsLast(s: State, run: seq<Inputs>, e: int)
    requires forall k | 0 <= k < |run| :: Agree(run[k])
    ensures Count(PassesOf(s, run), Final(e)) <= 1
    ensures forall i, j | 0 <= i < j < |PassesOf(s, run)| && PassesOf(s, run)[i] == Final(e) :: !Records(PassesOf(s, run)[j], e)
    decreases |run|
  {
    if run != [] {
      var r := AfterTick(s, run[0]);
      var rest := PassesOf(r.0, run[1..]);
      TickPasses(s, run[0]);
      FinalPassIsLast(r.0, run[1..], e);
      if Final(e) in r.1 {
        assert r.1 == [Final(e)];
        EndedIsAbsorbing(r.0, run[1..], e);
        assert Final(e) !in rest;
      }
      assert PassesOf(s, run) == r.1 + rest;
    }
  }
}
