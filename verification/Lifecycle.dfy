/** The daemon: which event it tracks, when it finalises it, and the World Bloom
    chapters.  A tick's inputs are what the two master-data reads answered, whether
    initialisation went through, and whether the ended flag could be written. */
module Lifecycle {
  import opened RankingTables
  import opened WorldBloomRows

  type Chapters = map<int, EventStatus>

  datatype EventInfo = EventInfo(eventId: int, worldBloom: bool, status: EventStatus, chapters: Chapters)

  /** A pass of the tracker over upstream data.  All but the refresh may write
      heartbeats. */
  datatype Pass =
    | Live(eventId: int)
    | Final(eventId: int)
    | ChapterFinal(eventId: int, chapter: int)
    | Refresh(eventId: int)

  /** What of a tracker instance decides its life. */
  datatype Base = Base(eventId: int, ended: bool, statuses: Chapters, chapterEnded: map<int, bool>)

  datatype State = State(inner: Option<Base>, flags: set<int>)

  datatype Inputs = Inputs(
    first: Option<EventInfo>,        // None: no event, or the read failed
    second: Option<EventInfo>,       // the read of `init`
    initOk: bool, flagOk: bool,
    order: seq<int>)                 // iteration order of the chapter map

  predicate ChapterDone(b: Base, c: int) {
    c in b.chapterEnded && b.chapterEnded[c]
  }

  // ------------------------------------------------------------ specification

  function NewBase(e: EventInfo, flags: set<int>): Base {
    Base(e.eventId, e.status.Ended? || e.eventId in flags, e.chapters,
         if e.worldBloom then map c | c in e.chapters :: false else map[])
  }

  function WithStatuses(b: Base, statuses: Chapters): Base {
    if b.statuses == statuses then b
    else b.(statuses := statuses, chapterEnded := map c | c in statuses :: ChapterDone(b, c))
  }

  /** `record_ranking_data`: nothing once the event has ended. */
  function Recorded(b: Base, pass: Pass): seq<Pass> {
    if b.ended then [] else [pass]
  }

  function AfterChapter(b: Base, e: EventInfo, c: int): (r: (Base, seq<Pass>)) {
    if c in e.chapters && e.chapters[c].Ended? && !ChapterDone(b, c) then
      (b.(chapterEnded := b.chapterEnded[c := true]), Recorded(b, ChapterFinal(b.eventId, c)))
    else (b, [])
  }

  function AfterChapters(b: Base, e: EventInfo, order: seq<int>): (r: (Base, seq<Pass>))
    ensures r.0.eventId == b.eventId && r.0.ended == b.ended && r.0.statuses == b.statuses
  {
    if order == [] then (b, [])
    else
      var before := AfterChapters(b, e, order[..|order| - 1]);
      var last := AfterChapter(before.0, e, order[|order| - 1]);
      (last.0, before.1 + last.1)
  }

  function AfterInit(s: State, i: Inputs): Option<Base> {
    if i.second.None? || !i.initOk then None else Some(NewBase(i.second.value, s.flags))
  }

  predicate NeedsInit(s: State, e: EventInfo) {
    s.inner.None? || s.inner.value.eventId < e.eventId
  }

  /** A tick on the instance `b`. */
  function AfterMatch(s: State, b: Base, e: EventInfo, flagOk: bool, order: seq<int>): (State, seq<Pass>) {
    if b.eventId != e.eventId then (s.(inner := Some(b)), Recorded(b, Live(b.eventId)))
    else if b.ended then (s.(inner := Some(b)), [Refresh(b.eventId)])
    else if e.status.Aggregating? then (s.(inner := Some(b)), [])
    else if e.status.Ended? then
      (State(Some(b.(ended := true)), if flagOk then s.flags + {b.eventId} else s.flags), Recorded(b, Final(b.eventId)))
    else
      var w := if e.worldBloom then AfterChapters(WithStatuses(b, e.chapters), e, order) else (b, []);
      (s.(inner := Some(w.0)), w.1 + Recorded(w.0, Live(b.eventId)))
  }

  function AfterTick(s: State, i: Inputs): (State, seq<Pass>) {
    if i.first.None? then (s, [])
    else
      var e := i.first.value;
      if NeedsInit(s, e) then
        var b := AfterInit(s, i);
        if b.None? then (s, []) else AfterMatch(s, b.value, e, i.flagOk, i.order)
      else AfterMatch(s, s.inner.value, e, i.flagOk, i.order)
  }

  // ------------------------------------------------------------------ classes

  class BaseTracker {
    const eventId: int
    var isEventEnded: bool
    var statuses: Chapters
    var chapterEnded: map<int, bool>

    ghost function Value(): Base
      reads this
    {
      Base(eventId, isEventEnded, statuses, chapterEnded)
    }

    constructor (e: EventInfo)
      ensures Value() == NewBase(e, {})
    {
      eventId := e.eventId;
      isEventEnded := e.status.Ended?;
      statuses := e.chapters;
      chapterEnded := if e.worldBloom then map c | c in e.chapters :: false else map[];
    }

    method Record(pass: Pass) returns (passes: seq<Pass>)
      ensures passes == Recorded(Value(), pass)
    {
      if isEventEnded { return []; }
      passes := [pass];
    }

    method SetWorldBloomStatuses(next: Chapters)
      modifies this
      ensures Value() == old(Value()).(statuses := next, chapterEnded := map c | c in next :: ChapterDone(old(Value()), c))
    {
      chapterEnded := map c | c in next :: c in chapterEnded && chapterEnded[c];
      statuses := next;
    }
  }

  class Daemon {
    var inner: BaseTracker?
    var flags: set<int>              // the ended flags in Redis

    ghost function Value(): State
      reads this, inner
    {
      State(if inner == null then None else Some(inner.Value()), flags)
    }

    constructor (flags: set<int>)
      ensures inner == null && Value() == State(None, flags)
    {
      inner := null;
      this.flags := flags;
    }

    method Init(second: Option<EventInfo>, initOk: bool) returns (ok: bool)
      modifies this`inner
      ensures ok <==> second.Some? && initOk
      ensures !ok ==> inner == old(inner)
      ensures ok ==> inner != null && fresh(inner) && inner.Value() == NewBase(second.value, flags)
    {
      if second.None? { return false; }
      var base := new BaseTracker(second.value);
      if !initOk { return false; }
      if base.eventId in flags { base.isEventEnded := true; }
      inner := base;
      ok := true;
    }

    method HandleWorldBloom(base: BaseTracker, e: EventInfo, order: seq<int>) returns (passes: seq<Pass>)
      modifies base
      ensures var r := AfterChapters(WithStatuses(old(base.Value()), e.chapters), e, order);
              base.Value() == r.0 && passes == r.1
    {
      if base.statuses != e.chapters { base.SetWorldBloomStatuses(e.chapters); }
      ghost var b := base.Value();
      passes := [];
      for k := 0 to |order|
        invariant AfterChapters(b, e, order[..k]) == (base.Value(), passes)
      {
        assert order[..k + 1][..k] == order[..k];
        var more := HandleChapter(base, e, order[k]);
        passes := passes + more;
      }
      assert order[..|order|] == order;
    }

    method HandleChapter(base: BaseTracker, e: EventInfo, c: int) returns (passes: seq<Pass>)
      modifies base`chapterEnded
      ensures (base.Value(), passes) == AfterChapter(old(base.Value()), e, c)
    {
      passes := [];
      if c in e.chapters && e.chapters[c].Ended? {
        if c in base.chapterEnded && base.chapterEnded[c] { return; }
        passes := base.Record(ChapterFinal(base.eventId, c));
        base.chapterEnded := base.chapterEnded[c := true];
      }
    }

    /** Whether the tick is over, and the passes it made. */
    method HandleTrackerMatch(e: EventInfo, flagOk: bool, order: seq<int>) returns (done: bool, passes: seq<Pass>)
      requires inner != null && inner.eventId == e.eventId
      modifies inner, this`flags
      ensures inner == old(inner) && inner != null
      ensures (Value(), if done then passes else passes + Recorded(inner.Value(), Live(inner.eventId)))
                == AfterMatch(old(Value()), old(inner.Value()), e, flagOk, order)
    {
      passes := [];
      if inner.isEventEnded { return true, [Refresh(inner.eventId)]; }
      if e.status.Aggregating? { return true, []; }
      if e.status.Ended? {
        passes := inner.Record(Final(inner.eventId));
        inner.isEventEnded := true;
        if flagOk { flags := flags + {inner.eventId}; }
        return true, passes;
      }
      if e.worldBloom { passes := HandleWorldBloom(inner, e, order); }
      done := false;
    }

    method TrackRankingData(i: Inputs) returns (passes: seq<Pass>)
      modifies this, inner
      ensures (Value(), passes) == AfterTick(old(Value()), i)
    {
      if i.first.None? { return []; }
      var e := i.first.value;
      if inner == null || inner.eventId < e.eventId {
        var ok := Init(i.second, i.initOk);
        if !ok { return []; }
      }
      var done := false;
      passes := [];
      if inner.eventId == e.eventId {
        done, passes := HandleTrackerMatch(e, i.flagOk, i.order);
      }
      if done { return; }
      var more := inner.Record(Live(inner.eventId));
      assert [] + more == more;
      passes := passes + more;
    }
  }
}
