/** What is always true of the cache protocol, piece by piece, and why none of
    it is undone by a later step. */
module CacheInvariant {
  import opened RankingTables
  import opened UpdateBracket
  import opened CacheProtocol

  type Flights = map<nat, Flight>
  type Writes = map<nat, Write>

  // ----------------------------------------------------------------- entries

  /** The rows as they stood when epoch `e` was published. */
  function Published(h: History, e: nat): RankingRows
    requires e < |h.pub| && h.pub[e] < |h.trace|
  {
    h.trace[h.pub[e]].rows
  }

  /** No transaction has landed since epoch `e`, the current one, was published. */
  ghost predicate Stable(h: History, e: nat) {
    h.epoch == e && h.writer != Open(true)
  }

  ghost predicate HistoryOk(s: State) {
    && |s.h.pub| == s.h.epoch + 1
    && s.h.trace != []
    && s.h.trace[|s.h.trace| - 1] == Instant(s.rows, s.h.epoch, s.dirty)
    && (forall e | 0 <= e < |s.h.pub| :: s.h.pub[e] < |s.h.trace| && s.h.trace[s.h.pub[e]].epoch == e)
    && (s.dirty <==> s.h.writer != Idle)
    && (s.h.writer != Open(true) ==> s.rows == Published(s.h, s.h.epoch))
  }

  ghost predicate EntryOk(w: World, h: History, k: Key, b: Bytes) {
    && k.epoch < |h.pub| && h.pub[k.epoch] < |h.trace|
    && match k.family
       case Value => IsAnswer(w, k.suffix, Published(h, k.epoch), Found(b))
       case Gzip => IsAnswer(w, k.suffix, Published(h, k.epoch), Found(w.gunzip(b)))
       case Negative => IsAnswer(w, k.suffix, Published(h, k.epoch), NotFound)
  }

  ghost predicate CtxOk(h: History, c: Ctx) {
    && c.epoch < |h.pub| && h.pub[c.epoch] < |h.trace|
    && c.at < |h.trace|
    && h.trace[c.at] == Instant(Published(h, c.epoch), c.epoch, false)
  }

  ghost predicate ControlOk(h: History, c: Control) {
    !c.dirty ==> CtxOk(h, Ctx(c.epoch, c.at))
  }

  ghost predicate WriteOk(w: World, h: History, m: Write) {
    && m.key.epoch < |h.pub|
    && (m.status == Written ==> EntryOk(w, h, m.key, m.bytes))
    && (m.status == Pending && Stable(h, m.key.epoch) ==> EntryOk(w, h, m.key, m.bytes))
  }

  // ----------------------------------------------------------------- answers

  function Rank(k: Kind): nat {
    if k == Lookup then 2 else 1
  }

  ghost predicate Overlaps(fl: Flights, f: nat, since: nat) {
    f in fl && (fl[f].closedAt.None? || since <= fl[f].closedAt.value)
  }

  ghost predicate NoneBefore(seen: seq<nat>, since: nat) {
    forall i | 0 <= i < |seen| :: since <= seen[i]
  }

  /** The reads are no older than the flight that ran them, and the flights they
      passed through overlap one another and the instant `since`. */
  ghost predicate Recent(fl: Flights, seen: seq<nat>, via: seq<nat>, since: nat) {
    && |via| <= 2
    && (via == [] ==> NoneBefore(seen, since))
    && (via != [] ==>
         && Overlaps(fl, via[0], since)
         && (|via| == 1 ==> NoneBefore(seen, fl[via[0]].startedAt))
         && (|via| == 2 ==> Overlaps(fl, via[1], fl[via[0]].startedAt)
                            && NoneBefore(seen, fl[via[1]].startedAt)))
  }

  ghost predicate SeenOk(h: History, seen: seq<nat>) {
    && (forall i | 0 <= i < |seen| :: seen[i] < |h.trace|)
    && (forall i, j | 0 <= i < j < |seen| :: seen[i] <= seen[j])
  }

  /** The result `r` is what `origin` says it is. */
  ghost predicate OriginOk(w: World, h: History, fl: Flights, suffix: string, origin: Origin, r: Fetched, since: nat) {
    match origin
    case Cached(at) =>
      at < |h.trace| && !h.trace[at].dirty && IsAnswer(w, suffix, h.trace[at].rows, r)
    case Queried(seen, via) =>
      && SeenOk(h, seen)
      && w.program(suffix, Snapshots(h.trace, seen)) == Return(r)
      && Recent(fl, seen, via, since)
  }

  function Plainly(w: World, j: Json): Bytes {
    if j.encoding == Plain then j.bytes else w.gunzip(j.bytes)
  }

  ghost predicate AnswerOk(w: World, h: History, fl: Flights, mode: Mode, suffix: string, a: Answer, since: nat) {
    match a.outcome
    case Body(j) =>
      (j.encoding == Gzipped ==> mode == Encoded) && OriginOk(w, h, fl, suffix, a.origin, Found(Plainly(w, j)), since)
    case Missing => OriginOk(w, h, fl, suffix, a.origin, NotFound, since)
    case _ => true
  }

  function Through(o: Origin): nat {
    if o.Cached? then 0 else |o.via|
  }

  /** How many flights an answer has been handed through. */
  function Hops(a: Answer): nat {
    if a.outcome.Error? || a.outcome.Cancelled? then 0 else Through(a.origin)
  }

  ghost predicate FlightOk(w: World, h: History, fl: Flights, f: Flight) {
    && f.startedAt < |h.trace|
    && (f.closedAt.Some? ==> f.closedAt.value < |h.trace|)
    && (f.result.Some? && f.result.value.Some? ==>
          && AnswerOk(w, h, fl, f.key.mode, f.key.suffix, f.result.value.value, f.startedAt)
          && Hops(f.result.value.value) < Rank(f.key.kind))
  }

  // ------------------------------------------------------------------- tasks

  /** The latest start among a task and the flights it owns. */
  function Since(fl: Flights, t: Task): nat {
    if t.owned != [] && t.owned[|t.owned| - 1] in fl then fl[t.owned[|t.owned| - 1]].startedAt else t.startedAt
  }

  ghost predicate OwnedOk(h: History, fl: Flights, t: Task) {
    && t.startedAt < |h.trace|
    && |t.owned| <= 2
    && (forall i | 0 <= i < |t.owned| ::
          && t.owned[i] in fl
          && fl[t.owned[i]].key.mode == t.req.mode
          && fl[t.owned[i]].key.suffix == t.req.suffix
          && t.startedAt <= fl[t.owned[i]].startedAt < |h.trace|)
    && (|t.owned| == 2 ==>
          && fl[t.owned[0]].startedAt <= fl[t.owned[1]].startedAt
          && fl[t.owned[0]].key.kind == Lookup
          && fl[t.owned[1]].key.kind == DirtyFetch)
  }

  /** Every flight that `t` owns outranks `rank`. */
  ghost predicate Outranks(fl: Flights, t: Task, rank: nat) {
    forall i | 0 <= i < |t.owned| :: t.owned[i] in fl && rank < Rank(fl[t.owned[i]].key.kind)
  }

  ghost predicate PlanOk(h: History, plan: Plan) {
    plan.ByKeys? ==> CtxOk(h, plan.ctx)
  }

  ghost predicate ReplyOk(w: World, h: History, suffix: string, r: Reply) {
    match r
    case Dirty(_, _) => true
    case Hit(ctx, body) => CtxOk(h, ctx) && EntryOk(w, h, Key(Value, ctx.epoch, suffix), body)
    case Absent(ctx) => CtxOk(h, ctx) && EntryOk(w, h, Key(Negative, ctx.epoch, suffix), [])
    case Miss(ctx) => CtxOk(h, ctx)
  }

  ghost predicate WaitOk(h: History, fl: Flights, t: Task, f: nat, plan: Plan) {
    && f in fl
    && fl[f].key.mode == t.req.mode
    && fl[f].key.suffix == t.req.suffix
    && (fl[f].key.kind == DirtyFetch <==> plan.Direct?)
    && Overlaps(fl, f, Since(fl, t))
    && Outranks(fl, t, Rank(fl[f].key.kind))
    && PlanOk(h, plan)
  }

  ghost predicate KeysOk(w: World, h: History, req: Request, ctx: Ctx,
                         gz: Option<Bytes>, body: Option<Bytes>, negative: bool) {
    && CtxOk(h, ctx)
    && (gz.Some? ==> req.mode == Encoded && EntryOk(w, h, Key(Gzip, ctx.epoch, req.suffix), gz.value))
    && (body.Some? ==> EntryOk(w, h, Key(Value, ctx.epoch, req.suffix), body.value))
    && (negative ==> EntryOk(w, h, Key(Negative, ctx.epoch, req.suffix), []))
  }

  /** The endpoint asked for each of the reads it was given. */
  ghost predicate Asked(w: World, h: History, suffix: string, seen: seq<nat>)
    requires SeenOk(h, seen)
  {
    forall n: nat | n < |seen| :: w.program(suffix, Snapshots(h.trace, seen)[..n]).Read?
  }

  ghost predicate FetchOk(w: World, h: History, fl: Flights, t: Task, context: Option<Ctx>, seen: seq<nat>) {
    && SeenOk(h, seen)
    && Asked(w, h, t.req.suffix, seen)
    && NoneBefore(seen, Since(fl, t))
    && (context.Some? ==> CtxOk(h, context.value))
    && (context.Some? && Stable(h, context.value.epoch) ==>
          forall i | 0 <= i < |seen| :: h.trace[seen[i]].rows == Published(h, context.value.epoch))
  }

  /** Write `id` carries this key and value, and its sender's result is sound. */
  ghost predicate SendOk(w: World, h: History, fl: Flights, wr: Writes, t: Task,
                         key: Key, bytes: Bytes, id: nat, origin: Origin, r: Fetched) {
    && id in wr && wr[id].key == key && wr[id].bytes == bytes
    && SourceOk(w, h, fl, t, origin, r)
  }

  ghost predicate SourceOk(w: World, h: History, fl: Flights, t: Task, origin: Origin, r: Fetched) {
    && OriginOk(w, h, fl, t.req.suffix, origin, r, Since(fl, t))
    && Outranks(fl, t, Through(origin))
  }

  ghost predicate DeliverOk(w: World, h: History, fl: Flights, t: Task, a: Answer) {
    && AnswerOk(w, h, fl, t.req.mode, t.req.suffix, a, Since(fl, t))
    && Outranks(fl, t, Hops(a))
  }

  ghost predicate PcOk(w: World, h: History, fl: Flights, wr: Writes, t: Task) {
    match t.pc
    case Begin => t.owned == []
    case Peek(ctx) => t.owned == [] && CtxOk(h, ctx)
    case Wait(f, plan) => WaitOk(h, fl, t, f, plan)
    case Keys(ctx, stage, gz, body, negative) =>
      Outranks(fl, t, 1) && stage <= 3 && KeysOk(w, h, t.req, ctx, gz, body, negative)
    case Script => Outranks(fl, t, 1)
    case Replied(r) => Outranks(fl, t, 1) && ReplyOk(w, h, t.req.suffix, r)
    case Hold(ctx, b) => CtxOk(h, ctx) && EntryOk(w, h, Key(Value, ctx.epoch, t.req.suffix), b)
    case Fetch(context, seen) => FetchOk(w, h, fl, t, context, seen)
    case Encode(ctx, b) => t.req.mode == Encoded && CtxOk(h, ctx) && EntryOk(w, h, Key(Value, ctx.epoch, t.req.suffix), b)
    case SendGzip(ctx, b, id, origin, _) =>
      && t.req.mode == Encoded && CtxOk(h, ctx)
      && SendOk(w, h, fl, wr, t, Key(Gzip, ctx.epoch, t.req.suffix), w.gzip(b), id, origin, Found(b))
      && (Stable(h, ctx.epoch) ==> EntryOk(w, h, Key(Value, ctx.epoch, t.req.suffix), b))
    case SendBody(ctx, b, id, origin, out) =>
      && CtxOk(h, ctx)
      && SendOk(w, h, fl, wr, t, Key(Value, ctx.epoch, t.req.suffix), b, id, origin, Found(b))
      && (out == Json(b, Plain) || (out == Json(w.gzip(b), Gzipped) && t.req.mode == Encoded))
    case SendMiss(id, origin) => SourceOk(w, h, fl, t, origin, NotFound)
    case Deliver(a, _) => DeliverOk(w, h, fl, t, a)
    case Done(a) => AnswerOk(w, h, fl, t.req.mode, t.req.suffix, a, t.startedAt)
  }

  ghost predicate TaskOk(w: World, h: History, fl: Flights, wr: Writes, t: Task) {
    OwnedOk(h, fl, t) && PcOk(w, h, fl, wr, t)
  }

  // ------------------------------------------------------------- whole state

  ghost predicate StoreOk(w: World, h: History, store: map<Key, Bytes>) {
    forall k | k in store :: EntryOk(w, h, k, store[k])
  }

  ghost predicate ValuesOk(w: World, h: History, values: map<(nat, Key), Bytes>) {
    forall nk | nk in values :: EntryOk(w, h, nk.1, values[nk])
  }

  ghost predicate ControlsOk(h: History, controls: map<nat, Control>) {
    forall n | n in controls :: ControlOk(h, controls[n])
  }

  ghost predicate WritesOk(w: World, h: History, wr: Writes) {
    forall i | i in wr :: WriteOk(w, h, wr[i])
  }

  ghost predicate FlightsOk(w: World, h: History, fl: Flights) {
    forall f | f in fl :: FlightOk(w, h, fl, fl[f])
  }

  ghost predicate RegistryOk(fl: Flights, registry: map<Slot, nat>) {
    forall slot | slot in registry ::
      && registry[slot] in fl
      && var f := fl[registry[slot]];
         f.node == slot.0 && f.key == slot.1 && f.closedAt.None?
  }

  ghost predicate TasksOk(w: World, h: History, fl: Flights, wr: Writes, tasks: map<nat, Task>) {
    forall i | i in tasks :: TaskOk(w, h, fl, wr, tasks[i])
  }

  ghost predicate Inv(w: World, s: State) {
    && HistoryOk(s)
    && StoreOk(w, s.h, s.store)
    && ValuesOk(w, s.h, s.values)
    && ControlsOk(s.h, s.controls)
    && WritesOk(w, s.h, s.writes)
    && FlightsOk(w, s.h, s.flights)
    && RegistryOk(s.flights, s.registry)
    && TasksOk(w, s.h, s.flights, s.writes, s.tasks)
  }

  // ----------------------------------------------------- history only grows

  /** `g` continues `h`: nothing is rewritten, and an epoch that stopped being
      stable never is again. */
  ghost predicate Continues(h: History, g: History) {
    && h.trace <= g.trace && h.pub <= g.pub
    && (forall e: nat | e < |h.pub| && Stable(g, e) :: Stable(h, e))
  }

  lemma EntryLater(w: World, h: History, g: History, k: Key, b: Bytes)
    requires Continues(h, g) && EntryOk(w, h, k, b)
    ensures EntryOk(w, g, k, b)
  {
    assert Published(h, k.epoch) == Published(g, k.epoch);
  }

  lemma WriteLater(w: World, h: History, g: History, m: Write)
    requires Continues(h, g) && WriteOk(w, h, m)
    ensures WriteOk(w, g, m)
  {
    if EntryOk(w, h, m.key, m.bytes) { EntryLater(w, h, g, m.key, m.bytes); }
  }

  lemma SnapshotsLater(h: History, g: History, seen: seq<nat>)
    requires h.trace <= g.trace && SeenOk(h, seen)
    ensures SeenOk(g, seen) && Snapshots(h.trace, seen) == Snapshots(g.trace, seen)
  {
  }

  lemma OriginLater(w: World, h: History, g: History, fl: Flights, suffix: string, o: Origin, r: Fetched, since: nat)
    requires Continues(h, g) && OriginOk(w, h, fl, suffix, o, r, since)
    ensures OriginOk(w, g, fl, suffix, o, r, since)
  {
    if o.Queried? { SnapshotsLater(h, g, o.seen); }
  }

  lemma AnswerLater(w: World, h: History, g: History, fl: Flights, mode: Mode, suffix: string, a: Answer, since: nat)
    requires Continues(h, g) && AnswerOk(w, h, fl, mode, suffix, a, since)
    ensures AnswerOk(w, g, fl, mode, suffix, a, since)
  {
    match a.outcome
    case Body(j) => OriginLater(w, h, g, fl, suffix, a.origin, Found(Plainly(w, j)), since);
    case Missing => OriginLater(w, h, g, fl, suffix, a.origin, NotFound, since);
    case Error =>
    case Cancelled =>
  }

  lemma FlightLater(w: World, h: History, g: History, fl: Flights, f: Flight)
    requires Continues(h, g) && FlightOk(w, h, fl, f)
    ensures FlightOk(w, g, fl, f)
  {
    if f.result.Some? && f.result.value.Some? {
      AnswerLater(w, h, g, fl, f.key.mode, f.key.suffix, f.result.value.value, f.startedAt);
    }
  }

  lemma KeysLater(w: World, h: History, g: History, req: Request, ctx: Ctx, gz: Option<Bytes>, body: Option<Bytes>, negative: bool)
    requires Continues(h, g) && KeysOk(w, h, req, ctx, gz, body, negative)
    ensures KeysOk(w, g, req, ctx, gz, body, negative)
  {
    if gz.Some? { EntryLater(w, h, g, Key(Gzip, ctx.epoch, req.suffix), gz.value); }
    if body.Some? { EntryLater(w, h, g, Key(Value, ctx.epoch, req.suffix), body.value); }
    if negative { EntryLater(w, h, g, Key(Negative, ctx.epoch, req.suffix), []); }
  }

  lemma ReplyLater(w: World, h: History, g: History, suffix: string, r: Reply)
    requires Continues(h, g) && ReplyOk(w, h, suffix, r)
    ensures ReplyOk(w, g, suffix, r)
  {
    match r
    case Dirty(_, _) =>
    case Hit(ctx, body) => EntryLater(w, h, g, Key(Value, ctx.epoch, suffix), body);
    case Absent(ctx) => EntryLater(w, h, g, Key(Negative, ctx.epoch, suffix), []);
    case Miss(ctx) =>
  }

  lemma FetchLater(w: World, h: History, g: History, fl: Flights, t: Task, context: Option<Ctx>, seen: seq<nat>)
    requires Continues(h, g) && FetchOk(w, h, fl, t, context, seen)
    ensures FetchOk(w, g, fl, t, context, seen)
  {
    SnapshotsLater(h, g, seen);
  }

  lemma SendLater(w: World, h: History, g: History, fl: Flights, wr: Writes, t: Task)
    requires Continues(h, g) && PcOk(w, h, fl, wr, t)
    requires t.pc.SendGzip? || t.pc.SendBody? || t.pc.SendMiss?
    ensures PcOk(w, g, fl, wr, t)
  {
    var since := Since(fl, t);
    match t.pc
    case SendGzip(ctx, b, _, origin, _) =>
      OriginLater(w, h, g, fl, t.req.suffix, origin, Found(b), since);
      if Stable(h, ctx.epoch) { EntryLater(w, h, g, Key(Value, ctx.epoch, t.req.suffix), b); }
    case SendBody(_, b, _, origin, _) => OriginLater(w, h, g, fl, t.req.suffix, origin, Found(b), since);
    case SendMiss(_, origin) => OriginLater(w, h, g, fl, t.req.suffix, origin, NotFound, since);
  }

  lemma PcLater(w: World, h: History, g: History, fl: Flights, wr: Writes, t: Task)
    requires Continues(h, g) && PcOk(w, h, fl, wr, t)
    ensures PcOk(w, g, fl, wr, t)
  {
    match t.pc
    case Begin =>
    case Peek(_) =>
    case Wait(_, _) =>
    case Keys(ctx, _, gz, body, negative) => KeysLater(w, h, g, t.req, ctx, gz, body, negative);
    case Script =>
    case Replied(r) => ReplyLater(w, h, g, t.req.suffix, r);
    case Hold(ctx, b) => EntryLater(w, h, g, Key(Value, ctx.epoch, t.req.suffix), b);
    case Fetch(context, seen) => FetchLater(w, h, g, fl, t, context, seen);
    case Encode(ctx, b) => EntryLater(w, h, g, Key(Value, ctx.epoch, t.req.suffix), b);
    case Deliver(a, _) => AnswerLater(w, h, g, fl, t.req.mode, t.req.suffix, a, Since(fl, t));
    case Done(a) => AnswerLater(w, h, g, fl, t.req.mode, t.req.suffix, a, t.startedAt);
    case _ => SendLater(w, h, g, fl, wr, t);
  }

  lemma TaskLater(w: World, h: History, g: History, fl: Flights, wr: Writes, t: Task)
    requires Continues(h, g) && TaskOk(w, h, fl, wr, t)
    ensures TaskOk(w, g, fl, wr, t)
  {
    PcLater(w, h, g, fl, wr, t);
  }

  /** All but HistoryOk survives any continuation of the history. */
  lemma InvLater(w: World, s: State, u: State)
    requires Inv(w, s) && Continues(s.h, u.h) && HistoryOk(u)
    requires u == s.(h := u.h, rows := u.rows, dirty := u.dirty)
    ensures Inv(w, u)
  {
    forall k | k in s.store ensures EntryOk(w, u.h, k, s.store[k]) { EntryLater(w, s.h, u.h, k, s.store[k]); }
    forall nk | nk in s.values ensures EntryOk(w, u.h, nk.1, s.values[nk]) { EntryLater(w, s.h, u.h, nk.1, s.values[nk]); }
    forall i | i in s.writes ensures WriteOk(w, u.h, s.writes[i]) { WriteLater(w, s.h, u.h, s.writes[i]); }
    forall f | f in s.flights ensures FlightOk(w, u.h, s.flights, s.flights[f]) {
      FlightLater(w, s.h, u.h, s.flights, s.flights[f]);
    }
    forall i | i in s.tasks ensures TaskOk(w, u.h, s.flights, s.writes, s.tasks[i]) {
      TaskLater(w, s.h, u.h, s.flights, s.writes, s.tasks[i]);
    }
  }

  lemma StampContinues(u: State)
    requires HistoryOk(u)
    ensures HistoryOk(Stamp(u)) && Continues(u.h, Stamp(u).h)
  {
    var t := Stamp(u);
    assert forall i | 0 <= i < |u.h.trace| :: t.h.trace[i] == u.h.trace[i];
    assert t.h.pub == u.h.pub;
  }

  lemma StampKeeps(w: World, u: State)
    requires Inv(w, u)
    ensures Inv(w, Stamp(u))
  {
    StampContinues(u);
    InvLater(w, u, Stamp(u));
  }

  /** Each tracker command continues the history. */
  lemma IssueKeeps(w: World, s: State, c: Command)
    requires Inv(w, s) && After(s.h.writer, c).Some?
    ensures Inv(w, Stamp(IssueCommand(s, c)))
  {
    var u := Stamp(IssueCommand(s, c));
    assert forall i | 0 <= i < |s.h.trace| :: u.h.trace[i] == s.h.trace[i];
    assert Continues(s.h, u.h);
    assert HistoryOk(u);
    InvLater(w, s, u);
  }
}
