/** The two-level response cache as a transition system.

    One writer brackets its transactions with Redis commands while any number
    of API processes ("nodes") read, fetch and publish.  Every Redis script and
    every plain Redis command is one step; a fetch reads the database at
    several instants; a conditional write is a message that may execute long
    after its sender stopped waiting. */
module CacheProtocol {
  import opened RankingTables
  import opened UpdateBracket

  type Bytes = seq<bv8>

  // ---------------------------------------------------------------- requests

  datatype Fetched = Found(body: Bytes) | NotFound | Failed
  datatype Instr = Read | Return(result: Fetched)

  /** What the cache does not look into: `program` is the endpoint, which reads
      the database again or returns, as a function of the snapshots read so far. */
  datatype World = World(
    program: (string, seq<RankingRows>) -> Instr,
    valid: (string, Bytes) -> bool,
    gzip: Bytes -> Bytes,
    gunzip: Bytes -> Bytes,
    precompressMinBytes: nat,
    cachesMisses: bool)

  ghost predicate Lossless(w: World) {
    forall b: Bytes :: w.gunzip(w.gzip(b)) == b
  }

  function Repeat(rows: RankingRows, n: nat): (r: seq<RankingRows>) {
    seq(n, _ => rows)
  }

  /** The endpoint, run on one fixed snapshot, returns `r`. */
  ghost predicate IsAnswer(w: World, suffix: string, rows: RankingRows, r: Fetched) {
    exists n: nat :: AnswersAfter(w, suffix, rows, r, n)
  }

  ghost predicate AnswersAfter(w: World, suffix: string, rows: RankingRows, r: Fetched, n: nat) {
    && w.program(suffix, Repeat(rows, n)) == Return(r)
    && forall m: nat | m < n :: w.program(suffix, Repeat(rows, m)).Read?
  }

  lemma AnswerIsUnique(w: World, suffix: string, rows: RankingRows, r1: Fetched, r2: Fetched)
    requires IsAnswer(w, suffix, rows, r1) && IsAnswer(w, suffix, rows, r2)
    ensures r1 == r2
  {
    var n1: nat :| AnswersAfter(w, suffix, rows, r1, n1);
    var n2: nat :| AnswersAfter(w, suffix, rows, r2, n2);
  }

  datatype Mode = Identity | Encoded
  datatype Request = Request(node: nat, suffix: string, mode: Mode, maxBytes: nat, validates: bool)

  datatype Encoding = Plain | Gzipped
  datatype Json = Json(bytes: Bytes, encoding: Encoding)
  datatype Outcome = Body(json: Json) | Missing | Error | Cancelled

  /** Where an answer comes from: the cache, under the control observed at
      instant `at`; or database reads at the instants `seen`, handed on through
      the flights `via`, the first of which is the one the request joined. */
  datatype Origin = Cached(at: nat) | Queried(seen: seq<nat>, via: seq<nat>)
  datatype Answer = Answer(outcome: Outcome, origin: Origin)

  // ------------------------------------------------------------------- state

  datatype Family = Value | Gzip | Negative
  datatype Key = Key(family: Family, epoch: nat, suffix: string)

  datatype Ctx = Ctx(epoch: nat, at: nat)
  datatype Control = Control(epoch: nat, dirty: bool, at: nat)

  datatype Kind = Lookup | DirtyFetch
  datatype FlightKey = FlightKey(mode: Mode, kind: Kind, epoch: int, suffix: string)
  datatype Flight = Flight(
    node: nat, key: FlightKey, startedAt: nat,
    result: Option<Option<Answer>>, closedAt: Option<nat>)
  type Slot = (nat, FlightKey)

  datatype WriteStatus = Pending | Written | Refused
  datatype Write = Write(key: Key, bytes: Bytes, status: WriteStatus)

  datatype Plan = ByKeys(ctx: Ctx) | ByScript | Direct
  datatype Reply = Dirty(epoch: nat, at: nat) | Hit(ctx: Ctx, body: Bytes) | Absent(ctx: Ctx) | Miss(ctx: Ctx)

  /** Where a request stands. */
  datatype Pc =
    | Begin
    | Peek(ctx: Ctx)                                             // L1 control is clean
    | Wait(flight: nat, plan: Plan)
    | Keys(ctx: Ctx, stage: nat, gz: Option<Bytes>, body: Option<Bytes>, negative: bool)
    | Script
    | Replied(reply: Reply)
    | Hold(ctx: Ctx, bytes: Bytes)                               // identity bytes read from L2
    | Fetch(context: Option<Ctx>, seen: seq<nat>)
    | Encode(ctx: Ctx, bytes: Bytes)                             // cached identity bytes to compress
    | SendGzip(ctx: Ctx, bytes: Bytes, id: nat, origin: Origin, thenBody: bool)
    | SendBody(ctx: Ctx, bytes: Bytes, id: nat, origin: Origin, out: Json)
    | SendMiss(id: nat, origin: Origin)
    | Deliver(answer: Answer, marked: bool)
    | Done(answer: Answer)

  datatype Task = Task(req: Request, startedAt: nat, owned: seq<nat>, pc: Pc)

  datatype Instant = Instant(rows: RankingRows, epoch: nat, dirty: bool)

  /** The writer's side: the published epoch, and every instant so far with the
      present last; pub[e] is the instant at which epoch e was published. */
  datatype History = History(epoch: nat, writer: Writer, trace: seq<Instant>, pub: seq<nat>)

  datatype State = State(
    h: History,
    rows: RankingRows, dirty: bool, store: map<Key, Bytes>,
    controls: map<nat, Control>, values: map<(nat, Key), Bytes>,
    flights: map<nat, Flight>, registry: map<Slot, nat>,
    writes: map<nat, Write>,
    tasks: map<nat, Task>)

  ghost predicate Init(s: State) {
    && !s.dirty && s.store == map[]
    && s.controls == map[] && s.values == map[] && s.flights == map[] && s.registry == map[]
    && s.writes == map[] && s.tasks == map[]
    && s.h == History(0, Idle, [Instant(s.rows, 0, false)], [0])
  }

  // ------------------------------------------------------------------- steps

  datatype Step =
    | Issue(command: Command)                    // the tracker's next command
    | ExecWrite(id: nat)                         // a conditional write reaches Redis
    | ExpireEntry(key: Key)
    | ExpireControl(node: nat)
    | EvictValue(node: nat, key: Key)
    | Arrive(id: nat, req: Request, bypass: bool)
    | Run(id: nat, spare: nat)                   // a request moves on
    | Fail(id: nat, spare: nat)                  // the call it awaits fails or times out
    | Drop(id: nat)                              // its future is dropped

  function Now(s: State): nat
    requires s.h.trace != []
  {
    |s.h.trace| - 1
  }

  function Goto(s: State, id: nat, pc: Pc): (r: State)
    requires id in s.tasks
    ensures r.h == s.h
  {
    s.(tasks := s.tasks[id := s.tasks[id].(pc := pc)])
  }

  /** What a task does next: only move, or also send a conditional write. */
  datatype Move = Only(pc: Pc) | Sending(key: Key, bytes: Bytes, pc: Pc)

  function Perform(s: State, id: nat, spare: nat, m: Move): (r: State)
    requires id in s.tasks
    ensures r.h == s.h
  {
    match m
    case Only(pc) => Goto(s, id, pc)
    case Sending(key, bytes, pc) => Goto(s, id, pc).(writes := s.writes[spare := Write(key, bytes, Pending)])
  }

  function Start(plan: Plan): Pc {
    match plan
    case ByKeys(ctx) => Keys(ctx, 0, None, None, false)
    case ByScript => Script
    case Direct => Fetch(None, [])
  }

  /** SingleFlight::begin: wait on the registered flight or own a new one. */
  function Join(s: State, id: nat, key: FlightKey, plan: Plan, spare: nat): (r: State)
    requires id in s.tasks && s.h.trace != []
    ensures r.h == s.h
  {
    var t := s.tasks[id];
    var slot := (t.req.node, key);
    if slot in s.registry then
      Goto(s, id, Wait(s.registry[slot], plan))
    else
      s.(flights := s.flights[spare := Flight(t.req.node, key, Now(s), None, None)],
         registry := s.registry[slot := spare],
         tasks := s.tasks[id := t.(owned := t.owned + [spare], pc := Start(plan))])
  }

  function Snapshots(trace: seq<Instant>, seen: seq<nat>): (r: seq<RankingRows>)
    requires forall i | 0 <= i < |seen| :: seen[i] < |trace|
    ensures |r| == |seen|
  {
    seq(|seen|, i requires 0 <= i < |seen| => trace[seen[i]].rows)
  }

  function Lookup1<K(==), V>(m: map<K, V>, k: K): Option<V> {
    if k in m then Some(m[k]) else None
  }

  /** encode_response without a write context. */
  function Render(w: World, mode: Mode, body: Bytes): Json {
    if mode == Identity || |body| < w.precompressMinBytes then Json(body, Plain)
    else Json(w.gzip(body), Gzipped)
  }

  function Share(a: Answer): Option<Answer> {
    if a.outcome.Body? || a.outcome.Missing? then Some(a) else None
  }

  /** What a waiter makes of a shared result; the bytes waiter drops the encoding tag. */
  function Take(mode: Mode, flight: nat, a: Answer): Answer {
    var outcome :=
      if mode == Identity && a.outcome.Body? then Body(Json(a.outcome.json.bytes, Plain)) else a.outcome;
    match a.origin
    case Cached(_) => Answer(outcome, a.origin)
    case Queried(seen, via) => Answer(outcome, Queried(seen, [flight] + via))
  }

  predicate CanRun(s: State, id: nat, spare: nat) {
    && s.h.trace != []
    && id in s.tasks && spare !in s.flights && spare !in s.writes
    && match s.tasks[id].pc
       case Wait(f, _) => f in s.flights && s.flights[f].result.Some?
       case Keys(_, stage, _, _, _) => stage <= 3
       case Fetch(_, seen) => forall i | 0 <= i < |seen| :: seen[i] < |s.h.trace|
       case SendGzip(_, _, i, _, _) => i in s.writes && s.writes[i].status != Pending
       case SendBody(_, _, i, _, _) => i in s.writes && s.writes[i].status != Pending
       case SendMiss(i, _) => i in s.writes && s.writes[i].status != Pending
       case Deliver(_, _) => forall o | o in s.tasks[id].owned :: o in s.flights
       case Done(_) => false
       case _ => true
  }

  function RunBegin(s: State, id: nat, spare: nat): (r: State)
    requires id in s.tasks && s.h.trace != []
    ensures r.h == s.h
  {
    var req := s.tasks[id].req;
    if req.node !in s.controls then
      Join(s, id, FlightKey(req.mode, Lookup, -1, req.suffix), ByScript, spare)
    else
      var c := s.controls[req.node];
      if c.dirty then Join(s, id, FlightKey(req.mode, DirtyFetch, c.epoch, req.suffix), Direct, spare)
      else Goto(s, id, Peek(Ctx(c.epoch, c.at)))
  }

  function RunPeek(s: State, id: nat, ctx: Ctx, spare: nat): (r: State)
    requires id in s.tasks && s.h.trace != []
    ensures r.h == s.h
  {
    var req := s.tasks[id].req;
    var gz := (req.node, Key(Gzip, ctx.epoch, req.suffix));
    var body := (req.node, Key(Value, ctx.epoch, req.suffix));
    if req.mode == Encoded && gz in s.values then
      Goto(s, id, Deliver(Answer(Body(Json(s.values[gz], Gzipped)), Cached(ctx.at)), false))
    else if body in s.values then
      if req.mode == Identity then
        Goto(s, id, Deliver(Answer(Body(Json(s.values[body], Plain)), Cached(ctx.at)), false))
      else
        Goto(s, id, Encode(ctx, s.values[body]))
    else
      Join(s, id, FlightKey(req.mode, Lookup, ctx.epoch, req.suffix), ByKeys(ctx), spare)
  }

  function RunWait(s: State, id: nat, f: nat, plan: Plan): (r: State)
    requires id in s.tasks && f in s.flights && s.flights[f].result.Some?
    ensures r.h == s.h
  {
    match s.flights[f].result.value
    case None => Goto(s, id, Start(plan))
    case Some(a) => Goto(s, id, Deliver(Take(s.tasks[id].req.mode, f, a), false))
  }

  /** The plain commands GET gz (encoded requests only), GET value, EXISTS
      not_found, one at a time, and what the request makes of the three replies. */
  function KeysNext(store: map<Key, Bytes>, req: Request, ctx: Ctx, stage: nat,
                    gz: Option<Bytes>, body: Option<Bytes>, negative: bool): Pc
  {
    if stage == 0 then
      var gz' := if req.mode == Encoded then Lookup1(store, Key(Gzip, ctx.epoch, req.suffix)) else None;
      Keys(ctx, 1, gz', body, negative)
    else if stage == 1 then
      Keys(ctx, 2, gz, Lookup1(store, Key(Value, ctx.epoch, req.suffix)), negative)
    else if stage == 2 then
      Keys(ctx, 3, gz, body, Key(Negative, ctx.epoch, req.suffix) in store)
    else if gz.Some? then
      Deliver(Answer(Body(Json(gz.value, Gzipped)), Cached(ctx.at)), false)
    else if body.Some? then
      Hold(ctx, body.value)
    else if negative then
      Deliver(Answer(Missing, Cached(ctx.at)), false)
    else
      Fetch(Some(ctx), [])
  }

  function RunKeys(s: State, id: nat, ctx: Ctx, stage: nat, gz: Option<Bytes>, body: Option<Bytes>, negative: bool): (r: State)
    requires id in s.tasks
    ensures r.h == s.h
  {
    var req := s.tasks[id].req;
    var s1 := Goto(s, id, KeysNext(s.store, req, ctx, stage, gz, body, negative));
    if stage >= 3 && gz.Some? then
      s1.(values := s.values[(req.node, Key(Gzip, ctx.epoch, req.suffix)) := gz.value])
    else
      s1
  }

  /** READ_SCRIPT, atomically. */
  function ScriptReply(s: State, suffix: string): Reply
    requires s.h.trace != []
  {
    var ctx := Ctx(s.h.epoch, Now(s));
    var value := Key(Value, s.h.epoch, suffix);
    if s.dirty then Dirty(s.h.epoch, Now(s))
    else if value in s.store then Hit(ctx, s.store[value])
    else if Key(Negative, s.h.epoch, suffix) in s.store then Absent(ctx)
    else Miss(ctx)
  }

  function RunScript(s: State, id: nat): (r: State)
    requires id in s.tasks && s.h.trace != []
    ensures r.h == s.h
  {
    Goto(s, id, Replied(ScriptReply(s, s.tasks[id].req.suffix)))
  }

  function RunReply(s: State, id: nat, reply: Reply, spare: nat): (r: State)
    requires id in s.tasks && s.h.trace != []
    ensures r.h == s.h
  {
    var req := s.tasks[id].req;
    match reply
    case Dirty(epoch, at) =>
      Join(s.(controls := s.controls[req.node := Control(epoch, true, at)]), id,
           FlightKey(req.mode, DirtyFetch, epoch, req.suffix), Direct, spare)
    case Hit(ctx, body) =>
      Goto(s, id, Hold(ctx, body)).(controls := s.controls[req.node := Control(ctx.epoch, false, ctx.at)])
    case Absent(ctx) =>
      Goto(s, id, Deliver(Answer(Missing, Cached(ctx.at)), false))
        .(controls := s.controls[req.node := Control(ctx.epoch, false, ctx.at)])
    case Miss(ctx) =>
      Goto(s, id, Fetch(Some(ctx), [])).(controls := s.controls[req.node := Control(ctx.epoch, false, ctx.at)])
  }

  predicate Acceptable(w: World, req: Request, bytes: Bytes) {
    req.mode == Encoded || !req.validates || w.valid(req.suffix, bytes)
  }

  /** Identity bytes read from L2: kept in L1 unless a typed reader rejects them. */
  function HoldNext(w: World, req: Request, ctx: Ctx, bytes: Bytes): Pc {
    if !Acceptable(w, req, bytes) then Fetch(Some(ctx), [])
    else if req.mode == Identity then Deliver(Answer(Body(Json(bytes, Plain)), Cached(ctx.at)), false)
    else Encode(ctx, bytes)
  }

  function RunHold(w: World, s: State, id: nat, ctx: Ctx, bytes: Bytes): (r: State)
    requires id in s.tasks
    ensures r.h == s.h
  {
    var req := s.tasks[id].req;
    var s1 := Goto(s, id, HoldNext(w, req, ctx, bytes));
    if Acceptable(w, req, bytes) then
      s1.(values := s.values[(req.node, Key(Value, ctx.epoch, req.suffix)) := bytes])
    else
      s1
  }

  /** One database read, or the end of fetch_and_maybe_cache_*'s fetch. */
  function FetchMove(w: World, trace: seq<Instant>, req: Request, context: Option<Ctx>, seen: seq<nat>, spare: nat): Move
    requires trace != [] && forall i | 0 <= i < |seen| :: seen[i] < |trace|
  {
    var origin := Queried(seen, []);
    match w.program(req.suffix, Snapshots(trace, seen))
    case Read => Only(Fetch(context, seen + [|trace| - 1]))
    case Return(Failed) => Only(Deliver(Answer(Error, origin), false))
    case Return(NotFound) =>
      if context.Some? && w.cachesMisses then
        Sending(Key(Negative, context.value.epoch, req.suffix), [49], SendMiss(spare, origin))
      else
        Only(Deliver(Answer(Missing, origin), false))
    case Return(Found(body)) =>
      if context.None? || |body| > req.maxBytes then
        Only(Deliver(Answer(Body(Render(w, req.mode, body)), origin), false))
      else if Render(w, req.mode, body).encoding == Plain then
        Sending(Key(Value, context.value.epoch, req.suffix), body,
                SendBody(context.value, body, spare, origin, Json(body, Plain)))
      else
        Sending(Key(Gzip, context.value.epoch, req.suffix), w.gzip(body),
                SendGzip(context.value, body, spare, origin, true))
  }

  /** encode_response with a write context, on bytes that came from a cache. */
  function EncodeMove(w: World, req: Request, ctx: Ctx, bytes: Bytes, spare: nat): Move {
    if |bytes| < w.precompressMinBytes then
      Only(Deliver(Answer(Body(Json(bytes, Plain)), Cached(ctx.at)), false))
    else
      Sending(Key(Gzip, ctx.epoch, req.suffix), w.gzip(bytes), SendGzip(ctx, bytes, spare, Cached(ctx.at), false))
  }

  function GzipMove(w: World, req: Request, pc: Pc, spare: nat): Move
    requires pc.SendGzip?
  {
    var gz := Json(w.gzip(pc.bytes), Gzipped);
    if pc.thenBody then
      Sending(Key(Value, pc.ctx.epoch, req.suffix), pc.bytes, SendBody(pc.ctx, pc.bytes, spare, pc.origin, gz))
    else
      Only(Deliver(Answer(Body(gz), pc.origin), false))
  }

  function AfterGzip(w: World, s: State, id: nat, pc: Pc, spare: nat, acknowledged: bool): (r: State)
    requires id in s.tasks && pc.SendGzip?
    ensures r.h == s.h
  {
    var req := s.tasks[id].req;
    var s1 := Perform(s, id, spare, GzipMove(w, req, pc, spare));
    if acknowledged then
      s1.(values := s.values[(req.node, Key(Gzip, pc.ctx.epoch, req.suffix)) := w.gzip(pc.bytes)])
    else
      s1
  }

  function AfterBody(s: State, id: nat, pc: Pc, acknowledged: bool): (r: State)
    requires id in s.tasks && pc.SendBody?
    ensures r.h == s.h
  {
    var req := s.tasks[id].req;
    var s1 := Goto(s, id, Deliver(Answer(Body(pc.out), pc.origin), false));
    if !acknowledged then
      s1
    else
      var values := s.values[(req.node, Key(Value, pc.ctx.epoch, req.suffix)) := pc.bytes];
      s1.(values := if pc.out.encoding == Gzipped
                    then values[(req.node, Key(Gzip, pc.ctx.epoch, req.suffix)) := pc.out.bytes] else values)
  }

  /** The owner guards, innermost first: publish the result, then leave the
      registry (only if the slot still holds this flight). */
  function RunDeliver(s: State, id: nat, a: Answer, marked: bool): (r: State)
    requires id in s.tasks && s.h.trace != []
    requires forall o | o in s.tasks[id].owned :: o in s.flights
    ensures r.h == s.h
  {
    var t := s.tasks[id];
    if t.owned == [] then
      Goto(s, id, Done(a))
    else
      var f := t.owned[|t.owned| - 1];
      assert f in t.owned;
      if !marked then
        Goto(s, id, Deliver(a, true)).(flights := s.flights[f := s.flights[f].(result := Some(Share(a)))])
      else
        var slot := (s.flights[f].node, s.flights[f].key);
        s.(flights := s.flights[f := s.flights[f].(closedAt := Some(Now(s)))],
           registry := if slot in s.registry && s.registry[slot] == f then s.registry - {slot} else s.registry,
           tasks := s.tasks[id := t.(owned := t.owned[..|t.owned| - 1], pc := Deliver(a, false))])
  }

  function RunTask(w: World, s: State, id: nat, spare: nat): (r: State)
    requires CanRun(s, id, spare)
    ensures r.h == s.h
  {
    match s.tasks[id].pc
    case Begin => RunBegin(s, id, spare)
    case Peek(ctx) => RunPeek(s, id, ctx, spare)
    case Wait(f, plan) => RunWait(s, id, f, plan)
    case Keys(ctx, stage, gz, body, negative) => RunKeys(s, id, ctx, stage, gz, body, negative)
    case Script => RunScript(s, id)
    case Replied(reply) => RunReply(s, id, reply, spare)
    case Hold(ctx, bytes) => RunHold(w, s, id, ctx, bytes)
    case Fetch(context, seen) => Perform(s, id, spare, FetchMove(w, s.h.trace, s.tasks[id].req, context, seen, spare))
    case Encode(ctx, bytes) => Perform(s, id, spare, EncodeMove(w, s.tasks[id].req, ctx, bytes, spare))
    case SendGzip(_, _, i, _, _) => AfterGzip(w, s, id, s.tasks[id].pc, spare, s.writes[i].status == Written)
    case SendBody(_, _, i, _, _) => AfterBody(s, id, s.tasks[id].pc, s.writes[i].status == Written)
    case SendMiss(_, origin) => Goto(s, id, Deliver(Answer(Missing, origin), false))
    case Deliver(a, marked) => RunDeliver(s, id, a, marked)
    case Done(_) => s
  }

  predicate CanFail(s: State, id: nat, spare: nat) {
    && id in s.tasks && spare !in s.writes
    && match s.tasks[id].pc
       case Keys(_, _, _, _, _) => true
       case Script => true
       case Replied(_) => true
       case Fetch(_, _) => true
       case Encode(_, _) => true
       case SendGzip(_, _, _, _, _) => true
       case SendBody(_, _, _, _, _) => true
       case SendMiss(_, _) => true
       case _ => false
  }

  /** A failed L2 read falls back to a plain fetch, a failed fetch or encode to
      an error, and a failed write is only logged. */
  function FailTask(w: World, s: State, id: nat, spare: nat): (r: State)
    requires CanFail(s, id, spare)
    ensures r.h == s.h
  {
    var pc := s.tasks[id].pc;
    if pc.SendGzip? then AfterGzip(w, s, id, pc, spare, false)
    else if pc.SendBody? then AfterBody(s, id, pc, false)
    else if pc.SendMiss? then Goto(s, id, Deliver(Answer(Missing, pc.origin), false))
    else if pc.Fetch? || pc.Encode? then Goto(s, id, Deliver(Answer(Error, Queried([], [])), false))
    else Goto(s, id, Fetch(None, []))
  }

  predicate Enabled(s: State, step: Step) {
    match step
    case Issue(c) => After(s.h.writer, c).Some?
    case ExecWrite(id) => id in s.writes && s.writes[id].status == Pending
    case ExpireEntry(_) => true
    case ExpireControl(_) => true
    case EvictValue(_, _) => true
    case Arrive(id, _, _) => s.h.trace != [] && id !in s.tasks
    case Run(id, spare) => CanRun(s, id, spare)
    case Fail(id, spare) => CanFail(s, id, spare)
    case Drop(id) => id in s.tasks && !s.tasks[id].pc.Deliver? && !s.tasks[id].pc.Done?
  }

  function IssueCommand(s: State, c: Command): State
    requires After(s.h.writer, c).Some?
  {
    var s1 := s.(h := s.h.(writer := After(s.h.writer, c).value));
    match c
    case SetDirty => s1.(dirty := true)
    case Commit(rows) => s1.(rows := rows)
    case Bump => s1.(h := s1.h.(epoch := s.h.epoch + 1, pub := s.h.pub + [|s.h.trace|]))
    case ClearDirty => s1.(dirty := false)
  }

  /** WRITE_SCRIPT, atomically. */
  function RunWrite(s: State, id: nat): (r: State)
    requires id in s.writes
    ensures r.h == s.h
  {
    var m := s.writes[id];
    if m.key.epoch == s.h.epoch && !s.dirty then
      s.(store := s.store[m.key := m.bytes], writes := s.writes[id := m.(status := Written)])
    else
      s.(writes := s.writes[id := m.(status := Refused)])
  }

  function Effect(w: World, s: State, step: Step): (r: State)
    requires Enabled(s, step)
    ensures !step.Issue? ==> r.h == s.h
  {
    match step
    case Issue(c) => IssueCommand(s, c)
    case ExecWrite(id) => RunWrite(s, id)
    case ExpireEntry(key) => s.(store := s.store - {key})
    case ExpireControl(node) => s.(controls := s.controls - {node})
    case EvictValue(node, key) => s.(values := s.values - {(node, key)})
    case Arrive(id, req, bypass) =>
      s.(tasks := s.tasks[id := Task(req, Now(s), [], if bypass then Fetch(None, []) else Begin)])
    case Run(id, spare) => RunTask(w, s, id, spare)
    case Fail(id, spare) => FailTask(w, s, id, spare)
    case Drop(id) => Goto(s, id, Deliver(Answer(Cancelled, Queried([], [])), false))
  }

  function Stamp(s: State): State {
    s.(h := s.h.(trace := s.h.trace + [Instant(s.rows, s.h.epoch, s.dirty)]))
  }

  function Next(w: World, s: State, step: Step): State
    requires Enabled(s, step)
  {
    Stamp(Effect(w, s, step))
  }

  /** `steps` leads from `s` to `t`. */
  ghost predicate Leads(w: World, s: State, steps: seq<Step>, t: State)
    decreases |steps|
  {
    if steps == [] then s == t
    else Enabled(s, steps[0]) && Leads(w, Next(w, s, steps[0]), steps[1..], t)
  }

  ghost predicate Reachable(w: World, t: State) {
    exists s: State, steps: seq<Step> :: Init(s) && Leads(w, s, steps, t)
  }
}
