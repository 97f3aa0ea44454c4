/** Every step of the cache protocol keeps the invariant. */
module CacheSteps {
  import opened RankingTables
  import opened UpdateBracket
  import opened CacheProtocol
  import opened CacheInvariant

  lemma TaskIn(w: World, s: State, id: nat)
    requires Inv(w, s) && id in s.tasks
    ensures TaskOk(w, s.h, s.flights, s.writes, s.tasks[id])
  {
  }

  lemma FlightIn(w: World, s: State, f: nat)
    requires Inv(w, s) && f in s.flights
    ensures FlightOk(w, s.h, s.flights, s.flights[f])
  {
  }

  // ------------------------------------------------------- moving one task on

  lemma PlaceKeeps(w: World, s: State, id: nat, pc: Pc, values: map<(nat, Key), Bytes>, controls: map<nat, Control>)
    requires Inv(w, s) && id in s.tasks
    requires PcOk(w, s.h, s.flights, s.writes, s.tasks[id].(pc := pc))
    requires ValuesOk(w, s.h, values) && ControlsOk(s.h, controls)
    ensures Inv(w, Goto(s, id, pc).(values := values, controls := controls))
  {
  }

  lemma StepKeeps(w: World, s: State, id: nat, pc: Pc)
    requires Inv(w, s) && id in s.tasks && PcOk(w, s.h, s.flights, s.writes, s.tasks[id].(pc := pc))
    ensures Inv(w, Goto(s, id, pc))
  {
  }

  /** A task that has its answer. */
  lemma AnsweredKeeps(w: World, s: State, id: nat, a: Answer)
    requires Inv(w, s) && id in s.tasks && DeliverOk(w, s.h, s.flights, s.tasks[id], a)
    ensures Inv(w, Goto(s, id, Deliver(a, false)))
  {
    StepKeeps(w, s, id, Deliver(a, false));
  }

  lemma AnsweredWithKeeps(w: World, s: State, id: nat, a: Answer, values: map<(nat, Key), Bytes>, controls: map<nat, Control>)
    requires Inv(w, s) && id in s.tasks && DeliverOk(w, s.h, s.flights, s.tasks[id], a)
    requires ValuesOk(w, s.h, values) && ControlsOk(s.h, controls)
    ensures Inv(w, Goto(s, id, Deliver(a, false)).(values := values, controls := controls))
  {
    PlaceKeeps(w, s, id, Deliver(a, false), values, controls);
  }

  /** A task that gives up on the cache and fetches for itself. */
  lemma RefetchKeeps(w: World, s: State, id: nat)
    requires Inv(w, s) && id in s.tasks
    ensures Inv(w, Goto(s, id, Fetch(None, [])))
  {
    TaskIn(w, s, id);
    StepKeeps(w, s, id, Fetch(None, []));
  }

  /** Errors and cancellations claim nothing. */
  lemma GaveUpKeeps(w: World, s: State, id: nat, outcome: Outcome)
    requires Inv(w, s) && id in s.tasks && (outcome.Error? || outcome.Cancelled?)
    ensures Inv(w, Goto(s, id, Deliver(Answer(outcome, Queried([], [])), false)))
  {
    TaskIn(w, s, id);
    AnsweredKeeps(w, s, id, Answer(outcome, Queried([], [])));
  }

  lemma ValueKeeps(w: World, h: History, values: map<(nat, Key), Bytes>, nk: (nat, Key), b: Bytes)
    requires ValuesOk(w, h, values) && EntryOk(w, h, nk.1, b)
    ensures ValuesOk(w, h, values[nk := b])
  {
  }

  lemma ControlKeeps(h: History, controls: map<nat, Control>, node: nat, c: Control)
    requires ControlsOk(h, controls) && ControlOk(h, c)
    ensures ControlsOk(h, controls[node := c])
  {
  }

  lemma CachedOk(w: World, h: History, fl: Flights, t: Task, ctx: Ctx, k: Key, b: Bytes, outcome: Outcome)
    requires CtxOk(h, ctx) && k.epoch == ctx.epoch && k.suffix == t.req.suffix && EntryOk(w, h, k, b)
    requires OwnedOk(h, fl, t)
    requires match k.family
             case Value => outcome == Body(Json(b, Plain))
             case Gzip => outcome == Body(Json(b, Gzipped)) && t.req.mode == Encoded
             case Negative => outcome == Missing
    ensures DeliverOk(w, h, fl, t, Answer(outcome, Cached(ctx.at)))
  {
  }

  // ----------------------------------------------------------------- flights

  /** Flights keep their identity and close at most once, at `now`. */
  ghost predicate Flown(fl: Flights, fl': Flights, now: nat) {
    forall f | f in fl ::
      && f in fl'
      && fl'[f].key == fl[f].key && fl'[f].startedAt == fl[f].startedAt
      && (fl'[f].closedAt == fl[f].closedAt || fl'[f].closedAt == Some(now))
  }

  lemma RecentFlown(fl: Flights, fl': Flights, now: nat, seen: seq<nat>, via: seq<nat>, since: nat)
    requires Flown(fl, fl', now) && Recent(fl, seen, via, since)
    requires since <= now && forall f | f in fl :: fl[f].startedAt <= now
    ensures Recent(fl', seen, via, since)
  {
  }

  lemma AnswerFlown(w: World, h: History, fl: Flights, fl': Flights, now: nat, mode: Mode, suffix: string, a: Answer, since: nat)
    requires Flown(fl, fl', now) && AnswerOk(w, h, fl, mode, suffix, a, since)
    requires since <= now && forall f | f in fl :: fl[f].startedAt <= now
    ensures AnswerOk(w, h, fl', mode, suffix, a, since)
  {
    if a.origin.Queried? && (a.outcome.Body? || a.outcome.Missing?) {
      RecentFlown(fl, fl', now, a.origin.seen, a.origin.via, since);
    }
  }

  lemma OriginFlown(w: World, h: History, fl: Flights, fl': Flights, now: nat, suffix: string, o: Origin, r: Fetched, since: nat)
    requires Flown(fl, fl', now) && OriginOk(w, h, fl, suffix, o, r, since)
    requires since <= now && forall f | f in fl :: fl[f].startedAt <= now
    ensures OriginOk(w, h, fl', suffix, o, r, since)
  {
    if o.Queried? { RecentFlown(fl, fl', now, o.seen, o.via, since); }
  }

  lemma OwnedFlown(h: History, fl: Flights, fl': Flights, now: nat, t: Task)
    requires Flown(fl, fl', now) && OwnedOk(h, fl, t) && now == |h.trace| - 1
    ensures OwnedOk(h, fl', t) && Since(fl', t) == Since(fl, t) && Since(fl, t) <= now
    ensures forall rank: nat :: Outranks(fl, t, rank) ==> Outranks(fl', t, rank)
  {
  }

  lemma SendFlown(w: World, h: History, fl: Flights, fl': Flights, now: nat, wr: Writes, t: Task)
    requires Flown(fl, fl', now) && TaskOk(w, h, fl, wr, t) && now == |h.trace| - 1
    requires forall f | f in fl :: fl[f].startedAt <= now
    requires t.pc.SendGzip? || t.pc.SendBody? || t.pc.SendMiss?
    ensures PcOk(w, h, fl', wr, t)
  {
    OwnedFlown(h, fl, fl', now, t);
    var since := Since(fl, t);
    match t.pc
    case SendGzip(_, b, _, origin, _) => OriginFlown(w, h, fl, fl', now, t.req.suffix, origin, Found(b), since);
    case SendBody(_, b, _, origin, _) => OriginFlown(w, h, fl, fl', now, t.req.suffix, origin, Found(b), since);
    case SendMiss(_, origin) => OriginFlown(w, h, fl, fl', now, t.req.suffix, origin, NotFound, since);
  }

  lemma TaskFlown(w: World, h: History, fl: Flights, fl': Flights, now: nat, wr: Writes, t: Task)
    requires Flown(fl, fl', now) && TaskOk(w, h, fl, wr, t) && now == |h.trace| - 1
    requires forall f | f in fl :: fl[f].startedAt <= now
    ensures TaskOk(w, h, fl', wr, t)
  {
    OwnedFlown(h, fl, fl', now, t);
    match t.pc
    case SendGzip(_, _, _, _, _) => SendFlown(w, h, fl, fl', now, wr, t);
    case SendBody(_, _, _, _, _) => SendFlown(w, h, fl, fl', now, wr, t);
    case SendMiss(_, _) => SendFlown(w, h, fl, fl', now, wr, t);
    case Deliver(a, _) => AnswerFlown(w, h, fl, fl', now, t.req.mode, t.req.suffix, a, Since(fl, t));
    case Done(a) => AnswerFlown(w, h, fl, fl', now, t.req.mode, t.req.suffix, a, t.startedAt);
    case _ =>
  }

  lemma FlightFlown(w: World, h: History, fl: Flights, fl': Flights, now: nat, f: Flight)
    requires Flown(fl, fl', now) && FlightOk(w, h, fl, f) && now == |h.trace| - 1
    requires forall g | g in fl :: fl[g].startedAt <= now
    ensures FlightOk(w, h, fl', f)
  {
    if f.result.Some? && f.result.value.Some? {
      AnswerFlown(w, h, fl, fl', now, f.key.mode, f.key.suffix, f.result.value.value, f.startedAt);
    }
  }

  /** Tasks and flights, after one flight was opened, settled or closed. */
  lemma AllFlown(w: World, s: State, fl': Flights)
    requires Inv(w, s) && Flown(s.flights, fl', Now(s))
    ensures TasksOk(w, s.h, fl', s.writes, s.tasks)
    ensures forall f | f in s.flights :: FlightOk(w, s.h, fl', s.flights[f])
  {
    var now := Now(s);
    forall g | g in s.flights ensures s.flights[g].startedAt <= now { FlightIn(w, s, g); }
    forall i | i in s.tasks ensures TaskOk(w, s.h, fl', s.writes, s.tasks[i]) {
      TaskFlown(w, s.h, s.flights, fl', now, s.writes, s.tasks[i]);
    }
    forall f | f in s.flights ensures FlightOk(w, s.h, fl', s.flights[f]) {
      FlightFlown(w, s.h, s.flights, fl', now, s.flights[f]);
    }
  }

  // ----------------------------------------------------------------- joining

  ghost predicate MayJoin(fl: Flights, t: Task, key: FlightKey, plan: Plan) {
    && key.mode == t.req.mode && key.suffix == t.req.suffix
    && (key.kind == DirtyFetch <==> plan.Direct?)
    && (t.owned == [] || (key.kind == DirtyFetch && Outranks(fl, t, 1)))
  }

  // A started plan, for whoever takes it up.
  lemma StartOk(w: World, h: History, fl: Flights, wr: Writes, t: Task, plan: Plan)
    requires PlanOk(h, plan)
    requires !plan.Direct? ==> Outranks(fl, t, 1)
    ensures PcOk(w, h, fl, wr, t.(pc := Start(plan)))
  {
  }

  lemma NewOwnerOk(w: World, h: History, fl: Flights, wr: Writes, t: Task, key: FlightKey, plan: Plan, spare: nat)
    requires OwnedOk(h, fl, t) && MayJoin(fl, t, key, plan) && PlanOk(h, plan) && spare !in fl && h.trace != []
    ensures var fl' := fl[spare := Flight(t.req.node, key, |h.trace| - 1, None, None)];
            TaskOk(w, h, fl', wr, t.(owned := t.owned + [spare], pc := Start(plan)))
  {
    var fl' := fl[spare := Flight(t.req.node, key, |h.trace| - 1, None, None)];
    var t' := t.(owned := t.owned + [spare]);
    assert |t.owned| == 2 ==> Rank(fl[t.owned[1]].key.kind) == 1;
    assert OwnedOk(h, fl', t');
    StartOk(w, h, fl', wr, t', plan);
  }

  /** What the new flight of task `id` adds. */
  lemma OpenedOk(w: World, s: State, id: nat, key: FlightKey, plan: Plan, spare: nat)
    requires Inv(w, s) && id in s.tasks && spare !in s.flights
    requires MayJoin(s.flights, s.tasks[id], key, plan) && PlanOk(s.h, plan)
    ensures var t := s.tasks[id];
            var fl' := s.flights[spare := Flight(t.req.node, key, Now(s), None, None)];
            TaskOk(w, s.h, fl', s.writes, t.(owned := t.owned + [spare], pc := Start(plan)))
  {
    TaskIn(w, s, id);
    NewOwnerOk(w, s.h, s.flights, s.writes, s.tasks[id], key, plan, spare);
  }

  lemma OpeningKeepsOthers(w: World, s: State, node: nat, key: FlightKey, spare: nat)
    requires Inv(w, s) && spare !in s.flights
    ensures var fl' := s.flights[spare := Flight(node, key, Now(s), None, None)];
            FlightsOk(w, s.h, fl') && TasksOk(w, s.h, fl', s.writes, s.tasks)
  {
    AllFlown(w, s, s.flights[spare := Flight(node, key, Now(s), None, None)]);
  }

  /** New flights, registry and one task, put together. */
  lemma RegroupKeeps(w: World, s: State, fl': Flights, registry: map<Slot, nat>, id: nat, t: Task)
    requires Inv(w, s) && FlightsOk(w, s.h, fl') && RegistryOk(fl', registry)
    requires TasksOk(w, s.h, fl', s.writes, s.tasks) && TaskOk(w, s.h, fl', s.writes, t)
    ensures Inv(w, s.(flights := fl', registry := registry, tasks := s.tasks[id := t]))
  {
  }

  lemma OwnKeeps(w: World, s: State, id: nat, key: FlightKey, plan: Plan, spare: nat)
    requires Inv(w, s) && id in s.tasks && spare !in s.flights
    requires (s.tasks[id].req.node, key) !in s.registry
    requires MayJoin(s.flights, s.tasks[id], key, plan) && PlanOk(s.h, plan)
    ensures Inv(w, Join(s, id, key, plan, spare))
  {
    var t := s.tasks[id];
    OpenedOk(w, s, id, key, plan, spare);
    OpeningKeepsOthers(w, s, t.req.node, key, spare);
    SlotKeeps(s.flights, s.registry, (t.req.node, key), spare, Now(s));
    RegroupKeeps(w, s, s.flights[spare := Flight(t.req.node, key, Now(s), None, None)],
                 s.registry[(t.req.node, key) := spare], id, t.(owned := t.owned + [spare], pc := Start(plan)));
  }

  lemma SlotKeeps(fl: Flights, registry: map<Slot, nat>, slot: Slot, spare: nat, now: nat)
    requires RegistryOk(fl, registry) && spare !in fl
    ensures RegistryOk(fl[spare := Flight(slot.0, slot.1, now, None, None)], registry[slot := spare])
  {
  }

  lemma JoinKeeps(w: World, s: State, id: nat, key: FlightKey, plan: Plan, spare: nat)
    requires Inv(w, s) && id in s.tasks && spare !in s.flights
    requires MayJoin(s.flights, s.tasks[id], key, plan) && PlanOk(s.h, plan)
    ensures Inv(w, Join(s, id, key, plan, spare))
  {
    var slot := (s.tasks[id].req.node, key);
    if slot in s.registry {
      TaskIn(w, s, id);
      StepKeeps(w, s, id, Wait(s.registry[slot], plan));
    } else {
      OwnKeeps(w, s, id, key, plan, spare);
    }
  }

  // --------------------------------------------------------- up to the fetch

  lemma BeginKeeps(w: World, s: State, id: nat, spare: nat)
    requires Inv(w, s) && id in s.tasks && spare !in s.flights && s.tasks[id].pc.Begin?
    ensures Inv(w, RunBegin(s, id, spare))
  {
    var t := s.tasks[id];
    TaskIn(w, s, id);
    if t.req.node !in s.controls {
      JoinKeeps(w, s, id, FlightKey(t.req.mode, Lookup, -1, t.req.suffix), ByScript, spare);
    } else {
      var c := s.controls[t.req.node];
      assert ControlOk(s.h, c);
      if c.dirty {
        JoinKeeps(w, s, id, FlightKey(t.req.mode, DirtyFetch, c.epoch, t.req.suffix), Direct, spare);
      } else {
        StepKeeps(w, s, id, Peek(Ctx(c.epoch, c.at)));
      }
    }
  }

  lemma PeekKeeps(w: World, s: State, id: nat, ctx: Ctx, spare: nat)
    requires Inv(w, s) && id in s.tasks && spare !in s.flights && s.tasks[id].pc == Peek(ctx)
    ensures Inv(w, RunPeek(s, id, ctx, spare))
  {
    var t := s.tasks[id];
    TaskIn(w, s, id);
    var gz := (t.req.node, Key(Gzip, ctx.epoch, t.req.suffix));
    var body := (t.req.node, Key(Value, ctx.epoch, t.req.suffix));
    if t.req.mode == Encoded && gz in s.values {
      assert EntryOk(w, s.h, gz.1, s.values[gz]);
      var outcome := Body(Json(s.values[gz], Gzipped));
      CachedOk(w, s.h, s.flights, t, ctx, gz.1, s.values[gz], outcome);
      AnsweredKeeps(w, s, id, Answer(outcome, Cached(ctx.at)));
    } else if body in s.values {
      assert EntryOk(w, s.h, body.1, s.values[body]);
      if t.req.mode == Identity {
        var outcome := Body(Json(s.values[body], Plain));
        CachedOk(w, s.h, s.flights, t, ctx, body.1, s.values[body], outcome);
        AnsweredKeeps(w, s, id, Answer(outcome, Cached(ctx.at)));
      } else {
        StepKeeps(w, s, id, Encode(ctx, s.values[body]));
      }
    } else {
      JoinKeeps(w, s, id, FlightKey(t.req.mode, Lookup, ctx.epoch, t.req.suffix), ByKeys(ctx), spare);
    }
  }

  /** A shared answer, seen from a waiter: one more flight on the way. */
  lemma TakeOk(w: World, h: History, fl: Flights, t: Task, f: nat, a: Answer)
    requires f in fl && FlightOk(w, h, fl, fl[f]) && fl[f].result == Some(Some(a))
    requires t.pc.Wait? && WaitOk(h, fl, t, f, t.pc.plan)
    ensures DeliverOk(w, h, fl, t, Take(t.req.mode, f, a))
  {
    if a.origin.Queried? && (a.outcome.Body? || a.outcome.Missing?) {
      assert |a.origin.via| <= 1;
      assert ([f] + a.origin.via)[0] == f;
    }
  }

  lemma WaitKeeps(w: World, s: State, id: nat, f: nat, plan: Plan)
    requires Inv(w, s) && id in s.tasks && s.tasks[id].pc == Wait(f, plan)
    requires f in s.flights && s.flights[f].result.Some?
    ensures Inv(w, RunWait(s, id, f, plan))
  {
    var t := s.tasks[id];
    TaskIn(w, s, id);
    FlightIn(w, s, f);
    match s.flights[f].result.value {
      case None =>
        StartOk(w, s.h, s.flights, s.writes, t, plan);
        StepKeeps(w, s, id, Start(plan));
      case Some(a) =>
        TakeOk(w, s.h, s.flights, t, f, a);
        AnsweredKeeps(w, s, id, Take(t.req.mode, f, a));
    }
  }

  lemma KeysNextOk(w: World, s: State, t: Task, ctx: Ctx, stage: nat, gz: Option<Bytes>, body: Option<Bytes>, negative: bool)
    requires t.pc == Keys(ctx, stage, gz, body, negative) && TaskOk(w, s.h, s.flights, s.writes, t)
    requires StoreOk(w, s.h, s.store)
    ensures PcOk(w, s.h, s.flights, s.writes, t.(pc := KeysNext(s.store, t.req, ctx, stage, gz, body, negative)))
    ensures gz.Some? ==> EntryOk(w, s.h, Key(Gzip, ctx.epoch, t.req.suffix), gz.value)
  {
    if stage < 3 {
      KeysReadOk(w, s, t, ctx, stage, gz, body, negative);
    } else {
      KeysDecidedOk(w, s, t, ctx, stage, gz, body, negative);
    }
  }

  lemma KeysReadOk(w: World, s: State, t: Task, ctx: Ctx, stage: nat, gz: Option<Bytes>, body: Option<Bytes>, negative: bool)
    requires t.pc == Keys(ctx, stage, gz, body, negative) && stage < 3 && PcOk(w, s.h, s.flights, s.writes, t)
    requires StoreOk(w, s.h, s.store)
    ensures PcOk(w, s.h, s.flights, s.writes, t.(pc := KeysNext(s.store, t.req, ctx, stage, gz, body, negative)))
  {
    hide IsAnswer, CtxOk;
    var k := Key(Negative, ctx.epoch, t.req.suffix);
    if k in s.store { assert EntryOk(w, s.h, k, s.store[k]); }
  }

  lemma KeysDecidedOk(w: World, s: State, t: Task, ctx: Ctx, stage: nat, gz: Option<Bytes>, body: Option<Bytes>, negative: bool)
    requires t.pc == Keys(ctx, stage, gz, body, negative) && stage >= 3 && TaskOk(w, s.h, s.flights, s.writes, t)
    ensures PcOk(w, s.h, s.flights, s.writes, t.(pc := KeysNext(s.store, t.req, ctx, stage, gz, body, negative)))
  {
    hide IsAnswer;
    if gz.Some? {
      CachedOk(w, s.h, s.flights, t, ctx, Key(Gzip, ctx.epoch, t.req.suffix), gz.value, Body(Json(gz.value, Gzipped)));
    } else if body.None? && negative {
      CachedOk(w, s.h, s.flights, t, ctx, Key(Negative, ctx.epoch, t.req.suffix), [], Missing);
    }
  }

  lemma KeysKeeps(w: World, s: State, id: nat, ctx: Ctx, stage: nat, gz: Option<Bytes>, body: Option<Bytes>, negative: bool)
    requires Inv(w, s) && id in s.tasks && s.tasks[id].pc == Keys(ctx, stage, gz, body, negative)
    ensures Inv(w, RunKeys(s, id, ctx, stage, gz, body, negative))
  {
    hide PcOk, TaskOk, KeysNext, EntryOk, StoreOk, ValuesOk, ControlsOk, WritesOk, FlightsOk, RegistryOk, TasksOk, HistoryOk;
    TaskIn(w, s, id);
    var t := s.tasks[id];
    KeysNextOk(w, s, t, ctx, stage, gz, body, negative);
    var pc := KeysNext(s.store, t.req, ctx, stage, gz, body, negative);
    if stage >= 3 && gz.Some? {
      var nk := (t.req.node, Key(Gzip, ctx.epoch, t.req.suffix));
      ValueKeeps(w, s.h, s.values, nk, gz.value);
      PlaceKeeps(w, s, id, pc, s.values[nk := gz.value], s.controls);
    } else {
      StepKeeps(w, s, id, pc);
    }
  }

  /** What READ_SCRIPT replies is right at that instant, and a clean reply carries a clean instant. */
  lemma ScriptOk(w: World, s: State, suffix: string)
    requires HistoryOk(s) && StoreOk(w, s.h, s.store)
    ensures ReplyOk(w, s.h, suffix, ScriptReply(s, suffix))
  {
    var k := Key(Negative, s.h.epoch, suffix);
    if k in s.store { assert EntryOk(w, s.h, k, s.store[k]); }
  }

  lemma ScriptKeeps(w: World, s: State, id: nat)
    requires Inv(w, s) && id in s.tasks && s.tasks[id].pc.Script?
    ensures Inv(w, RunScript(s, id))
  {
    TaskIn(w, s, id);
    ScriptOk(w, s, s.tasks[id].req.suffix);
    StepKeeps(w, s, id, Replied(ScriptReply(s, s.tasks[id].req.suffix)));
  }

  lemma DirtyReplyKeeps(w: World, s: State, id: nat, epoch: nat, at: nat, spare: nat)
    requires Inv(w, s) && id in s.tasks && spare !in s.flights && s.tasks[id].pc == Replied(Dirty(epoch, at))
    ensures Inv(w, RunReply(s, id, Dirty(epoch, at), spare))
  {
    var t := s.tasks[id];
    TaskIn(w, s, id);
    var s1 := s.(controls := s.controls[t.req.node := Control(epoch, true, at)]);
    assert Inv(w, s1);
    JoinKeeps(w, s1, id, FlightKey(t.req.mode, DirtyFetch, epoch, t.req.suffix), Direct, spare);
  }

  lemma ReplyKeeps(w: World, s: State, id: nat, reply: Reply, spare: nat)
    requires Inv(w, s) && id in s.tasks && spare !in s.flights && s.tasks[id].pc == Replied(reply)
    ensures Inv(w, RunReply(s, id, reply, spare))
  {
    if reply.Dirty? {
      DirtyReplyKeeps(w, s, id, reply.epoch, reply.at, spare);
    } else {
      var t := s.tasks[id];
      var ctx := reply.ctx;
      TaskIn(w, s, id);
      ControlKeeps(s.h, s.controls, t.req.node, Control(ctx.epoch, false, ctx.at));
      var controls := s.controls[t.req.node := Control(ctx.epoch, false, ctx.at)];
      match reply {
        case Hit(_, body) => PlaceKeeps(w, s, id, Hold(ctx, body), s.values, controls);
        case Absent(_) =>
          CachedOk(w, s.h, s.flights, t, ctx, Key(Negative, ctx.epoch, t.req.suffix), [], Missing);
          AnsweredWithKeeps(w, s, id, Answer(Missing, Cached(ctx.at)), s.values, controls);
        case Miss(_) => PlaceKeeps(w, s, id, Fetch(Some(ctx), []), s.values, controls);
      }
    }
  }

  lemma HoldNextOk(w: World, h: History, fl: Flights, wr: Writes, t: Task, ctx: Ctx, bytes: Bytes)
    requires t.pc == Hold(ctx, bytes) && TaskOk(w, h, fl, wr, t)
    ensures PcOk(w, h, fl, wr, t.(pc := HoldNext(w, t.req, ctx, bytes)))
  {
    CachedOk(w, h, fl, t, ctx, Key(Value, ctx.epoch, t.req.suffix), bytes, Body(Json(bytes, Plain)));
  }

  lemma HoldKeeps(w: World, s: State, id: nat, ctx: Ctx, bytes: Bytes)
    requires Inv(w, s) && id in s.tasks && s.tasks[id].pc == Hold(ctx, bytes)
    ensures Inv(w, RunHold(w, s, id, ctx, bytes))
  {
    var t := s.tasks[id];
    HoldNextOk(w, s.h, s.flights, s.writes, t, ctx, bytes);
    if Acceptable(w, t.req, bytes) {
      TaskIn(w, s, id);
      var nk := (t.req.node, Key(Value, ctx.epoch, t.req.suffix));
      ValueKeeps(w, s.h, s.values, nk, bytes);
      PlaceKeeps(w, s, id, HoldNext(w, t.req, ctx, bytes), s.values[nk := bytes], s.controls);
    } else {
      StepKeeps(w, s, id, HoldNext(w, t.req, ctx, bytes));
    }
  }

  // ------------------------------------------------------------ sending writes

  /** A move is right for task `t` when the write it sends, if any, may be sent
      and the place it leads to is right. */
  ghost predicate MoveOk(w: World, s: State, t: Task, m: Move, spare: nat) {
    match m
    case Only(pc) => PcOk(w, s.h, s.flights, s.writes, t.(pc := pc))
    case Sending(key, bytes, pc) =>
      && WriteOk(w, s.h, Write(key, bytes, Pending))
      && PcOk(w, s.h, s.flights, s.writes[spare := Write(key, bytes, Pending)], t.(pc := pc))
  }

  lemma PcSent(w: World, h: History, fl: Flights, wr: Writes, wr': Writes, t: Task)
    requires PcOk(w, h, fl, wr, t)
    requires forall i | i in wr :: i in wr' && wr'[i].key == wr[i].key && wr'[i].bytes == wr[i].bytes
    ensures PcOk(w, h, fl, wr', t)
  {
  }

  lemma TasksSent(w: World, s: State, wr': Writes)
    requires Inv(w, s)
    requires forall i | i in s.writes :: i in wr' && wr'[i].key == s.writes[i].key && wr'[i].bytes == s.writes[i].bytes
    ensures TasksOk(w, s.h, s.flights, wr', s.tasks)
  {
    forall i | i in s.tasks ensures TaskOk(w, s.h, s.flights, wr', s.tasks[i]) {
      PcSent(w, s.h, s.flights, s.writes, wr', s.tasks[i]);
    }
  }

  lemma SendKeeps(w: World, s: State, id: nat, spare: nat, key: Key, bytes: Bytes, pc: Pc, values: map<(nat, Key), Bytes>)
    requires Inv(w, s) && id in s.tasks && spare !in s.writes
    requires WriteOk(w, s.h, Write(key, bytes, Pending)) && ValuesOk(w, s.h, values)
    requires PcOk(w, s.h, s.flights, s.writes[spare := Write(key, bytes, Pending)], s.tasks[id].(pc := pc))
    ensures Inv(w, s.(tasks := s.tasks[id := s.tasks[id].(pc := pc)], values := values,
                      writes := s.writes[spare := Write(key, bytes, Pending)]))
  {
    TasksSent(w, s, s.writes[spare := Write(key, bytes, Pending)]);
  }

  lemma PerformKeeps(w: World, s: State, id: nat, spare: nat, m: Move, values: map<(nat, Key), Bytes>)
    requires Inv(w, s) && id in s.tasks && spare !in s.writes
    requires MoveOk(w, s, s.tasks[id], m, spare) && ValuesOk(w, s.h, values)
    ensures Inv(w, Perform(s, id, spare, m).(values := values))
  {
    match m
    case Only(pc) => PlaceKeeps(w, s, id, pc, values, s.controls);
    case Sending(key, bytes, pc) => SendKeeps(w, s, id, spare, key, bytes, pc, values);
  }

  // ------------------------------------------------------------------- fetch

  /** Reads that all saw one snapshot make the endpoint's answer on it. */
  lemma SteadyReadsAnswer(w: World, h: History, suffix: string, seen: seq<nat>, rows: RankingRows, r: Fetched)
    requires SeenOk(h, seen) && Asked(w, h, suffix, seen)
    requires w.program(suffix, Snapshots(h.trace, seen)) == Return(r)
    requires forall i | 0 <= i < |seen| :: h.trace[seen[i]].rows == rows
    ensures IsAnswer(w, suffix, rows, r)
  {
    assert Snapshots(h.trace, seen) == Repeat(rows, |seen|);
    forall m: nat | m < |seen| ensures w.program(suffix, Repeat(rows, m)).Read? {
      assert Snapshots(h.trace, seen)[..m] == Repeat(rows, m);
    }
    assert AnswersAfter(w, suffix, rows, r, |seen|);
  }

  lemma FetchReadOk(w: World, s: State, t: Task, context: Option<Ctx>, seen: seq<nat>)
    requires HistoryOk(s) && OwnedOk(s.h, s.flights, t) && FetchOk(w, s.h, s.flights, t, context, seen)
    requires w.program(t.req.suffix, Snapshots(s.h.trace, seen)).Read?
    ensures FetchOk(w, s.h, s.flights, t, context, seen + [Now(s)])
  {
    var seen' := seen + [Now(s)];
    assert SeenOk(s.h, seen');
    forall n: nat | n < |seen'| ensures w.program(t.req.suffix, Snapshots(s.h.trace, seen')[..n]).Read? {
      if n == |seen| {
        assert Snapshots(s.h.trace, seen')[..n] == Snapshots(s.h.trace, seen);
      } else {
        assert Snapshots(s.h.trace, seen')[..n] == Snapshots(s.h.trace, seen)[..n];
      }
    }
  }

  lemma RenderPlainly(w: World, mode: Mode, body: Bytes)
    requires Lossless(w)
    ensures Plainly(w, Render(w, mode, body)) == body
    ensures Render(w, mode, body).encoding == Gzipped ==> mode == Encoded
  {
  }

  lemma QueriedOk(w: World, h: History, fl: Flights, t: Task, context: Option<Ctx>, seen: seq<nat>, r: Fetched)
    requires OwnedOk(h, fl, t) && FetchOk(w, h, fl, t, context, seen)
    requires w.program(t.req.suffix, Snapshots(h.trace, seen)) == Return(r)
    ensures SourceOk(w, h, fl, t, Queried(seen, []), r)
  {
  }

  /** While its epoch is stable, what a fetch found is what the entry should hold. */
  lemma FetchedEntryOk(w: World, h: History, fl: Flights, t: Task, ctx: Ctx, seen: seq<nat>, r: Fetched, k: Key, b: Bytes)
    requires Lossless(w) && FetchOk(w, h, fl, t, Some(ctx), seen)
    requires w.program(t.req.suffix, Snapshots(h.trace, seen)) == Return(r)
    requires k.epoch == ctx.epoch && k.suffix == t.req.suffix
    requires match k.family
             case Value => r == Found(b)
             case Gzip => r.Found? && b == w.gzip(r.body)
             case Negative => r == NotFound
    ensures WriteOk(w, h, Write(k, b, Pending))
    ensures Stable(h, ctx.epoch) ==> EntryOk(w, h, k, b)
  {
    if Stable(h, ctx.epoch) {
      SteadyReadsAnswer(w, h, t.req.suffix, seen, Published(h, ctx.epoch), r);
    }
  }

  lemma FetchSendOk(w: World, s: State, t: Task, ctx: Ctx, seen: seq<nat>, body: Bytes, spare: nat)
    requires Lossless(w) && OwnedOk(s.h, s.flights, t) && FetchOk(w, s.h, s.flights, t, Some(ctx), seen)
    requires w.program(t.req.suffix, Snapshots(s.h.trace, seen)) == Return(Found(body))
    ensures MoveOk(w, s, t, Sending(Key(Value, ctx.epoch, t.req.suffix), body,
                                    SendBody(ctx, body, spare, Queried(seen, []), Json(body, Plain))), spare)
    ensures t.req.mode == Encoded ==>
              MoveOk(w, s, t, Sending(Key(Gzip, ctx.epoch, t.req.suffix), w.gzip(body),
                                      SendGzip(ctx, body, spare, Queried(seen, []), true)), spare)
  {
    QueriedOk(w, s.h, s.flights, t, Some(ctx), seen, Found(body));
    FetchedEntryOk(w, s.h, s.flights, t, ctx, seen, Found(body), Key(Value, ctx.epoch, t.req.suffix), body);
    FetchedEntryOk(w, s.h, s.flights, t, ctx, seen, Found(body), Key(Gzip, ctx.epoch, t.req.suffix), w.gzip(body));
  }

  lemma FetchMissOk(w: World, s: State, t: Task, ctx: Ctx, seen: seq<nat>, spare: nat)
    requires Lossless(w) && OwnedOk(s.h, s.flights, t) && FetchOk(w, s.h, s.flights, t, Some(ctx), seen)
    requires w.program(t.req.suffix, Snapshots(s.h.trace, seen)) == Return(NotFound)
    ensures MoveOk(w, s, t, Sending(Key(Negative, ctx.epoch, t.req.suffix), [49], SendMiss(spare, Queried(seen, []))), spare)
  {
    QueriedOk(w, s.h, s.flights, t, Some(ctx), seen, NotFound);
    FetchedEntryOk(w, s.h, s.flights, t, ctx, seen, NotFound, Key(Negative, ctx.epoch, t.req.suffix), [49]);
  }

  /** A fetch without a context answers with what it found. */
  lemma FetchAnswerOk(w: World, s: State, t: Task, seen: seq<nat>, r: Fetched)
    requires Lossless(w) && OwnedOk(s.h, s.flights, t) && SourceOk(w, s.h, s.flights, t, Queried(seen, []), r)
    ensures r == NotFound ==> DeliverOk(w, s.h, s.flights, t, Answer(Missing, Queried(seen, [])))
    ensures r.Found? ==> DeliverOk(w, s.h, s.flights, t, Answer(Body(Render(w, t.req.mode, r.body)), Queried(seen, [])))
  {
    if r.Found? { RenderPlainly(w, t.req.mode, r.body); }
  }

  lemma GiveUpOk(w: World, s: State, t: Task, origin: Origin)
    requires OwnedOk(s.h, s.flights, t)
    ensures DeliverOk(w, s.h, s.flights, t, Answer(Error, origin))
  {
  }

  lemma DeliverMoveOk(w: World, s: State, t: Task, a: Answer, spare: nat)
    requires DeliverOk(w, s.h, s.flights, t, a)
    ensures MoveOk(w, s, t, Only(Deliver(a, false)), spare)
  {
  }

  lemma ReadMoveOk(w: World, s: State, t: Task, context: Option<Ctx>, seen: seq<nat>, spare: nat)
    requires HistoryOk(s) && OwnedOk(s.h, s.flights, t) && FetchOk(w, s.h, s.flights, t, context, seen)
    requires w.program(t.req.suffix, Snapshots(s.h.trace, seen)).Read?
    ensures MoveOk(w, s, t, Only(Fetch(context, seen + [Now(s)])), spare)
  {
    FetchReadOk(w, s, t, context, seen);
  }

  lemma FetchMoveOk(w: World, s: State, t: Task, context: Option<Ctx>, seen: seq<nat>, spare: nat)
    requires Lossless(w) && HistoryOk(s) && OwnedOk(s.h, s.flights, t) && FetchOk(w, s.h, s.flights, t, context, seen)
    ensures MoveOk(w, s, t, FetchMove(w, s.h.trace, t.req, context, seen, spare), spare)
  {
    hide MoveOk, DeliverOk, OwnedOk, SourceOk, Render;
    match w.program(t.req.suffix, Snapshots(s.h.trace, seen))
    case Read => ReadMoveOk(w, s, t, context, seen, spare);
    case Return(Failed) =>
      GiveUpOk(w, s, t, Queried(seen, []));
      DeliverMoveOk(w, s, t, Answer(Error, Queried(seen, [])), spare);
    case Return(NotFound) =>
      QueriedOk(w, s.h, s.flights, t, context, seen, NotFound);
      FetchAnswerOk(w, s, t, seen, NotFound);
      DeliverMoveOk(w, s, t, Answer(Missing, Queried(seen, [])), spare);
      if context.Some? { FetchMissOk(w, s, t, context.value, seen, spare); }
    case Return(Found(body)) =>
      QueriedOk(w, s.h, s.flights, t, context, seen, Found(body));
      FetchAnswerOk(w, s, t, seen, Found(body));
      DeliverMoveOk(w, s, t, Answer(Body(Render(w, t.req.mode, body)), Queried(seen, [])), spare);
      RenderPlainly(w, t.req.mode, body);
      if context.Some? { FetchSendOk(w, s, t, context.value, seen, body, spare); }
  }

  lemma FetchKeeps(w: World, s: State, id: nat, spare: nat)
    requires Lossless(w) && Inv(w, s) && CanRun(s, id, spare) && s.tasks[id].pc.Fetch?
    ensures Inv(w, RunTask(w, s, id, spare))
  {
    var t := s.tasks[id];
    TaskIn(w, s, id);
    FetchMoveOk(w, s, t, t.pc.context, t.pc.seen, spare);
    PerformKeeps(w, s, id, spare, FetchMove(w, s.h.trace, t.req, t.pc.context, t.pc.seen, spare), s.values);
  }

  // ---------------------------------------------------- encoding and settling

  lemma EncodeMoveOk(w: World, s: State, t: Task, ctx: Ctx, bytes: Bytes, spare: nat)
    requires Lossless(w) && TaskOk(w, s.h, s.flights, s.writes, t) && t.pc == Encode(ctx, bytes)
    ensures MoveOk(w, s, t, EncodeMove(w, t.req, ctx, bytes, spare), spare)
  {
    CachedOk(w, s.h, s.flights, t, ctx, Key(Value, ctx.epoch, t.req.suffix), bytes, Body(Json(bytes, Plain)));
  }

  lemma EncodeKeeps(w: World, s: State, id: nat, spare: nat)
    requires Lossless(w) && Inv(w, s) && CanRun(s, id, spare) && s.tasks[id].pc.Encode?
    ensures Inv(w, RunTask(w, s, id, spare))
  {
    var t := s.tasks[id];
    TaskIn(w, s, id);
    EncodeMoveOk(w, s, t, t.pc.ctx, t.pc.bytes, spare);
    PerformKeeps(w, s, id, spare, EncodeMove(w, t.req, t.pc.ctx, t.pc.bytes, spare), s.values);
  }

  lemma GzipMoveOk(w: World, s: State, t: Task, spare: nat)
    requires Lossless(w) && TaskOk(w, s.h, s.flights, s.writes, t) && t.pc.SendGzip?
    ensures MoveOk(w, s, t, GzipMove(w, t.req, t.pc, spare), spare)
  {
  }

  lemma GzipAckOk(w: World, s: State, t: Task)
    requires TaskOk(w, s.h, s.flights, s.writes, t) && t.pc.SendGzip? && WritesOk(w, s.h, s.writes)
    requires t.pc.id in s.writes && s.writes[t.pc.id].status == Written
    ensures EntryOk(w, s.h, Key(Gzip, t.pc.ctx.epoch, t.req.suffix), w.gzip(t.pc.bytes))
  {
  }

  lemma AfterGzipKeeps(w: World, s: State, id: nat, spare: nat, acknowledged: bool)
    requires Lossless(w) && Inv(w, s) && id in s.tasks && spare !in s.writes && s.tasks[id].pc.SendGzip?
    requires acknowledged ==> s.tasks[id].pc.id in s.writes && s.writes[s.tasks[id].pc.id].status == Written
    ensures Inv(w, AfterGzip(w, s, id, s.tasks[id].pc, spare, acknowledged))
  {
    hide TaskOk, MoveOk, GzipMove, EntryOk, StoreOk, ValuesOk, TasksOk, FlightsOk, RegistryOk, HistoryOk, ControlsOk;
    var t := s.tasks[id];
    TaskIn(w, s, id);
    GzipMoveOk(w, s, t, spare);
    var values := s.values;
    if acknowledged {
      var nk := (t.req.node, Key(Gzip, t.pc.ctx.epoch, t.req.suffix));
      GzipAckOk(w, s, t);
      ValueKeeps(w, s.h, values, nk, w.gzip(t.pc.bytes));
      values := values[nk := w.gzip(t.pc.bytes)];
    }
    PerformKeeps(w, s, id, spare, GzipMove(w, t.req, t.pc, spare), values);
  }

  lemma BodyOk(w: World, s: State, t: Task)
    requires Lossless(w) && TaskOk(w, s.h, s.flights, s.writes, t) && t.pc.SendBody?
    ensures DeliverOk(w, s.h, s.flights, t, Answer(Body(t.pc.out), t.pc.origin))
    ensures WriteOk(w, s.h, s.writes[t.pc.id]) && s.writes[t.pc.id].status == Written ==>
              && EntryOk(w, s.h, Key(Value, t.pc.ctx.epoch, t.req.suffix), t.pc.bytes)
              && (t.pc.out.encoding == Gzipped ==> EntryOk(w, s.h, Key(Gzip, t.pc.ctx.epoch, t.req.suffix), t.pc.out.bytes))
  {
  }

  lemma AfterBodyKeeps(w: World, s: State, id: nat, acknowledged: bool)
    requires Lossless(w) && Inv(w, s) && id in s.tasks && s.tasks[id].pc.SendBody?
    requires acknowledged ==> s.tasks[id].pc.id in s.writes && s.writes[s.tasks[id].pc.id].status == Written
    ensures Inv(w, AfterBody(s, id, s.tasks[id].pc, acknowledged))
  {
    var t := s.tasks[id];
    TaskIn(w, s, id);
    BodyOk(w, s, t);
    var a := Answer(Body(t.pc.out), t.pc.origin);
    if acknowledged {
      assert WriteOk(w, s.h, s.writes[t.pc.id]);
      var nk := (t.req.node, Key(Value, t.pc.ctx.epoch, t.req.suffix));
      var gz := (t.req.node, Key(Gzip, t.pc.ctx.epoch, t.req.suffix));
      ValueKeeps(w, s.h, s.values, nk, t.pc.bytes);
      if t.pc.out.encoding == Gzipped {
        ValueKeeps(w, s.h, s.values[nk := t.pc.bytes], gz, t.pc.out.bytes);
        AnsweredWithKeeps(w, s, id, a, s.values[nk := t.pc.bytes][gz := t.pc.out.bytes], s.controls);
      } else {
        AnsweredWithKeeps(w, s, id, a, s.values[nk := t.pc.bytes], s.controls);
      }
    } else {
      AnsweredKeeps(w, s, id, a);
    }
  }

  lemma AfterMissKeeps(w: World, s: State, id: nat)
    requires Inv(w, s) && id in s.tasks && s.tasks[id].pc.SendMiss?
    ensures Inv(w, Goto(s, id, Deliver(Answer(Missing, s.tasks[id].pc.origin), false)))
  {
    TaskIn(w, s, id);
    AnsweredKeeps(w, s, id, Answer(Missing, s.tasks[id].pc.origin));
  }

  // -------------------------------------------------------------- delivering

  /** The innermost owned flight may be given the answer. */
  lemma MarkedFlightOk(w: World, h: History, fl: Flights, wr: Writes, t: Task, a: Answer)
    requires TaskOk(w, h, fl, wr, t) && t.pc == Deliver(a, false) && t.owned != []
    requires FlightOk(w, h, fl, fl[t.owned[|t.owned| - 1]])
    ensures FlightOk(w, h, fl, fl[t.owned[|t.owned| - 1]].(result := Some(Share(a))))
    ensures TaskOk(w, h, fl, wr, t.(pc := Deliver(a, true)))
  {
  }

  lemma ResultSlotKeeps(fl: Flights, registry: map<Slot, nat>, f: nat, result: Option<Option<Answer>>)
    requires RegistryOk(fl, registry) && f in fl
    ensures RegistryOk(fl[f := fl[f].(result := result)], registry)
  {
  }

  lemma MarkKeeps(w: World, s: State, id: nat, a: Answer)
    requires Inv(w, s) && id in s.tasks && s.tasks[id].pc == Deliver(a, false) && s.tasks[id].owned != []
    requires forall o | o in s.tasks[id].owned :: o in s.flights
    ensures Inv(w, RunDeliver(s, id, a, false))
  {
    var t := s.tasks[id];
    var f := t.owned[|t.owned| - 1];
    TaskIn(w, s, id);
    FlightIn(w, s, f);
    MarkedFlightOk(w, s.h, s.flights, s.writes, t, a);
    ResultSlotKeeps(s.flights, s.registry, f, Some(Share(a)));
    SettleFlightKeeps(w, s, f, s.flights[f].(result := Some(Share(a))), s.registry, id, t.(pc := Deliver(a, true)));
  }

  /** One flight changes its result or closes, and its task moves on. */
  lemma SettleFlightKeeps(w: World, s: State, f: nat, g: Flight, registry: map<Slot, nat>, id: nat, t: Task)
    requires Inv(w, s) && id in s.tasks && f in s.flights
    requires g == s.flights[f].(result := g.result, closedAt := g.closedAt)
    requires g.closedAt == s.flights[f].closedAt || g.closedAt == Some(Now(s))
    requires FlightOk(w, s.h, s.flights, g) && TaskOk(w, s.h, s.flights, s.writes, t)
    requires RegistryOk(s.flights[f := g], registry)
    ensures Inv(w, s.(flights := s.flights[f := g], registry := registry, tasks := s.tasks[id := t]))
  {
    var fl' := s.flights[f := g];
    AllFlown(w, s, fl');
    forall k | k in s.flights ensures s.flights[k].startedAt <= Now(s) { FlightIn(w, s, k); }
    FlightFlown(w, s.h, s.flights, fl', Now(s), g);
    TaskFlown(w, s.h, s.flights, fl', Now(s), s.writes, t);
    RegroupKeeps(w, s, fl', registry, id, t);
  }

  lemma PoppedOk(w: World, h: History, fl: Flights, wr: Writes, t: Task, a: Answer)
    requires TaskOk(w, h, fl, wr, t) && t.pc == Deliver(a, true) && t.owned != []
    ensures TaskOk(w, h, fl, wr, t.(owned := t.owned[..|t.owned| - 1], pc := Deliver(a, false)))
  {
    var t' := t.(owned := t.owned[..|t.owned| - 1], pc := Deliver(a, false));
    assert Since(fl, t') <= Since(fl, t);
    if a.origin.Queried? { RecentEarlier(fl, a.origin.seen, a.origin.via, Since(fl, t), Since(fl, t')); }
  }

  lemma RecentEarlier(fl: Flights, seen: seq<nat>, via: seq<nat>, since: nat, earlier: nat)
    requires earlier <= since
    ensures Recent(fl, seen, via, since) ==> Recent(fl, seen, via, earlier)
  {
  }

  lemma VacateKeeps(fl: Flights, registry: map<Slot, nat>, f: nat, now: nat)
    requires RegistryOk(fl, registry) && f in fl
    ensures var slot := (fl[f].node, fl[f].key);
            RegistryOk(fl[f := fl[f].(closedAt := Some(now))],
                       if slot in registry && registry[slot] == f then registry - {slot} else registry)
  {
  }

  lemma CloseKeeps(w: World, s: State, id: nat, a: Answer)
    requires Inv(w, s) && id in s.tasks && s.tasks[id].pc == Deliver(a, true) && s.tasks[id].owned != []
    requires forall o | o in s.tasks[id].owned :: o in s.flights
    ensures Inv(w, RunDeliver(s, id, a, true))
  {
    var t := s.tasks[id];
    var f := t.owned[|t.owned| - 1];
    assert f in t.owned;
    TaskIn(w, s, id);
    FlightIn(w, s, f);
    PoppedOk(w, s.h, s.flights, s.writes, t, a);
    VacateKeeps(s.flights, s.registry, f, Now(s));
    var slot := (s.flights[f].node, s.flights[f].key);
    SettleFlightKeeps(w, s, f, s.flights[f].(closedAt := Some(Now(s))),
                      if slot in s.registry && s.registry[slot] == f then s.registry - {slot} else s.registry,
                      id, t.(owned := t.owned[..|t.owned| - 1], pc := Deliver(a, false)));
  }

  lemma DeliverKeeps(w: World, s: State, id: nat, a: Answer, marked: bool)
    requires Inv(w, s) && id in s.tasks && s.tasks[id].pc == Deliver(a, marked)
    requires forall o | o in s.tasks[id].owned :: o in s.flights
    ensures Inv(w, RunDeliver(s, id, a, marked))
  {
    if s.tasks[id].owned == [] {
      TaskIn(w, s, id);
      StepKeeps(w, s, id, Done(a));
    } else if marked {
      CloseKeeps(w, s, id, a);
    } else {
      MarkKeeps(w, s, id, a);
    }
  }

  // --------------------------------------------------------------- all steps

  lemma EarlyRunKeeps(w: World, s: State, id: nat, spare: nat)
    requires Inv(w, s) && CanRun(s, id, spare)
    requires var pc := s.tasks[id].pc; pc.Begin? || pc.Peek? || pc.Wait? || pc.Keys? || pc.Script? || pc.Replied? || pc.Hold?
    ensures Inv(w, RunTask(w, s, id, spare))
  {
    match s.tasks[id].pc
    case Begin => BeginKeeps(w, s, id, spare);
    case Peek(ctx) => PeekKeeps(w, s, id, ctx, spare);
    case Wait(f, plan) => WaitKeeps(w, s, id, f, plan);
    case Keys(ctx, stage, gz, body, negative) => KeysKeeps(w, s, id, ctx, stage, gz, body, negative);
    case Script => ScriptKeeps(w, s, id);
    case Replied(reply) => ReplyKeeps(w, s, id, reply, spare);
    case Hold(ctx, bytes) => HoldKeeps(w, s, id, ctx, bytes);
  }

  lemma RunKeeps(w: World, s: State, id: nat, spare: nat)
    requires Lossless(w) && Inv(w, s) && CanRun(s, id, spare)
    ensures Inv(w, RunTask(w, s, id, spare))
  {
    match s.tasks[id].pc
    case Fetch(_, _) => FetchKeeps(w, s, id, spare);
    case Encode(_, _) => EncodeKeeps(w, s, id, spare);
    case SendGzip(_, _, i, _, _) => AfterGzipKeeps(w, s, id, spare, s.writes[i].status == Written);
    case SendBody(_, _, i, _, _) => AfterBodyKeeps(w, s, id, s.writes[i].status == Written);
    case SendMiss(_, _) => AfterMissKeeps(w, s, id);
    case Deliver(a, marked) => DeliverKeeps(w, s, id, a, marked);
    case _ => EarlyRunKeeps(w, s, id, spare);
  }

  lemma FailKeeps(w: World, s: State, id: nat, spare: nat)
    requires Lossless(w) && Inv(w, s) && CanFail(s, id, spare)
    ensures Inv(w, FailTask(w, s, id, spare))
  {
    hide Inv, AfterGzip, AfterBody;
    match s.tasks[id].pc
    case Keys(_, _, _, _, _) => RefetchKeeps(w, s, id);
    case Script => RefetchKeeps(w, s, id);
    case Replied(_) => RefetchKeeps(w, s, id);
    case SendGzip(_, _, _, _, _) => AfterGzipKeeps(w, s, id, spare, false);
    case SendBody(_, _, _, _, _) => AfterBodyKeeps(w, s, id, false);
    case SendMiss(_, _) => AfterMissKeeps(w, s, id);
    case _ => GaveUpKeeps(w, s, id, Error);
  }

  lemma DropKeeps(w: World, s: State, id: nat)
    requires Inv(w, s) && Enabled(s, Step.Drop(id))
    ensures Inv(w, Effect(w, s, Step.Drop(id)))
  {
    GaveUpKeeps(w, s, id, Cancelled);
  }

  /** WRITE_SCRIPT stores an entry only while its epoch is stable, and then the entry is right. */
  lemma ExecWriteKeeps(w: World, s: State, id: nat)
    requires Inv(w, s) && Enabled(s, ExecWrite(id))
    ensures Inv(w, RunWrite(s, id))
  {
    var m := s.writes[id];
    assert WriteOk(w, s.h, m);
    var stored := m.key.epoch == s.h.epoch && !s.dirty;
    var wr' := s.writes[id := m.(status := if stored then Written else Refused)];
    TasksSent(w, s, wr');
    if stored {
      assert Stable(s.h, m.key.epoch);
      StoredKeeps(w, s, s.store[m.key := m.bytes], wr');
    } else {
      StoredKeeps(w, s, s.store, wr');
    }
  }

  lemma StoredKeeps(w: World, s: State, store: map<Key, Bytes>, wr': Writes)
    requires Inv(w, s) && StoreOk(w, s.h, store) && WritesOk(w, s.h, wr')
    requires TasksOk(w, s.h, s.flights, wr', s.tasks)
    ensures Inv(w, s.(store := store, writes := wr'))
  {
  }

  lemma ForgetKeeps(w: World, s: State, step: Step)
    requires Inv(w, s) && (step.ExpireEntry? || step.ExpireControl? || step.EvictValue?)
    ensures Inv(w, Effect(w, s, step))
  {
  }

  lemma ArriveKeeps(w: World, s: State, id: nat, req: Request, bypass: bool)
    requires Inv(w, s) && Enabled(s, Arrive(id, req, bypass))
    ensures Inv(w, Effect(w, s, Arrive(id, req, bypass)))
  {
  }

  /** Every step keeps the invariant. */
  lemma NextKeeps(w: World, s: State, step: Step)
    requires Lossless(w) && Inv(w, s) && Enabled(s, step)
    ensures Inv(w, Next(w, s, step))
  {
    match step
    case Issue(c) => IssueKeeps(w, s, c);
    case ExecWrite(id) => ExecWriteKeeps(w, s, id); StampKeeps(w, Effect(w, s, step));
    case Arrive(id, req, bypass) => ArriveKeeps(w, s, id, req, bypass); StampKeeps(w, Effect(w, s, step));
    case Run(id, spare) => RunKeeps(w, s, id, spare); StampKeeps(w, Effect(w, s, step));
    case Fail(id, spare) => FailKeeps(w, s, id, spare); StampKeeps(w, Effect(w, s, step));
    case Drop(id) => DropKeeps(w, s, id); StampKeeps(w, Effect(w, s, step));
    case _ => ForgetKeeps(w, s, step); StampKeeps(w, Effect(w, s, step));
  }
}
