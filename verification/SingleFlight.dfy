/** SingleFlight at the grain of its locks: `begin` and the three parts of
    `finish` are separate steps, a waiter arms its notification before it looks
    at the flight, and an owner may be dropped at any await point. */
module SingleFlight {
  /** A lookup flight may open a dirty fetch inside it, never the other way round. */
  datatype Kind = DirtyFetch | Lookup
  datatype Key = Key(kind: Kind, name: string)

  /** An in-flight entry; `wakeups` counts calls of notify_waiters. */
  datatype Entry<R> = Entry(key: Key, owner: nat, done: bool, result: Shared<R>, wakeups: nat)
  datatype Shared<R> = Nothing | Just(value: R)

  /** A waiter's loop: `turns` is the number of times it has armed. */
  datatype Pc<R> =
    | Working
    | Looping(entry: nat, turns: nat)
    | Armed(entry: nat, seen: nat, turns: nat)      // notified() created, state not yet read
    | Blocked(entry: nat, seen: nat, turns: nat)    // read done == false, awaiting
    | Settling(stage: nat)                          // inside finish of the innermost owned flight
    | Ended

  datatype Thread<R> = Thread(owned: seq<nat>, pc: Pc<R>, dropped: bool, got: Shared<R>)

  datatype State<R> = State(entries: map<nat, Entry<R>>, registry: map<Key, nat>, threads: map<nat, Thread<R>>)

  datatype Step<R> =
    | Spawn(t: nat)
    | Begin(t: nat, key: Key, spare: nat)
    | Arm(t: nat)
    | Check(t: nat)
    | Wake(t: nat)
    | SetDone(t: nat, result: Shared<R>)
    | Deregister(t: nat)
    | Notify(t: nat)
    | DropFuture(t: nat)
    | End(t: nat)

  ghost predicate Init<R>(s: State<R>) {
    s.entries == map[] && s.registry == map[] && s.threads == map[]
  }

  function Rank(k: Kind): nat {
    if k == Lookup then 2 else 1
  }

  function Last(q: seq<nat>): nat
    requires q != []
  {
    q[|q| - 1]
  }

  predicate Enabled<R>(s: State<R>, step: Step<R>) {
    match step
    case Spawn(t) => t !in s.threads
    case Begin(t, key, spare) =>
      && t in s.threads && s.threads[t].pc.Working? && !s.threads[t].dropped && spare !in s.entries
      // get_or_fetch_* begins one lookup, or one dirty fetch, possibly inside its lookup
      && (forall i | 0 <= i < |s.threads[t].owned| :: s.threads[t].owned[i] in s.entries
            && Rank(key.kind) < Rank(s.entries[s.threads[t].owned[i]].key.kind))
    case Arm(t) => t in s.threads && s.threads[t].pc.Looping? && s.threads[t].pc.entry in s.entries
    case Check(t) => t in s.threads && s.threads[t].pc.Armed? && s.threads[t].pc.entry in s.entries
    case Wake(t) => t in s.threads && s.threads[t].pc.Blocked? && s.threads[t].pc.entry in s.entries
                    && s.entries[s.threads[t].pc.entry].wakeups > s.threads[t].pc.seen
    case SetDone(t, result) => t in s.threads && s.threads[t].pc.Working? && s.threads[t].owned != []
                               && Last(s.threads[t].owned) in s.entries
                               && (s.threads[t].dropped ==> result == Nothing)
    case Deregister(t) => t in s.threads && s.threads[t].pc == Settling(1) && s.threads[t].owned != []
                          && Last(s.threads[t].owned) in s.entries
    case Notify(t) => t in s.threads && s.threads[t].pc == Settling(2) && s.threads[t].owned != []
                      && Last(s.threads[t].owned) in s.entries
    case DropFuture(t) => t in s.threads && !s.threads[t].pc.Ended? && !s.threads[t].pc.Settling?
    case End(t) => t in s.threads && s.threads[t].pc.Working? && s.threads[t].owned == []
  }

  function Put<R>(s: State<R>, t: nat, th: Thread<R>): State<R> {
    s.(threads := s.threads[t := th])
  }

  function Move<R>(s: State<R>, t: nat, pc: Pc<R>): State<R>
    requires t in s.threads
  {
    Put(s, t, s.threads[t].(pc := pc))
  }

  function Next<R>(s: State<R>, step: Step<R>): State<R>
    requires Enabled(s, step)
  {
    match step
    case Spawn(t) => Put(s, t, Thread([], Working, false, Nothing))
    case Begin(t, key, spare) =>
      if key in s.registry then
        Move(s, t, Looping(s.registry[key], 0))
      else
        Put(s, t, s.threads[t].(owned := s.threads[t].owned + [spare]))
          .(entries := s.entries[spare := Entry(key, t, false, Nothing, 0)], registry := s.registry[key := spare])
    case Arm(t) =>
      var pc := s.threads[t].pc;
      Move(s, t, Armed(pc.entry, s.entries[pc.entry].wakeups, pc.turns + 1))
    case Check(t) =>
      var pc := s.threads[t].pc;
      if s.entries[pc.entry].done then
        Put(s, t, s.threads[t].(pc := Working, got := s.entries[pc.entry].result))
      else
        Move(s, t, Blocked(pc.entry, pc.seen, pc.turns))
    case Wake(t) => Move(s, t, Looping(s.threads[t].pc.entry, s.threads[t].pc.turns))
    case SetDone(t, result) =>
      var e := Last(s.threads[t].owned);
      Move(s, t, Settling(1)).(entries := s.entries[e := s.entries[e].(done := true, result := result)])
    case Deregister(t) =>
      var e := Last(s.threads[t].owned);
      var key := s.entries[e].key;
      Move(s, t, Settling(2))
        .(registry := if key in s.registry && s.registry[key] == e then s.registry - {key} else s.registry)
    case Notify(t) =>
      var th := s.threads[t];
      var e := Last(th.owned);
      Put(s, t, th.(owned := th.owned[..|th.owned| - 1], pc := Working))
        .(entries := s.entries[e := s.entries[e].(wakeups := s.entries[e].wakeups + 1)])
    case DropFuture(t) => Put(s, t, s.threads[t].(pc := Working, dropped := true))
    case End(t) => Move(s, t, Ended)
  }

  // --------------------------------------------------------------- invariant

  /** Where an entry stands, as a function of what its owner is doing. */
  ghost predicate EntryOk<R>(s: State<R>, e: nat)
    requires e in s.entries
  {
    var x := s.entries[e];
    var registered := x.key in s.registry && s.registry[x.key] == e;
    && x.owner in s.threads
    && var th := s.threads[x.owner];
       if e in th.owned then
         && x.wakeups == 0
         && var settling := th.pc.Settling? && e == Last(th.owned);
            && (x.done <==> settling)
            && (registered <==> !(settling && th.pc.stage == 2))
       else
         x.done && x.wakeups == 1 && !registered
  }

  ghost predicate RegistryOk<R>(s: State<R>) {
    forall k | k in s.registry :: s.registry[k] in s.entries && s.entries[s.registry[k]].key == k
  }

  ghost predicate OwnedOk<R>(s: State<R>, t: nat)
    requires t in s.threads
  {
    var owned := s.threads[t].owned;
    && (forall i | 0 <= i < |owned| :: owned[i] in s.entries && s.entries[owned[i]].owner == t)
    && (forall i, j | 0 <= i < j < |owned| ::
          Rank(s.entries[owned[j]].key.kind) < Rank(s.entries[owned[i]].key.kind))
  }

  /** A waiter never owns a flight of the awaited rank or below. */
  ghost predicate AwaitsBelow<R>(s: State<R>, t: nat, e: nat)
    requires t in s.threads
  {
    && e in s.entries
    && forall i | 0 <= i < |s.threads[t].owned| ::
         s.threads[t].owned[i] in s.entries && Rank(s.entries[e].key.kind) < Rank(s.entries[s.threads[t].owned[i]].key.kind)
  }

  ghost predicate PcOk<R>(s: State<R>, t: nat)
    requires t in s.threads
  {
    var th := s.threads[t];
    match th.pc
    case Working => true
    case Looping(e, turns) => AwaitsBelow(s, t, e) && (turns == 0 || (turns == 1 && s.entries[e].wakeups >= 1))
    case Armed(e, seen, turns) =>
      && AwaitsBelow(s, t, e)
      && seen <= s.entries[e].wakeups
      && (turns == 1 || (turns == 2 && s.entries[e].wakeups >= 1))
      && (seen > 0 ==> s.entries[e].done)
    case Blocked(e, seen, turns) => AwaitsBelow(s, t, e) && seen == 0 && turns == 1
    case Settling(stage) => th.owned != [] && 1 <= stage <= 2
    case Ended => th.owned == []
  }

  ghost predicate Inv<R>(s: State<R>) {
    && RegistryOk(s)
    && (forall e | e in s.entries :: EntryOk(s, e))
    && (forall t | t in s.threads :: OwnedOk(s, t))
    && (forall t | t in s.threads :: PcOk(s, t))
  }

  // -------------------------------------------------------- every step keeps it

  lemma RegistryKeeps<R>(s: State<R>, step: Step<R>)
    requires RegistryOk(s) && Enabled(s, step)
    ensures RegistryOk(Next(s, step))
  {
  }

  predicate Settles<R>(step: Step<R>) {
    step.SetDone? || step.Deregister? || step.Notify?
  }

  lemma EntryKeeps<R>(s: State<R>, step: Step<R>, e: nat)
    requires RegistryOk(s) && Enabled(s, step) && e in s.entries && EntryOk(s, e)
    requires step.t in s.threads ==> OwnedOk(s, step.t) && PcOk(s, step.t)
    requires Settles(step) ==> EntryOk(s, Last(s.threads[step.t].owned))
    ensures EntryOk(Next(s, step), e)
  {
    hide EntryOk, OwnedOk, PcOk, Next, Enabled;
    if Settles(step) {
      SettlerOwns(s, step);
      EntryKeepsFinish(s, step, e);
    } else if step.Begin? {
      EntryKeepsBegin(s, step, e);
    } else {
      EntryKeepsElse(s, step, e);
    }
  }

  lemma EntryKeepsFinish<R>(s: State<R>, step: Step<R>, e: nat)
    requires Settles(step) && Enabled(s, step) && e in s.entries && EntryOk(s, e)
    requires OwnedOk(s, step.t) && PcOk(s, step.t) && EntryOk(s, Last(s.threads[step.t].owned))
    ensures EntryOk(Next(s, step), e)
  {
    match step
    case SetDone(_, _) =>
    case Deregister(_) =>
    case _ =>
  }

  lemma EntryKeepsBegin<R>(s: State<R>, step: Step<R>, e: nat)
    requires step.Begin? && RegistryOk(s) && Enabled(s, step) && e in s.entries && EntryOk(s, e)
    ensures EntryOk(Next(s, step), e)
  {
  }

  lemma EntryKeepsElse<R>(s: State<R>, step: Step<R>, e: nat)
    requires !Settles(step) && !step.Begin? && Enabled(s, step) && e in s.entries && EntryOk(s, e)
    requires step.t in s.threads ==> PcOk(s, step.t)
    ensures EntryOk(Next(s, step), e)
  {
    match step
    case DropFuture(_) =>
    case _ =>
  }

  lemma NewEntryOk<R>(s: State<R>, step: Step<R>, e: nat)
    requires Inv(s) && Enabled(s, step) && e !in s.entries && e in Next(s, step).entries
    ensures EntryOk(Next(s, step), e)
  {
    assert step.Begin?;
  }

  lemma OwnedKeeps<R>(s: State<R>, step: Step<R>, t: nat)
    requires Enabled(s, step) && t in s.threads && OwnedOk(s, t)
    ensures OwnedOk(Next(s, step), t)
  {
    hide OwnedOk, Next, Enabled;
    if step.Begin? { OwnedKeepsBegin(s, step, t); } else { OwnedKeepsElse(s, step, t); }
  }

  lemma OwnedKeepsBegin<R>(s: State<R>, step: Step<R>, t: nat)
    requires step.Begin? && Enabled(s, step) && t in s.threads && OwnedOk(s, t)
    ensures OwnedOk(Next(s, step), t)
  {
  }

  lemma OwnedKeepsElse<R>(s: State<R>, step: Step<R>, t: nat)
    requires !step.Begin? && Enabled(s, step) && t in s.threads && OwnedOk(s, t)
    ensures OwnedOk(Next(s, step), t)
  {
    match step
    case Notify(_) =>
    case _ =>
  }

  /** The flight a thread's loop is about, if it is in one. */
  function Awaited<R>(pc: Pc<R>): set<nat> {
    if pc.Looping? || pc.Armed? || pc.Blocked? then {pc.entry} else {}
  }

  /** Entries keep their key and owner, and only ever become done and woken. */
  ghost predicate Grows<R>(x: Entry<R>, y: Entry<R>) {
    y.key == x.key && y.owner == x.owner && x.wakeups <= y.wakeups && (x.done ==> y.done && y.result == x.result)
  }

  lemma EntryGrows<R>(s: State<R>, step: Step<R>, e: nat)
    requires Enabled(s, step) && e in s.entries
    requires Settles(step) ==> EntryOk(s, Last(s.threads[step.t].owned)) && OwnedOk(s, step.t)
    ensures e in Next(s, step).entries && Grows(s.entries[e], Next(s, step).entries[e])
  {
  }

  lemma OtherPcKeeps<R>(s: State<R>, r: State<R>, t: nat)
    requires t in s.threads && t in r.threads && r.threads[t] == s.threads[t] && OwnedOk(s, t) && PcOk(s, t)
    requires forall e | e in s.entries :: e in r.entries && Grows(s.entries[e], r.entries[e])
    ensures PcOk(r, t)
  {
  }

  lemma OwnPcKeeps<R>(s: State<R>, step: Step<R>, t: nat)
    requires RegistryOk(s) && Enabled(s, step) && t == step.t && t in s.threads && OwnedOk(s, t) && PcOk(s, t)
    requires forall e | e in Awaited(s.threads[t].pc) && e in s.entries :: EntryOk(s, e)
    ensures PcOk(Next(s, step), t)
  {
    match step
    case Begin(_, _, _) =>
    case Arm(_) =>
    case Check(_) =>
    case _ =>
  }

  /** A step is the business of its own thread. */
  lemma OthersStay<R>(s: State<R>, step: Step<R>, t: nat)
    requires Enabled(s, step) && t != step.t
    ensures t in Next(s, step).threads <==> t in s.threads
    ensures t in s.threads ==> Next(s, step).threads[t] == s.threads[t]
  {
  }

  lemma SpawnedOk<R>(s: State<R>, step: Step<R>)
    requires Enabled(s, step) && step.t !in s.threads
    ensures step.t in Next(s, step).threads && OwnedOk(Next(s, step), step.t) && PcOk(Next(s, step), step.t)
  {
  }

  lemma SettlerOwns<R>(s: State<R>, step: Step<R>)
    requires Enabled(s, step) && Settles(step)
    ensures step.t in s.threads && s.threads[step.t].owned != [] && Last(s.threads[step.t].owned) in s.entries
  {
  }

  lemma NextKeeps<R>(s: State<R>, step: Step<R>)
    requires Inv(s) && Enabled(s, step)
    ensures Inv(Next(s, step))
  {
    hide Next, Enabled, EntryOk, OwnedOk, PcOk, RegistryOk, Grows;
    var r := Next(s, step);
    RegistryKeeps(s, step);
    if Settles(step) {
      SettlerOwns(s, step);
      assert EntryOk(s, Last(s.threads[step.t].owned));
    }
    forall e | e in s.entries ensures e in r.entries && Grows(s.entries[e], r.entries[e]) { EntryGrows(s, step, e); }
    forall e | e in r.entries ensures EntryOk(r, e) {
      if e in s.entries { EntryKeeps(s, step, e); } else { NewEntryOk(s, step, e); }
    }
    forall t | t in r.threads ensures OwnedOk(r, t) && PcOk(r, t) {
      if t != step.t { OthersStay(s, step, t); }
      if t in s.threads {
        OwnedKeeps(s, step, t);
        if t == step.t { OwnPcKeeps(s, step, t); } else { OtherPcKeeps(s, r, t); }
      } else {
        SpawnedOk(s, step);
      }
    }
  }

  // ------------------------------------------------------------------ runs

  ghost predicate Leads<R(!new)>(s: State<R>, steps: seq<Step<R>>, u: State<R>)
    decreases |steps|
  {
    if steps == [] then s == u else Enabled(s, steps[0]) && Leads(Next(s, steps[0]), steps[1..], u)
  }

  ghost predicate Reachable<R(!new)>(u: State<R>) {
    exists s: State<R>, steps: seq<Step<R>> :: Init(s) && Leads(s, steps, u)
  }

  lemma {:induction false} RunInv<R(!new)>(s: State<R>, steps: seq<Step<R>>, u: State<R>)
    requires Inv(s) && Leads(s, steps, u)
    ensures Inv(u)
    decreases |steps|
  {
    if steps != [] {
      NextKeeps(s, steps[0]);
      RunInv(Next(s, steps[0]), steps[1..], u);
    }
  }

  lemma ReachableInv<R(!new)>(u: State<R>)
    requires Reachable(u)
    ensures Inv(u)
  {
    var s: State<R>, steps: seq<Step<R>> :| Init(s) && Leads(s, steps, u);
    RunInv(s, steps, u);
  }

  // ---------------------------------------------------------------- safety

  /** At most one unfinished flight per key, and it is the registered one. */
  lemma OneFlightPerKey<R(!new)>(s: State<R>, e: nat, f: nat)
    requires Reachable(s) && e in s.entries && f in s.entries
    requires !s.entries[e].done && !s.entries[f].done && s.entries[e].key == s.entries[f].key
    ensures e == f && s.entries[e].key in s.registry && s.registry[s.entries[e].key] == e
  {
    ReachableInv(s);
    assert EntryOk(s, e) && EntryOk(s, f);
  }

  /** `finish` removes its own registration: the pointer comparison that guards
      the removal always succeeds, and no other key is touched. */
  lemma FinishRemovesItsOwn<R(!new)>(s: State<R>, t: nat)
    requires Reachable(s) && Enabled(s, Deregister(t))
    ensures var e := Last(s.threads[t].owned);
            && s.entries[e].key in s.registry && s.registry[s.entries[e].key] == e
            && Next(s, Deregister(t)).registry == s.registry - {s.entries[e].key}
  {
    ReachableInv(s);
    assert EntryOk(s, Last(s.threads[t].owned)) && OwnedOk(s, t);
  }

  lemma {:induction false} RunGrows<R(!new)>(s: State<R>, steps: seq<Step<R>>, u: State<R>, e: nat)
    requires Inv(s) && Leads(s, steps, u) && e in s.entries
    ensures e in u.entries && Grows(s.entries[e], u.entries[e])
    decreases |steps|
  {
    if steps != [] {
      NextKeeps(s, steps[0]);
      if Settles(steps[0]) {
        assert OwnedOk(s, steps[0].t) && EntryOk(s, Last(s.threads[steps[0].t].owned));
      }
      EntryGrows(s, steps[0], e);
      RunGrows(Next(s, steps[0]), steps[1..], u, e);
    }
  }

  /** What a waiter takes away is what every other waiter of the flight takes
      away, then or later: a result never changes once it is set. */
  lemma WaitersAgree<R(!new)>(s: State<R>, t: nat, steps: seq<Step<R>>, u: State<R>, v: nat)
    requires Reachable(s) && Enabled(s, Check(t)) && Next(s, Check(t)).threads[t].pc.Working?
    requires Leads(Next(s, Check(t)), steps, u) && Enabled(u, Check(v))
    requires u.threads[v].pc.entry == s.threads[t].pc.entry
    ensures Next(u, Check(v)).threads[v].pc.Working?
    ensures Next(u, Check(v)).threads[v].got == Next(s, Check(t)).threads[t].got
  {
    ReachableInv(s);
    NextKeeps(s, Check(t));
    RunGrows(Next(s, Check(t)), steps, u, s.threads[t].pc.entry);
  }

  // -------------------------------------------------------------- progress

  /** No wake-up is lost between reading `done` and waiting: a blocked waiter has
      one pending, or the flight still belongs to a thread that has yet to notify. */
  lemma NoLostWakeup<R(!new)>(s: State<R>, t: nat)
    requires Reachable(s) && t in s.threads && s.threads[t].pc.Blocked?
    ensures var e := s.threads[t].pc.entry;
            && e in s.entries && s.entries[e].owner in s.threads
            && (Enabled(s, Wake(t))
                || (e in s.threads[s.entries[e].owner].owned && !s.threads[s.entries[e].owner].pc.Ended?))
  {
    ReachableInv(s);
    assert PcOk(s, t);
    assert EntryOk(s, s.threads[t].pc.entry);
    assert PcOk(s, s.entries[s.threads[t].pc.entry].owner);
  }

  /** A waiter arms at most twice, and the second time it finds the flight done. */
  lemma AtMostTwoTurns<R(!new)>(s: State<R>, t: nat)
    requires Reachable(s) && t in s.threads
    ensures var pc := s.threads[t].pc;
            && (pc.Looping? || pc.Blocked? ==> pc.turns <= 1)
            && (pc.Armed? ==> pc.turns <= 2)
            && (pc.Armed? && pc.turns == 2 ==> Enabled(s, Check(t)) && Next(s, Check(t)).threads[t].pc.Working?)
  {
    ReachableInv(s);
    assert PcOk(s, t);
    if s.threads[t].pc.Armed? { assert EntryOk(s, s.threads[t].pc.entry); }
  }

  /** `t` is in the wait loop of a flight that `u` still owns. */
  ghost predicate WaitsOn<R>(s: State<R>, t: nat, u: nat) {
    && t in s.threads && u in s.threads
    && exists e | e in Awaited(s.threads[t].pc) :: e in s.threads[u].owned
  }

  lemma WaitsFallInRank<R>(s: State<R>, t: nat, u: nat, v: nat)
    requires Inv(s) && WaitsOn(s, t, u) && WaitsOn(s, u, v)
    ensures s.threads[t].pc.entry in s.entries && s.threads[u].pc.entry in s.entries
    ensures s.entries[s.threads[t].pc.entry].key.kind == Lookup
    ensures s.entries[s.threads[u].pc.entry].key.kind == DirtyFetch
  {
    assert PcOk(s, t) && PcOk(s, u) && OwnedOk(s, u);
    var e := s.threads[t].pc.entry;
    var i :| 0 <= i < |s.threads[u].owned| && s.threads[u].owned[i] == e;
  }

  /** Nested waits never form a cycle: a chain of waiting threads, each on a flight
      owned by the next, has at most two links and never returns to a thread. */
  lemma WaitChainsAreShort<R(!new)>(s: State<R>, path: seq<nat>)
    requires Reachable(s)
    requires forall i | 0 <= i < |path| - 1 :: WaitsOn(s, path[i], path[i + 1])
    ensures |path| <= 3
    ensures forall i, j | 0 <= i < j < |path| :: path[i] != path[j]
  {
    ReachableInv(s);
    if |path| >= 4 {
      assert WaitsOn(s, path[0], path[1]) && WaitsOn(s, path[1], path[2]) && WaitsOn(s, path[2], path[3]);
      WaitsFallInRank(s, path[0], path[1], path[2]);
      WaitsFallInRank(s, path[1], path[2], path[3]);
    }
    forall i, j | 0 <= i < j < |path| ensures path[i] != path[j] {
      if path[i] == path[j] {
        assert WaitsOn(s, path[i], path[i + 1]);
        if j == i + 1 {
          WaitsFallInRank(s, path[i], path[i], path[i]);
        } else {
          assert WaitsOn(s, path[i + 1], path[i + 2]);
          WaitsFallInRank(s, path[i], path[i + 1], path[i]);
          WaitsFallInRank(s, path[i + 1], path[i], path[i + 1]);
        }
      }
    }
  }

  /** Nobody is stuck: whoever has not ended can move by himself, or waits, over
      at most two links, on somebody who can. */
  lemma SomebodyMoves<R(!new)>(s: State<R>, t: nat) returns (path: seq<nat>, step: Step<R>)
    requires Reachable(s) && t in s.threads && !s.threads[t].pc.Ended?
    ensures 1 <= |path| <= 3 && path[0] == t
    ensures forall i | 0 <= i < |path| - 1 :: WaitsOn(s, path[i], path[i + 1])
    ensures Enabled(s, step) && step.t == path[|path| - 1] && !step.DropFuture? && !step.Spawn?
  {
    ReachableInv(s);
    path := [t];
    var stuck := t;
    var moves := false;
    moves, step := OwnMove(s, stuck);
    while !moves
      invariant path != [] && path[0] == t && path[|path| - 1] == stuck
      invariant forall i | 0 <= i < |path| - 1 :: WaitsOn(s, path[i], path[i + 1])
      invariant |path| <= 3
      invariant stuck in s.threads && !s.threads[stuck].pc.Ended?
      invariant moves ==> Enabled(s, step) && step.t == stuck && !step.DropFuture? && !step.Spawn?
      invariant !moves ==> s.threads[stuck].pc.Blocked? && !Enabled(s, Wake(stuck))
      decreases 3 - |path|
    {
      NoLostWakeup(s, stuck);
      var e := s.threads[stuck].pc.entry;
      var owner := s.entries[e].owner;
      assert WaitsOn(s, stuck, owner) by { assert e in Awaited(s.threads[stuck].pc); }
      path := path + [owner];
      stuck := owner;
      WaitChainsAreShort(s, path);
      moves, step := OwnMove(s, stuck);
    }
  }

  lemma OwnMove<R(!new)>(s: State<R>, t: nat) returns (moves: bool, step: Step<R>)
    requires Inv(s) && t in s.threads && !s.threads[t].pc.Ended?
    ensures moves ==> Enabled(s, step) && step.t == t && !step.DropFuture? && !step.Spawn?
    ensures !moves ==> s.threads[t].pc.Blocked? && !Enabled(s, Wake(t))
  {
    assert OwnedOk(s, t) && PcOk(s, t);
    var th := s.threads[t];
    if th.owned != [] { assert th.owned[|th.owned| - 1] in s.entries; }
    step := match th.pc
      case Working => if th.owned == [] then End(t) else SetDone(t, Nothing)
      case Looping(_, _) => Arm(t)
      case Armed(_, _, _) => Check(t)
      case Blocked(_, _, _) => Wake(t)
      case Settling(stage) => if stage == 1 then Deregister(t) else Notify(t)
      case Ended => End(t);
    moves := Enabled(s, step);
  }
}
