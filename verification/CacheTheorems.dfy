/** What the cache promises, over every interleaving of one writer, any number
    of API processes and requests, late writes, expiry and eviction. */
module CacheTheorems {
  import opened RankingTables
  import opened UpdateBracket
  import opened CacheProtocol
  import opened CacheInvariant
  import CacheSteps

  // -------------------------------------------------------------------- runs

  lemma InitInv(w: World, s: State)
    requires Init(s)
    ensures Inv(w, s) && Ordered(s.h)
  {
  }

  lemma {:induction false} RunInv(w: World, s: State, steps: seq<Step>, t: State)
    requires Lossless(w) && Inv(w, s) && Leads(w, s, steps, t)
    ensures Inv(w, t)
    decreases |steps|
  {
    if steps != [] {
      CacheSteps.NextKeeps(w, s, steps[0]);
      RunInv(w, Next(w, s, steps[0]), steps[1..], t);
    }
  }

  /** pub[e] is the first instant whose epoch is e or later. */
  ghost predicate Ordered(h: History) {
    && (forall e, i | 0 <= e < |h.pub| && 0 <= i < |h.trace| :: i < h.pub[e] <==> h.trace[i].epoch < e)
    && (forall i | 0 <= i < |h.trace| :: h.trace[i].epoch <= h.epoch)
  }

  /** One instant is appended, and the next epoch is published at it or none. */
  ghost predicate Appends(h: History, g: History) {
    && |g.trace| == |h.trace| + 1 && g.trace[..|h.trace|] == h.trace
    && g.trace[|h.trace|].epoch == g.epoch
    && ((g.epoch == h.epoch && g.pub == h.pub) || (g.epoch == h.epoch + 1 && g.pub == h.pub + [|h.trace|]))
  }

  lemma StampAppends(s: State, u: State)
    requires u.h.trace == s.h.trace
    requires (u.h.epoch == s.h.epoch && u.h.pub == s.h.pub) || (u.h.epoch == s.h.epoch + 1 && u.h.pub == s.h.pub + [|s.h.trace|])
    ensures Appends(s.h, Stamp(u).h)
  {
  }

  lemma IssueAppends(s: State, c: Command)
    requires After(s.h.writer, c).Some?
    ensures Appends(s.h, Stamp(IssueCommand(s, c)).h)
  {
    StampAppends(s, IssueCommand(s, c));
  }

  lemma StepAppends(w: World, s: State, step: Step)
    requires Enabled(s, step)
    ensures Appends(s.h, Next(w, s, step).h)
  {
    match step
    case Issue(c) => IssueAppends(s, c);
    case ExecWrite(id) => StampAppends(s, RunWrite(s, id));
    case Run(id, spare) => StampAppends(s, RunTask(w, s, id, spare));
    case Fail(id, spare) => StampAppends(s, FailTask(w, s, id, spare));
    case _ => StampAppends(s, Effect(w, s, step));
  }

  lemma StepOrdered(w: World, s: State, step: Step)
    requires Inv(w, s) && Ordered(s.h) && Enabled(s, step)
    ensures Ordered(Next(w, s, step).h)
  {
    hide Next, Enabled;
    var u := Next(w, s, step);
    StepAppends(w, s, step);
    var n := |s.h.trace|;
    forall i | 0 <= i < n ensures u.h.trace[i] == s.h.trace[i] { assert u.h.trace[..n][i] == s.h.trace[i]; }
    forall e, i | 0 <= e < |u.h.pub| && 0 <= i < |u.h.trace|
      ensures i < u.h.pub[e] <==> u.h.trace[i].epoch < e
    {
      if e < |s.h.pub| { assert s.h.pub[e] < n; }
    }
  }

  lemma {:induction false} RunOrdered(w: World, s: State, steps: seq<Step>, t: State)
    requires Lossless(w) && Inv(w, s) && Ordered(s.h) && Leads(w, s, steps, t)
    ensures Ordered(t.h)
    decreases |steps|
  {
    if steps != [] {
      CacheSteps.NextKeeps(w, s, steps[0]);
      StepOrdered(w, s, steps[0]);
      RunOrdered(w, Next(w, s, steps[0]), steps[1..], t);
    }
  }

  lemma ReachableInv(w: World, t: State)
    requires Lossless(w) && Reachable(w, t)
    ensures Inv(w, t) && Ordered(t.h)
  {
    var s: State, steps: seq<Step> :| Init(s) && Leads(w, s, steps, t);
    InitInv(w, s);
    RunInv(w, s, steps, t);
    RunOrdered(w, s, steps, t);
  }

  // --------------------------------------------------------------- coherence

  /** `b` under `k` is in the shared cache, or in the local cache of some node. */
  ghost predicate Held(s: State, k: Key, b: Bytes) {
    || (k in s.store && s.store[k] == b)
    || exists n: nat :: (n, k) in s.values && s.values[(n, k)] == b
  }

  /** What an entry claims about the rows `rows`. */
  ghost predicate Claims(w: World, k: Key, b: Bytes, rows: RankingRows) {
    match k.family
    case Value => IsAnswer(w, k.suffix, rows, Found(b))
    case Gzip => IsAnswer(w, k.suffix, rows, Found(w.gunzip(b)))
    case Negative => IsAnswer(w, k.suffix, rows, NotFound)
  }

  /** Instant `p` is the one at which epoch `e` was published. */
  ghost predicate Publishes(h: History, e: nat, p: nat) {
    p < |h.trace| && h.trace[p].epoch == e && forall i | 0 <= i < p :: h.trace[i].epoch < e
  }

  /** Every entry under an epoch, on every node and in every family, is the
      endpoint's answer on the rows as they stood when that epoch was published. */
  lemma CacheIsCoherent(w: World, t: State, k: Key, b: Bytes) returns (p: nat)
    requires Lossless(w) && Reachable(w, t) && Held(t, k, b)
    ensures Publishes(t.h, k.epoch, p) && Claims(w, k, b, t.h.trace[p].rows)
  {
    ReachableInv(w, t);
    assert EntryOk(w, t.h, k, b) by {
      if k in t.store && t.store[k] == b {
      } else {
        var n: nat :| (n, k) in t.values && t.values[(n, k)] == b;
        assert EntryOk(w, t.h, (n, k).1, t.values[(n, k)]);
      }
    }
    p := t.h.pub[k.epoch];
  }

  lemma PublishedOnce(h: History, e: nat, p: nat, q: nat)
    requires Publishes(h, e, p) && Publishes(h, e, q)
    ensures p == q
  {
  }

  /** Two entries under one epoch and suffix agree wherever they are held: equal
      families hold equal bodies, a gzip entry decodes to its sibling identity
      value, and a negative entry excludes both. */
  lemma SiblingsAgree(w: World, t: State, k1: Key, b1: Bytes, k2: Key, b2: Bytes)
    requires Lossless(w) && Reachable(w, t) && Held(t, k1, b1) && Held(t, k2, b2)
    requires k1.epoch == k2.epoch && k1.suffix == k2.suffix
    ensures k1.family == Negative <==> k2.family == Negative
    ensures k1.family == Value && k2.family == Value ==> b1 == b2
    ensures k1.family == Gzip && k2.family == Value ==> w.gunzip(b1) == b2
    ensures k1.family == Gzip && k2.family == Gzip ==> w.gunzip(b1) == w.gunzip(b2)
  {
    var p1 := CacheIsCoherent(w, t, k1, b1);
    var p2 := CacheIsCoherent(w, t, k2, b2);
    PublishedOnce(t.h, k1.epoch, p1, p2);
    var rows := t.h.trace[p1].rows;
    var r1 := if k1.family == Value then Found(b1) else if k1.family == Gzip then Found(w.gunzip(b1)) else NotFound;
    var r2 := if k2.family == Value then Found(b2) else if k2.family == Gzip then Found(w.gunzip(b2)) else NotFound;
    AnswerIsUnique(w, k1.suffix, rows, r1, r2);
  }

  // ----------------------------------------------------------------- answers

  /** Bounded staleness.  An answer that carries a result is either the
      endpoint's answer on the rows of an instant at which its epoch was current
      and no update was open, or the endpoint's own run over database reads made
      inside the request's flight or a flight it joined, directly or through one
      other flight that was open at the same time. */
  lemma AnswersAreFresh(w: World, t: State, id: nat, a: Answer)
    requires Lossless(w) && Reachable(w, t) && id in t.tasks && t.tasks[id].pc == Done(a)
    requires a.outcome.Body? || a.outcome.Missing?
    ensures var r := if a.outcome.Body? then Found(Plainly(w, a.outcome.json)) else NotFound;
            match a.origin
            case Cached(at) =>
              && at < |t.h.trace| && !t.h.trace[at].dirty
              && IsAnswer(w, t.tasks[id].req.suffix, t.h.trace[at].rows, r)
            case Queried(seen, via) =>
              && SeenOk(t.h, seen)
              && w.program(t.tasks[id].req.suffix, Snapshots(t.h.trace, seen)) == Return(r)
              && Recent(t.flights, seen, via, t.tasks[id].startedAt)
  {
    ReachableInv(w, t);
    CacheSteps.TaskIn(w, t, id);
  }

  /** An identity request is never answered with gzip bytes, whether it read them
      from a cache, fetched them, or waited on somebody else's flight. */
  lemma IdentityIsPlain(w: World, t: State, id: nat, a: Answer)
    requires Lossless(w) && Reachable(w, t) && id in t.tasks && t.tasks[id].pc == Done(a)
    requires t.tasks[id].req.mode == Identity && a.outcome.Body?
    ensures a.outcome.json.encoding == Plain
    ensures var body := Found(a.outcome.json.bytes);
            match a.origin
            case Cached(at) => at < |t.h.trace| && IsAnswer(w, t.tasks[id].req.suffix, t.h.trace[at].rows, body)
            case Queried(seen, _) => SeenOk(t.h, seen) && w.program(t.tasks[id].req.suffix, Snapshots(t.h.trace, seen)) == Return(body)
  {
    ReachableInv(w, t);
    CacheSteps.TaskIn(w, t, id);
  }

  /** The rows move only inside the bracket: at every clean instant they are the
      rows that were published with that instant's epoch. */
  lemma CleanInstantsShowPublishedRows(w: World, s: State, steps: seq<Step>, t: State, i: nat)
    requires Lossless(w) && Init(s) && Leads(w, s, steps, t)
    requires i < |t.h.trace| && !t.h.trace[i].dirty
    ensures t.h.trace[i].epoch < |t.h.pub| && t.h.pub[t.h.trace[i].epoch] < |t.h.trace|
    ensures t.h.trace[i].rows == Published(t.h, t.h.trace[i].epoch)
  {
    InitInv(w, s);
    RunClean(w, s, steps, t);
  }

  ghost predicate CleanOk(h: History) {
    forall i | 0 <= i < |h.trace| && !h.trace[i].dirty ::
      CtxOk(h, Ctx(h.trace[i].epoch, i))
  }

  lemma {:induction false} RunClean(w: World, s: State, steps: seq<Step>, t: State)
    requires Lossless(w) && Inv(w, s) && CleanOk(s.h) && Leads(w, s, steps, t)
    ensures CleanOk(t.h)
    decreases |steps|
  {
    if steps != [] {
      CacheSteps.NextKeeps(w, s, steps[0]);
      StepClean(w, s, steps[0]);
      RunClean(w, Next(w, s, steps[0]), steps[1..], t);
    }
  }

  lemma StepClean(w: World, s: State, step: Step)
    requires Inv(w, s) && CleanOk(s.h) && Enabled(s, step) && Inv(w, Next(w, s, step))
    ensures CleanOk(Next(w, s, step).h)
  {
    var u := Next(w, s, step);
    StepAppends(w, s, step);
    var n := |s.h.trace|;
    forall i | 0 <= i < |u.h.trace| && !u.h.trace[i].dirty ensures CtxOk(u.h, Ctx(u.h.trace[i].epoch, i)) {
      if i < n {
        assert u.h.trace[..n][i] == s.h.trace[i];
        assert CtxOk(s.h, Ctx(s.h.trace[i].epoch, i));
        var e := s.h.trace[i].epoch;
        assert u.h.pub[e] == s.h.pub[e];
        assert u.h.trace[..n][s.h.pub[e]] == s.h.trace[s.h.pub[e]];
      }
    }
  }
}
