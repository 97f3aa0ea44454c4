/** Connection and topic counters of the realtime hub, and the topic sets of the
    connections that drive them.  A connection changes its own set first and then
    waits for the hub's lock, so that hub calls are pending for a while. */
module RealtimeHub {
  import opened RankingTables

  datatype Topic = Topic(server: string, eventId: int)
  type Counts = map<Topic, nat>

  function CountOf(counts: Counts, t: Topic): nat {
    if t in counts then counts[t] else 0
  }

  function Added(counts: Counts, t: Topic): Counts {
    counts[t := CountOf(counts, t) + 1]
  }

  function SaturatingSub(a: nat, b: nat): nat {
    if a < b then 0 else a - b
  }

  function Removed(counts: Counts, t: Topic): Counts {
    if t !in counts then counts
    else
      var next := SaturatingSub(counts[t], 1);
      if next == 0 then counts - {t} else counts[t := next]
  }

  class Hub {
    var onlineTotal: nat
    var onlineByTopic: Counts

    constructor ()
      ensures onlineTotal == 0 && onlineByTopic == map[]
    {
      onlineTotal, onlineByTopic := 0, map[];
    }

    method ConnectionOpened() returns (total: nat)
      modifies this`onlineTotal
      ensures onlineTotal == old(onlineTotal) + 1 == total
    {
      onlineTotal := onlineTotal + 1;
      total := onlineTotal;
    }

    method AddTopicSubscription(topic: Topic) returns (online: nat)
      modifies this`onlineByTopic
      ensures onlineByTopic == Added(old(onlineByTopic), topic) && online == onlineByTopic[topic]
    {
      if topic !in onlineByTopic { onlineByTopic := onlineByTopic[topic := 0]; }
      onlineByTopic := onlineByTopic[topic := onlineByTopic[topic] + 1];
      online := onlineByTopic[topic];
    }

    method RemoveTopicSubscription(topic: Topic)
      modifies this`onlineByTopic
      ensures onlineByTopic == Removed(old(onlineByTopic), topic)
    {
      if topic !in onlineByTopic { return; }
      var next := SaturatingSub(onlineByTopic[topic], 1);
      onlineByTopic := onlineByTopic[topic := next];
      if next == 0 { onlineByTopic := onlineByTopic - {topic}; }
    }

    /** Closing counts the connection out at once and its topics one by one. */
    method ConnectionClosed(topics: seq<Topic>)
      requires onlineTotal > 0
      modifies this
      ensures onlineTotal == old(onlineTotal) - 1
      ensures onlineByTopic == RemovedAll(old(onlineByTopic), topics)
    {
      onlineTotal := onlineTotal - 1;
      for i := 0 to |topics|
        invariant onlineTotal == old(onlineTotal) - 1
        invariant onlineByTopic == RemovedAll(old(onlineByTopic), topics[..i])
      {
        assert topics[..i + 1][..i] == topics[..i];
        RemoveTopicSubscription(topics[i]);
      }
      assert topics[..|topics|] == topics;
    }
  }

  function RemovedAll(counts: Counts, topics: seq<Topic>): Counts {
    if topics == [] then counts else Removed(RemovedAll(counts, topics[..|topics| - 1]), topics[|topics| - 1])
  }

  // -------------------------------------------------------------- connections

  datatype Call = Add(topic: Topic) | Remove(topic: Topic)

  /** A connection: the topics it holds and its hub calls that wait for the lock. */
  datatype Connection = Connection(open: bool, topics: set<Topic>, pending: seq<Call>)

  datatype State = State(connections: map<nat, Connection>, total: nat, counts: Counts)

  datatype Step =
    | Open(c: nat)
    | Subscribe(c: nat, topic: Topic)
    | Unsubscribe(c: nat, topic: Topic)
    | Close(c: nat, order: seq<Topic>)       // the set's iteration order
    | Run(c: nat)                            // the first pending call gets the lock

  ghost predicate Init(s: State) {
    s == State(map[], 0, map[])
  }

  ghost predicate Lists(order: seq<Topic>, topics: set<Topic>) {
    && (forall t :: t in order <==> t in topics)
    && (forall i, j | 0 <= i < j < |order| :: order[i] != order[j])
  }

  /** A connection handles one message at a time: its calls are done before the next. */
  ghost predicate Ready(s: State, c: nat) {
    c in s.connections && s.connections[c].open && s.connections[c].pending == []
  }

  ghost predicate Enabled(s: State, step: Step) {
    match step
    case Open(c) => c !in s.connections
    case Subscribe(c, _) => Ready(s, c)
    case Unsubscribe(c, _) => Ready(s, c)
    case Close(c, order) => Ready(s, c) && Lists(order, s.connections[c].topics) && s.total > 0
    case Run(c) => c in s.connections && s.connections[c].pending != []
  }

  function Removals(order: seq<Topic>): (r: seq<Call>)
    ensures |r| == |order| && forall i | 0 <= i < |r| :: r[i] == Remove(order[i])
  {
    seq(|order|, i requires 0 <= i < |order| => Remove(order[i]))
  }

  function Put(s: State, c: nat, x: Connection): State {
    s.(connections := s.connections[c := x])
  }

  ghost function Next(s: State, step: Step): State
    requires Enabled(s, step)
  {
    match step
    case Open(c) => Put(s, c, Connection(true, {}, [])).(total := s.total + 1)
    case Subscribe(c, t) =>
      var x := s.connections[c];
      if t in x.topics then s else Put(s, c, x.(topics := x.topics + {t}, pending := [Add(t)]))
    case Unsubscribe(c, t) =>
      var x := s.connections[c];
      if t !in x.topics then s else Put(s, c, x.(topics := x.topics - {t}, pending := [Remove(t)]))
    case Close(c, order) => Put(s, c, Connection(false, {}, Removals(order))).(total := s.total - 1)
    case Run(c) =>
      var x := s.connections[c];
      var call := x.pending[0];
      Put(s, c, x.(pending := x.pending[1..]))
        .(counts := if call.Add? then Added(s.counts, call.topic) else Removed(s.counts, call.topic))
  }

  // ---------------------------------------------------------------- invariant

  /** The hub counts this connection under `t`. */
  predicate Registered(x: Connection, t: Topic) {
    (t in x.topics && Add(t) !in x.pending) || Remove(t) in x.pending
  }

  predicate WellFormed(x: Connection) {
    && (x.open ==> |x.pending| <= 1)
    && (!x.open ==> x.topics == {} && forall i | 0 <= i < |x.pending| :: x.pending[i].Remove?)
    && (forall i | 0 <= i < |x.pending| :: x.pending[i].Add? ==> x.pending[i].topic in x.topics)
    && (forall i | 0 <= i < |x.pending| :: x.pending[i].Remove? ==> x.pending[i].topic !in x.topics)
    && (forall i, j | 0 <= i < j < |x.pending| :: x.pending[i] != x.pending[j])
  }

  function Holders(s: State, t: Topic): set<nat> {
    set c | c in s.connections && Registered(s.connections[c], t)
  }

  function OpenOnes(s: State): set<nat> {
    set c | c in s.connections && s.connections[c].open
  }

  ghost predicate Inv(s: State) {
    && (forall c | c in s.connections :: WellFormed(s.connections[c]))
    && s.total == |OpenOnes(s)|
    && (forall t :: CountOf(s.counts, t) == |Holders(s, t)|)
    && (forall t | t in s.counts :: s.counts[t] > 0)
  }

  lemma SizeWithOrWithout(h: set<nat>, c: nat)
    ensures |h + {c}| == |h| + (if c in h then 0 else 1)
    ensures |h - {c}| == |h| - (if c in h then 1 else 0)
  {
    if c in h { assert h + {c} == h; assert h == (h - {c}) + {c}; } else { assert h - {c} == h; }
  }

  lemma SameHolders(s: State, u: State, c: nat, t: Topic)
    requires c in u.connections && (forall d | d != c :: (d in s.connections <==> d in u.connections))
    requires forall d | d != c && d in s.connections :: u.connections[d] == s.connections[d]
    ensures var was := c in s.connections && Registered(s.connections[c], t);
            var now := Registered(u.connections[c], t);
            && Holders(u, t) == (if now then Holders(s, t) + {c} else Holders(s, t) - {c})
            && |Holders(u, t)| == |Holders(s, t)| + (if now then 1 else 0) - (if was then 1 else 0)
  {
    assert Holders(u, t) == if Registered(u.connections[c], t) then Holders(s, t) + {c} else Holders(s, t) - {c};
    SizeWithOrWithout(Holders(s, t), c);
  }

  lemma SameOpen(s: State, u: State, c: nat)
    requires c in u.connections && (forall d | d != c :: (d in s.connections <==> d in u.connections))
    requires forall d | d != c && d in s.connections :: u.connections[d] == s.connections[d]
    ensures var was := c in s.connections && s.connections[c].open;
            |OpenOnes(u)| == |OpenOnes(s)| + (if u.connections[c].open then 1 else 0) - (if was then 1 else 0)
  {
    forall d ensures d in OpenOnes(u) <==> if d == c then u.connections[c].open else d in OpenOnes(s) {}
    assert OpenOnes(u) == if u.connections[c].open then OpenOnes(s) + {c} else OpenOnes(s) - {c};
    SizeWithOrWithout(OpenOnes(s), c);
  }

  /** What a step does to whether the hub should count `c` under `t`. */
  lemma StepRegistered(s: State, step: Step, t: Topic)
    requires Enabled(s, step) && (step.c in s.connections ==> WellFormed(s.connections[step.c]))
    ensures var u := Next(s, step); var c := step.c;
            && c in u.connections && WellFormed(u.connections[c])
            && (var was := c in s.connections && Registered(s.connections[c], t);
                var now := Registered(u.connections[c], t);
                if step.Run? && s.connections[c].pending[0].topic == t then
                  (if s.connections[c].pending[0].Add? then !was && now else was && !now)
                else was == now)
  {
    match step
    case Open(c) =>
    case Subscribe(c, topic) =>
    case Unsubscribe(c, topic) =>
    case Close(c, order) =>
      if t in s.connections[c].topics {
        var i :| 0 <= i < |order| && order[i] == t;
        assert Removals(order)[i] == Remove(t);
      }
    case Run(c) =>
      var x := s.connections[c];
      assert x.pending == [x.pending[0]] + x.pending[1..];
  }

  lemma StepKeeps(s: State, step: Step)
    requires Inv(s) && Enabled(s, step)
    ensures Inv(Next(s, step))
  {
    hide WellFormed, Registered, Holders, OpenOnes, Added, Removed;
    var u := Next(s, step);
    var c := step.c;
    SameOpenStep(s, step);
    assert forall t | t in u.counts :: u.counts[t] > 0 by { NoZeroEntries(s, step); }
    forall t ensures CountOf(u.counts, t) == |Holders(u, t)| {
      StepRegistered(s, step, t);
      SameHolders(s, u, c, t);
      if step.Run? { CountsStep(s, step, t); }
    }
    forall d | d in u.connections ensures WellFormed(u.connections[d]) {
      if d == c { StepRegistered(s, step, Topic("", 0)); }
    }
  }

  lemma NoZeroEntries(s: State, step: Step)
    requires Enabled(s, step) && forall t | t in s.counts :: s.counts[t] > 0
    ensures forall t | t in Next(s, step).counts :: Next(s, step).counts[t] > 0
  {
  }

  lemma SameOpenStep(s: State, step: Step)
    requires Inv(s) && Enabled(s, step)
    ensures Next(s, step).total == |OpenOnes(Next(s, step))|
  {
    SameOpen(s, Next(s, step), step.c);
  }

  /** A call moves the count it is about by one, and no other. */
  lemma CountsStep(s: State, step: Step, t: Topic)
    requires Inv(s) && Enabled(s, step) && step.Run?
    ensures var call := s.connections[step.c].pending[0]; var u := Next(s, step);
            && (call.Add? ==> CountOf(u.counts, t) == CountOf(s.counts, t) + (if call.topic == t then 1 else 0))
            && (call.Remove? ==> CountOf(s.counts, call.topic) >= 1)
            && (call.Remove? ==> CountOf(u.counts, t) == CountOf(s.counts, t) - (if call.topic == t then 1 else 0))
  {
    var x := s.connections[step.c];
    var call := x.pending[0];
    if call.Remove? {
      assert Registered(x, call.topic) by { assert call in x.pending; }
      assert step.c in Holders(s, call.topic);
    }
  }

  // --------------------------------------------------------------------- runs

  ghost predicate Leads(s: State, steps: seq<Step>, u: State)
    decreases |steps|
  {
    if steps == [] then s == u else Enabled(s, steps[0]) && Leads(Next(s, steps[0]), steps[1..], u)
  }

  ghost predicate Reachable(u: State) {
    exists s, steps :: Init(s) && Leads(s, steps, u)
  }

  lemma {:induction false} RunInv(s: State, steps: seq<Step>, u: State)
    requires Inv(s) && Leads(s, steps, u)
    ensures Inv(u)
    decreases |steps|
  {
    hide Inv;
    if steps != [] {
      StepKeeps(s, steps[0]);
      RunInv(Next(s, steps[0]), steps[1..], u);
    }
  }

  lemma ReachableInv(u: State)
    requires Reachable(u)
    ensures Inv(u)
  {
    var s, steps :| Init(s) && Leads(s, steps, u);
    assert Inv(s) by { assert OpenOnes(s) == {}; forall t ensures Holders(s, t) == {} {} }
    RunInv(s, steps, u);
  }

  /** Over every interleaving: the total is the number of open connections; each
      topic's count is the number of connections registered under it, which, when no
      hub call is pending, is the number of connections that hold it; and there are
      no zero entries. */
  lemma CountsAreExact(s: State, t: Topic)
    requires Reachable(s)
    ensures s.total == |OpenOnes(s)|
    ensures CountOf(s.counts, t) == |Holders(s, t)|
    ensures (forall c | c in s.connections :: s.connections[c].pending == []) ==>
              CountOf(s.counts, t) == |set c | c in s.connections && t in s.connections[c].topics|
    ensures t in s.counts ==> s.counts[t] > 0
  {
    ReachableInv(s);
    if forall c | c in s.connections :: s.connections[c].pending == [] {
      assert Holders(s, t) == set c | c in s.connections && t in s.connections[c].topics;
    }
  }

  /** A removal always finds its entry, and its saturating subtraction never
      saturates; closing never takes the total below zero. */
  lemma NeverSaturates(s: State, c: nat)
    requires Reachable(s) && c in s.connections
    ensures var x := s.connections[c];
            && (x.pending != [] && x.pending[0].Remove? ==>
                  x.pending[0].topic in s.counts && s.counts[x.pending[0].topic] >= 1)
            && (x.open ==> s.total >= 1)
  {
    ReachableInv(s);
    var x := s.connections[c];
    if x.pending != [] && x.pending[0].Remove? { CountsStep(s, Run(c), x.pending[0].topic); }
    if x.open { assert c in OpenOnes(s); }
  }
}
