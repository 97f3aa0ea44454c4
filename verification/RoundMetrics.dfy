/** Round metrics of a rank, computed from a user's trace. */
module RoundMetrics {
  import opened RankingTables

  datatype Sample = Sample(score: int, timestamp: int)

  const LOOKBACK_SECONDS: int := 12 * 60 * 60
  const RECOVERY_IDLE_SECONDS: int := 5 * 60
  const TAIL_MAX_LAG_SECONDS: int := 30 * 24 * 60 * 60
  const MILLISECONDS_FROM: int := 1_000_000_000_000

  /** Timestamps may be in seconds or, above the bound, in milliseconds. */
  function Seconds(timestamp: int): int {
    if timestamp > MILLISECONDS_FROM then timestamp / 1000 else timestamp
  }

  function Milliseconds(timestamp: int): int {
    if timestamp > MILLISECONDS_FROM then timestamp else timestamp * 1000
  }

  /** The two conversions agree on what second a positive timestamp is in. */
  lemma ConversionsAgree(timestamp: int)
    requires timestamp > 0
    ensures Seconds(timestamp) * 1000 <= Milliseconds(timestamp) < Seconds(timestamp) * 1000 + 1000
  {
  }

  function WindowEnd(last: int, now: int): int {
    var sec := Seconds(last);
    if sec <= 0 then sec
    else if now <= sec || now - sec > TAIL_MAX_LAG_SECONDS then sec
    else now
  }

  ghost predicate Sorted(s: seq<Sample>) {
    forall i, j | 0 <= i < j < |s| :: Seconds(s[i].timestamp) <= Seconds(s[j].timestamp)
  }

  ghost predicate NonDecreasing(s: seq<Sample>) {
    forall i, j | 0 <= i < j < |s| :: s[i].score <= s[j].score
  }

  // ---------------------------------------------------------------- baselines

  /** Where the leading samples at or before `start` end. */
  ghost predicate Cut(s: seq<Sample>, start: int, n: nat) {
    && n <= |s|
    && (forall k | 0 <= k < n :: Seconds(s[k].timestamp) <= start)
    && (n < |s| ==> Seconds(s[n].timestamp) > start)
  }

  method FindWindowBaselineIndex(s: seq<Sample>, start: int) returns (r: Option<nat>)
    ensures r.None? <==> s == []
    ensures r.Some? ==> exists n: nat :: Cut(s, start, n) && r.value == if n == 0 then 0 else n - 1
  {
    if s == [] { return None; }
    var baseline: Option<nat> := None;
    var i := 0;
    while i < |s| && Seconds(s[i].timestamp) <= start
      invariant 0 <= i <= |s|
      invariant forall k | 0 <= k < i :: Seconds(s[k].timestamp) <= start
      invariant baseline == if i == 0 then None else Some(i - 1)
    {
      baseline := Some(i);
      i := i + 1;
    }
    assert Cut(s, start, i);
    r := Some(if baseline.Some? then baseline.value else 0);
  }

  /** The baseline: the last sample at or before `start`, or else the first one. */
  ghost predicate IsBaseline(s: seq<Sample>, start: int, b: nat) {
    && b < |s|
    && (forall k | b < k < |s| :: Seconds(s[k].timestamp) > start)
    && (Seconds(s[b].timestamp) <= start || b == 0)
  }

  lemma CutIsBaseline(s: seq<Sample>, start: int, n: nat)
    requires Sorted(s) && s != [] && Cut(s, start, n)
    ensures IsBaseline(s, start, if n == 0 then 0 else n - 1)
  {
  }

  lemma BaselineIsUnique(s: seq<Sample>, start: int, a: nat, b: nat)
    requires IsBaseline(s, start, a) && IsBaseline(s, start, b)
    ensures a == b
  {
  }

  /** Trimming the trace to a longer window first does not move a baseline. */
  lemma TrimKeepsBaseline(s: seq<Sample>, far: int, near: int, a: nat, b: nat)
    requires Sorted(s) && far <= near
    requires IsBaseline(s, far, a) && IsBaseline(s[a..], near, b)
    ensures IsBaseline(s, near, a + b)
  {
    forall k | a + b < k < |s| ensures Seconds(s[k].timestamp) > near { assert s[a..][k - a] == s[k]; }
    assert s[a..][b] == s[a + b];
  }

  /** A nearer window has a later baseline. */
  lemma BaselinesAreOrdered(s: seq<Sample>, far: int, near: int, a: nat, b: nat)
    requires Sorted(s) && far <= near && IsBaseline(s, far, a) && IsBaseline(s, near, b)
    ensures a <= b
  {
  }

  // -------------------------------------------------------------------- gains

  function Deltas(s: seq<Sample>): (d: seq<int>)
    ensures |d| == if |s| == 0 then 0 else |s| - 1
    ensures forall k | 0 <= k < |d| :: d[k] == s[k + 1].score - s[k].score
  {
    if |s| == 0 then [] else seq(|s| - 1, k requires 0 <= k < |s| - 1 => s[k + 1].score - s[k].score)
  }

  function Sum(q: seq<int>): int {
    if q == [] then 0 else Sum(q[..|q| - 1]) + q[|q| - 1]
  }

  /** The gain over a window is the sum of the steps within it. */
  lemma GainTelescopes(s: seq<Sample>)
    requires s != []
    ensures s[|s| - 1].score - s[0].score == Sum(Deltas(s))
  {
    SumOfFirst(s, |s| - 1);
    assert Deltas(s)[..|s| - 1] == Deltas(s);
  }

  lemma {:induction false} SumOfFirst(s: seq<Sample>, n: nat)
    requires n < |s|
    ensures Sum(Deltas(s)[..n]) == s[n].score - s[0].score
  {
    if n > 0 {
      SumOfFirst(s, n - 1);
      assert Deltas(s)[..n][..n - 1] == Deltas(s)[..n - 1];
    }
  }

  function Max0(x: int): (r: int)
    ensures r >= 0
  {
    if x < 0 then 0 else x
  }

  /** On a trace whose score never falls the clamp never bites, the gain is the sum
      of the steps, and the twenty-minute gain is part of the hour's. */
  lemma GainsAreNested(s: seq<Sample>, end: int, hour: nat, window: nat)
    requires Sorted(s) && NonDecreasing(s)
    requires IsBaseline(s, end - 60 * 60, hour) && IsBaseline(s, end - 20 * 60, window)
    ensures Max0(s[|s| - 1].score - s[hour].score) == Sum(Deltas(s[hour..]))
    ensures Max0(s[|s| - 1].score - s[window].score) == Sum(Deltas(s[window..])) <= Sum(Deltas(s[hour..]))
  {
    GainTelescopes(s[hour..]);
    GainTelescopes(s[window..]);
    BaselinesAreOrdered(s, end - 60 * 60, end - 20 * 60, hour, window);
  }

  // ----------------------------------------------------------- positive deltas

  /** The positive steps, in order. */
  function Rises(s: seq<Sample>): (d: seq<int>)
    ensures forall x | x in d :: x > 0
  {
    if |s| < 2 then []
    else
      var rest := Rises(s[..|s| - 1]);
      var diff := s[|s| - 1].score - s[|s| - 2].score;
      if diff > 0 then rest + [diff] else rest
  }

  method PositiveDeltas(s: seq<Sample>) returns (d: seq<int>)
    ensures d == Rises(s)
  {
    d := [];
    if |s| < 2 { return; }
    for i := 1 to |s|
      invariant d == Rises(s[..i])
    {
      assert s[..i + 1][..i] == s[..i];
      var diff := s[i].score - s[i - 1].score;
      if diff > 0 { d := d + [diff]; }
    }
    assert s[..|s|] == s;
  }

  method CountPositiveDeltas(s: seq<Sample>) returns (n: nat)
    ensures n == |Rises(s)|
  {
    var d := PositiveDeltas(s);
    n := |d|;
  }

  /** The last ten, or all of them. */
  function Recent(d: seq<int>): (r: seq<int>)
    ensures |r| <= 10 && (d != [] ==> r != [])
  {
    if |d| > 10 then d[|d| - 10..] else d
  }

  lemma {:induction false} SumBetween(q: seq<int>, lo: int, hi: int)
    requires forall k | 0 <= k < |q| :: lo <= q[k] <= hi
    ensures lo * |q| <= Sum(q) <= hi * |q|
  {
    if q != [] {
      var n := |q| - 1;
      SumBetween(q[..n], lo, hi);
      assert lo * |q| == lo * n + lo && hi * |q| == hi * n + hi;
    }
  }

  lemma Multiples(a: int, b: int, n: nat)
    requires a <= b
    ensures a * n <= b * n
  {
  }

  lemma QuotientBetween(sum: int, n: nat, lo: int, hi: int)
    requires n > 0 && lo * n <= sum <= hi * n
    ensures lo <= sum / n <= hi
  {
    var q := sum / n;
    assert q * n <= sum < q * n + n;
    if q < lo { Multiples(q + 1, lo, n); }
    if q > hi { Multiples(hi + 1, q, n); }
  }

  /** The average lies between the least and the greatest of the averaged steps. */
  lemma AverageIsBetween(q: seq<int>, lo: int, hi: int)
    requires q != [] && forall k | 0 <= k < |q| :: lo <= q[k] <= hi
    ensures lo <= Sum(q) / |q| <= hi
  {
    SumBetween(q, lo, hi);
    QuotientBetween(Sum(q), |q|, lo, hi);
  }

  // ------------------------------------------------------------------ recovery

  /** Samples i..j, at least two, form a maximal run of one score before the rise at j + 1. */
  ghost predicate FlatRun(s: seq<Sample>, i: nat, j: nat) {
    && i < j < |s|
    && (forall k | i <= k <= j :: s[k].score == s[i].score)
    && (i > 0 ==> s[i - 1].score != s[i].score)
  }

  /** Sample `j` rises out of a flat run that began at least the idle time before. */
  ghost predicate IsRecovery(s: seq<Sample>, j: nat) {
    && 0 < j < |s| && s[j].score > s[j - 1].score
    && exists i: nat :: FlatRun(s, i, j - 1) && Seconds(s[j].timestamp) - Seconds(s[i].timestamp) >= RECOVERY_IDLE_SECONDS
  }

  /** The time of the last recovery before `n`, or of the first sample. */
  ghost predicate RecoveryTime(s: seq<Sample>, n: nat, t: int)
    requires 0 < n <= |s|
  {
    || (exists j: nat :: j < n && IsRecovery(s, j) && t == s[j].timestamp && forall k | j < k < n :: !IsRecovery(s, k))
    || (t == s[0].timestamp && forall k | 0 <= k < n :: !IsRecovery(s, k))
  }

  /** `i` is where the run of equal scores that contains `j` begins. */
  ghost predicate RunStart(s: seq<Sample>, i: nat, j: nat) {
    && i <= j < |s|
    && (forall k | i <= k <= j :: s[k].score == s[i].score)
    && (i > 0 ==> s[i - 1].score != s[i].score)
  }

  lemma FlatRunIsRunStart(s: seq<Sample>, i: nat, j: nat)
    requires RunStart(s, i, j)
    ensures forall h: nat | FlatRun(s, h, j) :: h == i
    ensures i < j ==> FlatRun(s, i, j)
  {
    forall h: nat | FlatRun(s, h, j) ensures h == i {
    }
  }

  /** What the loop tests is the declarative condition. */
  lemma RecoveryTest(s: seq<Sample>, start: nat, i: nat)
    requires 0 < i < |s| && RunStart(s, start, i - 1)
    ensures IsRecovery(s, i) <==>
            s[i].score > s[i - 1].score && start < i - 1 && Seconds(s[i].timestamp) - Seconds(s[start].timestamp) >= RECOVERY_IDLE_SECONDS
  {
    FlatRunIsRunStart(s, start, i - 1);
  }

  lemma RecoveryTimeStep(s: seq<Sample>, i: nat, t: int)
    requires 0 < i < |s| && RecoveryTime(s, i, t)
    ensures RecoveryTime(s, i + 1, if IsRecovery(s, i) then s[i].timestamp else t)
  {
    hide IsRecovery;
  }

  lemma RunStartStep(s: seq<Sample>, start: nat, i: nat)
    requires 0 < i < |s| && RunStart(s, start, i - 1)
    ensures RunStart(s, if s[i].score == s[i - 1].score then start else i, i)
  {
  }

  method RecoveryRecordStartAt(s: seq<Sample>) returns (r: Option<int>)
    ensures r.None? <==> s == []
    ensures r.Some? ==> RecoveryTime(s, |s|, r.value)
  {
    if s == [] { return None; }
    var latestRecovery := s[0].timestamp;
    var flatStart := s[0];
    var inFlat := false;
    ghost var start: nat := 0;
    var i := 1;
    assert RecoveryTime(s, 1, latestRecovery) && RunStart(s, 0, 0);
    hide RecoveryTime, IsRecovery, RunStart;
    while i < |s|
      invariant 1 <= i <= |s| && start < i
      invariant RunStart(s, start, i - 1) && flatStart == s[start] && (inFlat <==> start < i - 1)
      invariant RecoveryTime(s, i, latestRecovery)
    {
      var previous := s[i - 1];
      var current := s[i];
      RecoveryTest(s, start, i);
      RecoveryTimeStep(s, i, latestRecovery);
      RunStartStep(s, start, i);
      if current.score == previous.score {
        inFlat := true;
      } else if current.score > previous.score {
        var idle := Seconds(current.timestamp) - Seconds(flatStart.timestamp);
        if inFlat && idle >= RECOVERY_IDLE_SECONDS { latestRecovery := current.timestamp; }
        flatStart, inFlat, start := current, false, i;
      } else {
        flatStart, inFlat, start := current, false, i;
      }
      i := i + 1;
    }
    r := Some(latestRecovery);
  }

  // ---------------------------------------------------------------- stable sort

  function Placed(s: seq<Sample>, x: Sample): seq<Sample> {
    if s == [] || Seconds(s[|s| - 1].timestamp) <= Seconds(x.timestamp) then s + [x]
    else Placed(s[..|s| - 1], x) + [s[|s| - 1]]
  }

  function StableSort(trace: seq<Sample>): seq<Sample> {
    if trace == [] then [] else Placed(StableSort(trace[..|trace| - 1]), trace[|trace| - 1])
  }

  function AtSecond(s: seq<Sample>, sec: int): seq<Sample> {
    if s == [] then []
    else
      var rest := AtSecond(s[..|s| - 1], sec);
      if Seconds(s[|s| - 1].timestamp) == sec then rest + [s[|s| - 1]] else rest
  }

  lemma {:induction false} PlacedIsSorted(s: seq<Sample>, x: Sample, sec: int)
    requires Sorted(s)
    ensures Sorted(Placed(s, x)) && |Placed(s, x)| == |s| + 1
    ensures forall k | 0 <= k < |s| + 1 :: Placed(s, x)[k] in s || Placed(s, x)[k] == x
    ensures AtSecond(Placed(s, x), sec) == if Seconds(x.timestamp) == sec then AtSecond(s, sec) + [x] else AtSecond(s, sec)
  {
    var r := Placed(s, x);
    if s == [] || Seconds(s[|s| - 1].timestamp) <= Seconds(x.timestamp) {
      assert r[..|s|] == s;
    } else {
      var init := s[..|s| - 1];
      PlacedIsSorted(init, x, sec);
      assert r[..|s|] == Placed(init, x);
    }
  }

  /** The sort is a sort, and stable: samples of one second keep their order. */
  lemma {:induction false} SortIsStable(trace: seq<Sample>, sec: int)
    ensures Sorted(StableSort(trace)) && |StableSort(trace)| == |trace|
    ensures AtSecond(StableSort(trace), sec) == AtSecond(trace, sec)
  {
    if trace != [] {
      SortIsStable(trace[..|trace| - 1], sec);
      PlacedIsSorted(StableSort(trace[..|trace| - 1]), trace[|trace| - 1], sec);
    }
  }

  function Positive(trace: seq<Sample>): seq<Sample> {
    if trace == [] then []
    else
      var rest := Positive(trace[..|trace| - 1]);
      if trace[|trace| - 1].timestamp > 0 then rest + [trace[|trace| - 1]] else rest
  }

  method Prepare(trace: seq<Sample>) returns (samples: seq<Sample>)
    ensures samples == StableSort(Positive(trace))
  {
    var kept := [];
    for i := 0 to |trace|
      invariant kept == Positive(trace[..i])
    {
      assert trace[..i + 1][..i] == trace[..i];
      if trace[i].timestamp > 0 { kept := kept + [trace[i]]; }
    }
    assert trace[..|trace|] == trace;
    samples := [];
    for i := 0 to |kept|
      invariant samples == StableSort(kept[..i])
    {
      assert kept[..i + 1][..i] == kept[..i];
      samples := Placed(samples, kept[i]);
    }
    assert kept[..|kept|] == kept;
  }

  // -------------------------------------------------------------------- metrics

  function PerHour(gain: int, elapsed: int): (speed: int)
    requires gain >= 0 && elapsed > 0
    ensures speed * elapsed <= gain * 3600 < (speed + 1) * elapsed
  {
    gain * 3600 / elapsed
  }

  lemma SuffixIsSorted(s: seq<Sample>, from: nat)
    requires Sorted(s) && from <= |s|
    ensures Sorted(s[from..]) && forall k | 0 <= k < |s| - from :: s[from..][k] == s[from + k]
  {
  }

  /** Which steps the latest and average points come from. */
  ghost predicate PointsOf(s: seq<Sample>, latest: Option<int>, rounds: Option<int>, average: Option<int>) {
    var d := Rises(s);
    && d != []
    && latest == Some(d[|d| - 1])
    && rounds == Some(|Recent(d)|)
    && average == Some(Sum(Recent(d)) / |Recent(d)|)
  }

  /** The hour's speed and round count, from the baseline of the whole trace; the
      speed is left alone when no time has passed since the baseline. */
  ghost predicate HourOf(s: seq<Sample>, end: int, was: Option<int>, speed: Option<int>, rounds: Option<int>, hour: nat) {
    && IsBaseline(s, end - 60 * 60, hour)
    && rounds == Some(|Rises(s[hour..])|)
    && speed == if end > Seconds(s[hour].timestamp)
                then Some(PerHour(Max0(s[|s| - 1].score - s[hour].score), end - Seconds(s[hour].timestamp)))
                else was
  }

  /** Three times the twenty-minute gain, from the baseline of the whole trace. */
  ghost predicate WindowOf(s: seq<Sample>, end: int, min20: Option<int>, window: nat) {
    && IsBaseline(s, end - 20 * 60, window)
    && min20 == Some(Max0(s[|s| - 1].score - s[window].score) * 3)
  }

  class RankInfo {
    var recordStartAt: Option<int>
    var latestPt: Option<int>
    var averageRound: Option<int>
    var averagePt: Option<int>
    var speed: Option<int>
    var hourRound: Option<int>
    var min20Times3Speed: Option<int>

    method ApplyPoints(s: seq<Sample>)
      modifies this`latestPt, this`averageRound, this`averagePt
      ensures if Rises(s) == [] then latestPt == old(latestPt) && averageRound == old(averageRound) && averagePt == old(averagePt)
              else PointsOf(s, latestPt, averageRound, averagePt)
    {
      var deltas := PositiveDeltas(s);
      if deltas != [] {
        latestPt := Some(deltas[|deltas| - 1]);
        var averaged := Recent(deltas);
        var sum := 0;
        for i := 0 to |averaged|
          invariant sum == Sum(averaged[..i])
        {
          assert averaged[..i + 1][..i] == averaged[..i];
          sum := sum + averaged[i];
        }
        assert averaged[..|averaged|] == averaged;
        averageRound := Some(|averaged|);
        averagePt := Some(sum / |averaged|);
      }
    }

    /** The window metrics, over the trace trimmed to the last twelve hours. */
    method ApplyWindows(s: seq<Sample>, end: int) returns (ghost far: nat, ghost hour: nat, ghost window: nat)
      requires |s| >= 2 && Sorted(s)
      modifies this`speed, this`hourRound, this`min20Times3Speed
      ensures IsBaseline(s, end - LOOKBACK_SECONDS, far)
      ensures |s| - far < 2 ==> speed == old(speed) && hourRound == old(hourRound) && min20Times3Speed == old(min20Times3Speed)
      ensures |s| - far >= 2 ==> HourOf(s, end, old(speed), speed, hourRound, hour) && WindowOf(s, end, min20Times3Speed, window)
    {
      hide IsBaseline, Sorted, HourOf, WindowOf;
      hour, window := 0, 0;
      var start := FindBaseline(s, end - LOOKBACK_SECONDS);
      far := start;
      if |s| - start < 2 { return; }
      hour := ApplyHour(s, start, end);
      window := ApplyTwentyMinutes(s, start, end);
    }

    method ApplyHour(s: seq<Sample>, start: nat, end: int) returns (ghost hour: nat)
      requires start < |s| && Sorted(s) && IsBaseline(s, end - LOOKBACK_SECONDS, start)
      modifies this`speed, this`hourRound
      ensures HourOf(s, end, old(speed), speed, hourRound, hour)
    {
      hide IsBaseline, Sorted, Rises, Seconds, PerHour, Max0;
      var metric := s[start..];
      assert Sorted(metric) by { SuffixIsSorted(s, start); }
      var idx := FindBaseline(metric, end - 60 * 60);
      TrimKeepsBaseline(s, end - LOOKBACK_SECONDS, end - 60 * 60, start, idx);
      hour := start + idx;
      assert metric[idx] == s[hour];
      var base := metric[idx];
      if end > Seconds(base.timestamp) {
        speed := Some(PerHour(Max0(s[|s| - 1].score - base.score), end - Seconds(base.timestamp)));
      }
      assert metric[idx..] == s[hour..];
      var rounds := CountPositiveDeltas(metric[idx..]);
      hourRound := Some(rounds);
    }

    method ApplyTwentyMinutes(s: seq<Sample>, start: nat, end: int) returns (ghost window: nat)
      requires start < |s| && Sorted(s) && IsBaseline(s, end - LOOKBACK_SECONDS, start)
      modifies this`min20Times3Speed
      ensures WindowOf(s, end, min20Times3Speed, window)
    {
      hide IsBaseline, Sorted, Seconds, Max0;
      var metric := s[start..];
      assert Sorted(metric) by { SuffixIsSorted(s, start); }
      var idx := FindBaseline(metric, end - 20 * 60);
      TrimKeepsBaseline(s, end - LOOKBACK_SECONDS, end - 20 * 60, start, idx);
      window := start + idx;
      min20Times3Speed := Some(Max0(s[|s| - 1].score - metric[idx].score) * 3);
    }

    static method FindBaseline(s: seq<Sample>, start: int) returns (b: nat)
      requires s != [] && Sorted(s)
      ensures IsBaseline(s, start, b) && b < |s|
    {
      var found := FindWindowBaselineIndex(s, start);
      ghost var n: nat :| Cut(s, start, n) && found.value == if n == 0 then 0 else n - 1;
      CutIsBaseline(s, start, n);
      b := found.value;
    }

    method ApplyTraceMetrics(trace: seq<Sample>, now: int) returns (ghost far: nat, ghost hour: nat, ghost window: nat)
      modifies this
      ensures var s := StableSort(Positive(trace));
              if |s| < 2 then
                recordStartAt == old(recordStartAt) && latestPt == old(latestPt) && averageRound == old(averageRound) && averagePt == old(averagePt)
                && speed == old(speed) && hourRound == old(hourRound) && min20Times3Speed == old(min20Times3Speed)
              else
                var end := WindowEnd(s[|s| - 1].timestamp, now);
                && (exists t :: RecoveryTime(s, |s|, t) && recordStartAt == Some(Milliseconds(t)))
                && (if Rises(s) == [] then latestPt == old(latestPt) && averageRound == old(averageRound) && averagePt == old(averagePt)
                    else PointsOf(s, latestPt, averageRound, averagePt))
                && IsBaseline(s, end - LOOKBACK_SECONDS, far)
                && (if |s| - far < 2 then speed == old(speed) && hourRound == old(hourRound) && min20Times3Speed == old(min20Times3Speed)
                    else HourOf(s, end, old(speed), speed, hourRound, hour) && WindowOf(s, end, min20Times3Speed, window))
    {
      hide StableSort, Positive, RecoveryTime, PointsOf, HourOf, WindowOf, IsBaseline, Rises;
      far, hour, window := 0, 0, 0;
      var s := Prepare(trace);
      SortIsStable(Positive(trace), 0);
      if |s| < 2 { return; }
      var t := RecoveryRecordStartAt(s);
      if t.Some? { recordStartAt := Some(Milliseconds(t.value)); }
      ApplyPoints(s);
      far, hour, window := ApplyWindows(s, WindowEnd(s[|s| - 1].timestamp, now));
    }
  }
}
