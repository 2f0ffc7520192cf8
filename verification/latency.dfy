/** The latency recorder, called by any number of threads at once: every call is a sequence of atomic steps, and the
    steps of different calls interleave in any order. */
module Latency {

  const MAX_SAMPLES := 1000

  /** Where a call is.  `seen` is the value its compare-and-swap expects; `Drawn` has chosen the sample to replace. */
  datatype Place =
    | Begin
    | ReadSum
    | SwapSum(seen: real)
    | ReadMax
    | SwapMax(seen: real)
    | WantLock
    | Locked
    | Drawn(idx: nat)
    | Finished

  datatype Call = Call(latency: real, at: Place)

  datatype Stats = Stats(count: nat, sum: real, max: real, samples: seq<real>, holder: int, calls: seq<Call>)

  const NOBODY := -1

  /** `spurious` is a weak compare-and-swap that fails without reason; `draw` is the random index. */
  datatype Step = Enter(latency: real) | Advance(i: nat, spurious: bool, draw: nat)

  predicate Enabled(s: Stats, step: Step) {
    match step
    case Enter(_) => true
    case Advance(i, _, draw) =>
      && i < |s.calls| && !s.calls[i].at.Finished?
      && (s.calls[i].at.WantLock? ==> s.holder == NOBODY)
      && (s.calls[i].at.Locked? && |s.samples| >= MAX_SAMPLES ==> draw < s.count)
  }

  /** One atomic step of the i-th call, as the new shared values and the new place. */
  function Apply(s: Stats, step: Step): Stats
    requires Enabled(s, step)
  {
    match step
    case Enter(latency) => s.(calls := s.calls + [Call(latency, Begin)])
    case Advance(i, spurious, draw) =>
      var c := s.calls[i];
      match c.at
      case Begin => Goto(s.(count := s.count + 1), i, ReadSum)
      case ReadSum => Goto(s, i, SwapSum(s.sum))
      case SwapSum(seen) =>
        if s.sum == seen && !spurious then Goto(s.(sum := seen + c.latency), i, ReadMax) else Goto(s, i, SwapSum(s.sum))
      case ReadMax => Goto(s, i, SwapMax(s.max))
      case SwapMax(seen) =>
        if c.latency <= seen then Goto(s, i, WantLock)
        else if s.max == seen && !spurious then Goto(s.(max := c.latency), i, WantLock)
        else Goto(s, i, SwapMax(s.max))
      case WantLock => Goto(s.(holder := i), i, Locked)
      case Locked =>
        if |s.samples| < MAX_SAMPLES
        then Goto(s.(samples := s.samples + [c.latency], holder := NOBODY), i, Finished)
        else Goto(s, i, Drawn(draw))
      case Drawn(idx) =>
        var samples := if idx < MAX_SAMPLES && idx < |s.samples| then s.samples[idx := c.latency] else s.samples;
        Goto(s.(samples := samples, holder := NOBODY), i, Finished)
      case Finished => s
  }

  function Goto(s: Stats, i: nat, at: Place): Stats
    requires i < |s.calls|
  {
    s.(calls := s.calls[i := s.calls[i].(at := at)])
  }

  const EMPTY := Stats(0, 0.0, 0.0, [], NOBODY, [])

  ghost predicate Run(states: seq<Stats>, steps: seq<Step>) {
    && |states| == |steps| + 1 && states[0] == EMPTY
    && forall i | 0 <= i < |steps| :: Enabled(states[i], steps[i]) && states[i + 1] == Apply(states[i], steps[i])
  }

  // ---------- how far calls have come ----------

  predicate Counted(p: Place) { !p.Begin? }

  predicate Summed(p: Place) { !p.Begin? && !p.ReadSum? && !p.SwapSum? }

  predicate Compared(p: Place) { Summed(p) && !p.ReadMax? && !p.SwapMax? }

  predicate Holding(p: Place) { p.Locked? || p.Drawn? }

  function HowMany(calls: seq<Call>, p: Place -> bool): (n: nat)
    ensures n <= |calls|
  {
    if calls == [] then 0 else HowMany(calls[..|calls| - 1], p) + if p(calls[|calls| - 1].at) then 1 else 0
  }

  function Total(calls: seq<Call>, p: Place -> bool): real {
    if calls == [] then 0.0
    else Total(calls[..|calls| - 1], p) + if p(calls[|calls| - 1].at) then calls[|calls| - 1].latency else 0.0
  }

  lemma {:induction false} TallyMove(calls: seq<Call>, i: nat, at: Place, p: Place -> bool)
    requires i < |calls|
    ensures var moved := calls[i := calls[i].(at := at)];
            && HowMany(moved, p) == HowMany(calls, p) - (if p(calls[i].at) then 1 else 0) + (if p(at) then 1 else 0)
            && Total(moved, p) == Total(calls, p) - (if p(calls[i].at) then calls[i].latency else 0.0)
                                + (if p(at) then calls[i].latency else 0.0)
  {
    var n := |calls| - 1;
    var moved := calls[i := calls[i].(at := at)];
    if i == n {
      assert moved[..n] == calls[..n];
    } else {
      assert moved[..n] == calls[..n][i := calls[i].(at := at)];
      TallyMove(calls[..n], i, at, p);
    }
  }

  lemma {:induction false} TallyOrdered(calls: seq<Call>, p: Place -> bool, q: Place -> bool, i: nat)
    requires i < |calls| && q(calls[i].at) && !p(calls[i].at) && forall a :: p(a) ==> q(a)
    ensures HowMany(calls, p) < HowMany(calls, q)
  {
    var n := |calls| - 1;
    TallyWeaker(calls[..n], p, q);
    if i < n {
      TallyOrdered(calls[..n], p, q, i);
    }
  }

  lemma {:induction false} TallyWeaker(calls: seq<Call>, p: Place -> bool, q: Place -> bool)
    requires forall a :: p(a) ==> q(a)
    ensures HowMany(calls, p) <= HowMany(calls, q)
  {
    if calls != [] {
      TallyWeaker(calls[..|calls| - 1], p, q);
    }
  }

  // ---------- the invariant ----------

  predicate IsFinished(p: Place) { p.Finished? }

  ghost predicate RecordedBy(calls: seq<Call>, p: Place -> bool, x: real) {
    exists i :: 0 <= i < |calls| && p(calls[i].at) && calls[i].latency == x
  }

  ghost predicate Inv(s: Stats) {
    && s.count == HowMany(s.calls, Counted)
    && s.sum == Total(s.calls, Summed)
    && (s.max == 0.0 || RecordedBy(s.calls, Compared, s.max)) && 0.0 <= s.max
    && (forall i | 0 <= i < |s.calls| && Compared(s.calls[i].at) :: s.calls[i].latency <= s.max)
    && (forall i | 0 <= i < |s.calls| && s.calls[i].at.SwapMax? :: s.calls[i].at.seen <= s.max)
    && |s.samples| == (if HowMany(s.calls, IsFinished) < MAX_SAMPLES then HowMany(s.calls, IsFinished) else MAX_SAMPLES)
    && (forall j | 0 <= j < |s.samples| :: RecordedBy(s.calls, IsFinished, s.samples[j]) && s.samples[j] <= s.max)
    && NOBODY <= s.holder < |s.calls|
    && (forall i | 0 <= i < |s.calls| :: Holding(s.calls[i].at) <==> i == s.holder)
    && (forall i | 0 <= i < |s.calls| && s.calls[i].at.Drawn? :: |s.samples| == MAX_SAMPLES && s.calls[i].at.idx < s.count)
  }

  lemma RecordedMove(calls: seq<Call>, i: nat, at: Place, p: Place -> bool, x: real)
    requires i < |calls| && RecordedBy(calls, p, x) && (p(calls[i].at) ==> p(at))
    ensures RecordedBy(calls[i := calls[i].(at := at)], p, x)
  {
    var k :| 0 <= k < |calls| && p(calls[k].at) && calls[k].latency == x;
    var moved := calls[i := calls[i].(at := at)];
    assert p(moved[k].at) && moved[k].latency == x;
  }

  /** Moving one call forward keeps every record and changes each tally by that call alone. */
  lemma Moving(s: Stats, i: nat, at: Place)
    requires Inv(s) && i < |s.calls|
    requires (Compared(s.calls[i].at) ==> Compared(at)) && !s.calls[i].at.Finished?
    ensures var moved := s.calls[i := s.calls[i].(at := at)];
            && HowMany(moved, Counted) == s.count - (if Counted(s.calls[i].at) then 1 else 0) + (if Counted(at) then 1 else 0)
            && Total(moved, Summed) == s.sum - (if Summed(s.calls[i].at) then s.calls[i].latency else 0.0)
                                       + (if Summed(at) then s.calls[i].latency else 0.0)
            && HowMany(moved, IsFinished) == HowMany(s.calls, IsFinished) + (if at.Finished? then 1 else 0)
            && (s.max == 0.0 || RecordedBy(moved, Compared, s.max))
            && (forall j | 0 <= j < |s.samples| :: RecordedBy(moved, IsFinished, s.samples[j]))
  {
    TallyMove(s.calls, i, at, Counted);
    TallyMove(s.calls, i, at, Summed);
    TallyMove(s.calls, i, at, IsFinished);
    if s.max != 0.0 {
      RecordedMove(s.calls, i, at, Compared, s.max);
    }
    forall j | 0 <= j < |s.samples| ensures RecordedBy(s.calls[i := s.calls[i].(at := at)], IsFinished, s.samples[j]) {
      RecordedMove(s.calls, i, at, IsFinished, s.samples[j]);
    }
  }

  lemma EnterInv(s: Stats, latency: real)
    requires Inv(s)
    ensures Inv(Apply(s, Enter(latency)))
  {
    var t := Apply(s, Enter(latency));
    assert t.calls[..|t.calls| - 1] == s.calls;
    if s.max != 0.0 {
      RecordedKept(s.calls, Call(latency, Begin), Compared, s.max);
    }
    forall j | 0 <= j < |s.samples| ensures RecordedBy(t.calls, IsFinished, s.samples[j]) {
      RecordedKept(s.calls, Call(latency, Begin), IsFinished, s.samples[j]);
    }
  }

  lemma RecordedKept(calls: seq<Call>, c: Call, p: Place -> bool, x: real)
    requires RecordedBy(calls, p, x)
    ensures RecordedBy(calls + [c], p, x)
  {
    var k :| 0 <= k < |calls| && p(calls[k].at) && calls[k].latency == x;
    assert (calls + [c])[k] == calls[k];
  }

  lemma SumInv(s: Stats, step: Step)
    requires Inv(s) && Enabled(s, step) && step.Advance?
    requires s.calls[step.i].at.Begin? || s.calls[step.i].at.ReadSum? || s.calls[step.i].at.SwapSum? || s.calls[step.i].at.ReadMax?
    ensures Inv(Apply(s, step))
  {
    hide HowMany, Total, RecordedBy;
    Moving(s, step.i, Apply(s, step).calls[step.i].at);
  }

  lemma MaxInv(s: Stats, step: Step)
    requires Inv(s) && Enabled(s, step) && step.Advance? && s.calls[step.i].at.SwapMax?
    ensures Inv(Apply(s, step))
  {
    hide HowMany, Total, RecordedBy;
    var t := Apply(s, step);
    Moving(s, step.i, t.calls[step.i].at);
    if t.max != s.max {
      IsRecorded(t.calls, Compared, step.i);
    }
  }

  lemma IsRecorded(calls: seq<Call>, p: Place -> bool, i: nat)
    requires i < |calls| && p(calls[i].at)
    ensures RecordedBy(calls, p, calls[i].latency)
  {
  }

  lemma LockInv(s: Stats, step: Step)
    requires Inv(s) && Enabled(s, step) && step.Advance?
    requires s.calls[step.i].at.WantLock? || Holding(s.calls[step.i].at)
    ensures Inv(Apply(s, step))
  {
    hide HowMany, Total, RecordedBy;
    var t := Apply(s, step);
    Moving(s, step.i, t.calls[step.i].at);
    if t.samples != s.samples {
      IsRecorded(t.calls, IsFinished, step.i);
    }
  }

  lemma StepInv(s: Stats, step: Step)
    requires Inv(s) && Enabled(s, step)
    ensures Inv(Apply(s, step))
  {
    match step
    case Enter(latency) => EnterInv(s, latency);
    case Advance(i, _, _) =>
      var at := s.calls[i].at;
      if at.SwapMax? {
        MaxInv(s, step);
      } else if at.WantLock? || Holding(at) {
        LockInv(s, step);
      } else {
        SumInv(s, step);
      }
  }

  lemma {:induction false} RunInv(states: seq<Stats>, steps: seq<Step>, k: nat)
    requires Run(states, steps) && k < |states|
    ensures Inv(states[k])
  {
    if k > 0 {
      RunInv(states, steps, k - 1);
      StepInv(states[k - 1], steps[k - 1]);
    }
  }

  // ---------- what every interleaving guarantees ----------

  lemma SampleBounds(states: seq<Stats>, steps: seq<Step>, k: nat, i: nat)
    requires Run(states, steps) && k < |states|
    ensures |states[k].samples| <= 1000
    ensures forall x <- states[k].samples :: x <= states[k].max
    ensures i < |states[k].calls| && states[k].calls[i].at.Locked? && |states[k].samples| >= 1000 ==>
              states[k].count > 1000
  {
    RunInv(states, steps, k);
    var s := states[k];
    if i < |s.calls| && s.calls[i].at.Locked? {
      TallyOrdered(s.calls, IsFinished, Counted, i);
    }
  }

  lemma {:induction false} TotalBelow(calls: seq<Call>, p: Place -> bool, bound: real)
    requires forall i | 0 <= i < |calls| && p(calls[i].at) :: calls[i].latency <= bound
    ensures Total(calls, p) <= HowMany(calls, p) as real * bound
  {
    if calls != [] {
      var n := |calls| - 1;
      assert forall i | 0 <= i < n :: calls[..n][i] == calls[i];
      TotalBelow(calls[..n], p, bound);
    }
  }

  ghost predicate AllFinished(calls: seq<Call>) {
    forall i | 0 <= i < |calls| :: calls[i].at.Finished?
  }

  lemma {:induction false} FinishedTallies(calls: seq<Call>)
    requires AllFinished(calls)
    ensures HowMany(calls, Counted) == HowMany(calls, IsFinished) == |calls|
    ensures Total(calls, Summed) == Total(calls, IsFinished)
  {
    if calls != [] {
      FinishedTallies(calls[..|calls| - 1]);
    }
  }

  /** When every call has returned, no update is lost: the counter is the number of calls, the sum is the sum of
      all latencies, the maximum is the largest or zero, the samples are recorded latencies, all of them up to the
      limit, and the average is at most the maximum. */
  lemma NothingLost(states: seq<Stats>, steps: seq<Step>, k: nat)
    requires Run(states, steps) && k < |states| && AllFinished(states[k].calls)
    ensures var s := states[k];
            && s.count == |s.calls| && s.sum == Total(s.calls, IsFinished)
            && (s.max == 0.0 || RecordedBy(s.calls, IsFinished, s.max))
            && (forall i | 0 <= i < |s.calls| :: s.calls[i].latency <= s.max)
            && |s.samples| == (if |s.calls| < 1000 then |s.calls| else 1000)
            && (forall j | 0 <= j < |s.samples| :: RecordedBy(s.calls, IsFinished, s.samples[j]))
            && s.sum <= s.count as real * s.max
  {
    hide HowMany, Total;
    RunInv(states, steps, k);
    var s := states[k];
    FinishedTallies(s.calls);
    FinishedBelow(s);
    TotalBelow(s.calls, IsFinished, s.max);
    if s.max != 0.0 {
      var i :| 0 <= i < |s.calls| && Compared(s.calls[i].at) && s.calls[i].latency == s.max;
      IsRecorded(s.calls, IsFinished, i);
    }
  }

  lemma FinishedBelow(s: Stats)
    requires Inv(s) && AllFinished(s.calls)
    ensures forall i | 0 <= i < |s.calls| :: s.calls[i].latency <= s.max
  {
    forall i | 0 <= i < |s.calls| ensures s.calls[i].latency <= s.max {
      assert Compared(s.calls[i].at);
    }
  }

  /** The latencies of the calls that have returned. */
  function Returned(calls: seq<Call>): multiset<real> {
    if calls == [] then multiset{}
    else
      var c := calls[|calls| - 1];
      Returned(calls[..|calls| - 1]) + if c.at.Finished? then multiset{c.latency} else multiset{}
  }

  lemma ReturnedLast(calls: seq<Call>)
    requires calls != []
    ensures var n := |calls| - 1;
            Returned(calls) == Returned(calls[..n]) + if calls[n].at.Finished? then multiset{calls[n].latency} else multiset{}
  {
  }

  lemma AddedInBetween(a: multiset<real>, b: multiset<real>, c: multiset<real>)
    ensures a + b + c == a + c + b
  {
  }

  lemma {:induction false} ReturnedMove(calls: seq<Call>, i: nat, at: Place)
    requires i < |calls| && !calls[i].at.Finished?
    ensures Returned(calls[i := calls[i].(at := at)])
         == Returned(calls) + if at.Finished? then multiset{calls[i].latency} else multiset{}
  {
    hide Returned;
    var n := |calls| - 1;
    var moved := calls[i := calls[i].(at := at)];
    if i == n {
      assert moved[..n] == calls[..n];
      ReturnedLast(calls);
      ReturnedLast(moved);
    } else {
      assert moved[..n] == calls[..n][i := calls[i].(at := at)];
      ReturnedMove(calls[..n], i, at);
      ReturnedLast(calls);
      ReturnedLast(moved);
      AddedInBetween(Returned(calls[..n]), if at.Finished? then multiset{calls[i].latency} else multiset{},
                     if calls[n].at.Finished? then multiset{calls[n].latency} else multiset{});
    }
  }

  /** As long as at most 1000 calls have returned, their latencies are exactly the samples. */
  ghost predicate Complete(s: Stats) {
    HowMany(s.calls, IsFinished) <= 1000 ==> multiset(s.samples) == Returned(s.calls)
  }

  lemma CompleteStep(s: Stats, step: Step)
    requires Inv(s) && Complete(s) && Enabled(s, step)
    ensures Complete(Apply(s, step))
  {
    hide HowMany, Total, RecordedBy, Returned;
    var t := Apply(s, step);
    match step
    case Enter(latency) => CompleteEnter(s, latency);
    case Advance(i, _, _) =>
      ReturnedMove(s.calls, i, t.calls[i].at);
      TallyMove(s.calls, i, t.calls[i].at, IsFinished);
  }

  lemma CompleteEnter(s: Stats, latency: real)
    requires Complete(s)
    ensures Complete(Apply(s, Enter(latency)))
  {
    var t := Apply(s, Enter(latency));
    assert t.calls[..|t.calls| - 1] == s.calls;
  }

  /** In every run, until 1000 calls have returned, the samples are exactly the latencies of those that have, each as often as
      it was recorded. */
  lemma {:induction false} SamplesComplete(states: seq<Stats>, steps: seq<Step>, k: nat)
    requires Run(states, steps) && k < |states|
    ensures HowMany(states[k].calls, IsFinished) <= 1000 ==> multiset(states[k].samples) == Returned(states[k].calls)
  {
    hide Apply, Enabled, HowMany, Returned;
    if k == 0 {
      NothingReturned();
    } else {
      SamplesComplete(states, steps, k - 1);
      RunInv(states, steps, k - 1);
      CompleteStep(states[k - 1], steps[k - 1]);
    }
  }

  lemma NothingReturned()
    ensures multiset(EMPTY.samples) == Returned(EMPTY.calls)
  {
  }

  /** In every run, a call that has drawn an index replaces the sample there with its latency, and no other, if the index is
      below 1000; with a larger index every sample stays.  Either way it returns and releases the lock. */
  lemma DrawnReplaces(states: seq<Stats>, steps: seq<Step>, k: nat, i: nat, j: nat)
    requires Run(states, steps) && k < |steps| && steps[k].Advance? && steps[k].i == i
    requires states[k].calls[i].at.Drawn?
    ensures var s, t := states[k], states[k + 1];
            var idx := s.calls[i].at.idx;
            && |s.samples| == |t.samples| == 1000 && idx < s.count
            && (j < 1000 ==> t.samples[j] == if j == idx then s.calls[i].latency else s.samples[j])
            && t.calls[i].at.Finished? && t.holder == -1
            && t.count == s.count && t.sum == s.sum && t.max == s.max
  {
    RunInv(states, steps, k);
  }

  // ---------- percentiles ----------

  predicate Ascending(s: seq<real>) {
    forall i, j :: 0 <= i < j < |s| ==> s[i] <= s[j]
  }

  function InsertValue(s: seq<real>, x: real): seq<real> {
    if s == [] || x <= s[0] then [x] + s else [s[0]] + InsertValue(s[1..], x)
  }

  /** What the library's sort returns. */
  function Sorted(s: seq<real>): seq<real> {
    if s == [] then [] else InsertValue(Sorted(s[1..]), s[0])
  }

  /** How many values are at most `x`. */
  function AtMost(s: seq<real>, x: real): nat {
    if s == [] then 0 else AtMost(s[1..], x) + if s[0] <= x then 1 else 0
  }

  lemma {:induction false} InsertCounts(s: seq<real>, x: real, y: real)
    ensures |InsertValue(s, x)| == |s| + 1
    ensures multiset(InsertValue(s, x)) == multiset(s) + multiset{x}
    ensures AtMost(InsertValue(s, x), y) == AtMost(s, y) + if x <= y then 1 else 0
  {
    if s == [] || x <= s[0] {
      assert ([x] + s)[1..] == s;
    } else {
      InsertCounts(s[1..], x, y);
      var r := InsertValue(s[1..], x);
      assert s == [s[0]] + s[1..];
      assert ([s[0]] + r)[1..] == r;
    }
  }

  lemma InsertMembers(s: seq<real>, x: real, y: real)
    requires y in InsertValue(s, x)
    ensures y == x || y in s
  {
    InsertCounts(s, x, x);
    assert y in multiset(InsertValue(s, x));
    assert y in multiset(s) + multiset{x};
  }

  lemma PrependAscends(x: real, s: seq<real>)
    requires Ascending(s) && forall y <- s :: x <= y
    ensures Ascending([x] + s)
  {
    forall i, j | 0 <= i < j < |[x] + s| ensures ([x] + s)[i] <= ([x] + s)[j] {
      assert ([x] + s)[j] == s[j - 1] && s[j - 1] in s;
    }
  }

  lemma {:induction false} InsertAscends(s: seq<real>, x: real)
    requires Ascending(s)
    ensures Ascending(InsertValue(s, x))
  {
    hide Ascending;
    if s == [] || x <= s[0] {
      FirstLeast(s);
      PrependAscends(x, s);
    } else {
      FirstLeast(s);
      InsertAscends(s[1..], x);
      forall y | y in InsertValue(s[1..], x) ensures s[0] <= y {
        InsertMembers(s[1..], x, y);
        assert y in s[1..] ==> y in s;
      }
      PrependAscends(s[0], InsertValue(s[1..], x));
    }
  }

  lemma FirstLeast(s: seq<real>)
    requires Ascending(s)
    ensures s != [] ==> Ascending(s[1..]) && forall y <- s :: s[0] <= y
  {
  }

  lemma {:induction false} SortSorts(s: seq<real>, y: real)
    ensures Ascending(Sorted(s)) && |Sorted(s)| == |s| && multiset(Sorted(s)) == multiset(s)
    ensures AtMost(Sorted(s), y) == AtMost(s, y)
  {
    hide Ascending, InsertValue;
    if s == [] {
      NothingAscends();
    } else {
      SortSorts(s[1..], y);
      InsertCounts(Sorted(s[1..]), s[0], y);
      InsertAscends(Sorted(s[1..]), s[0]);
      assert s == [s[0]] + s[1..];
    }
  }

  lemma NothingAscends()
    ensures Ascending([])
  {
  }

  function Ceiling(x: real): int {
    -((-x).Floor)
  }

  /** The index computed in unsigned arithmetic: for the 0-th percentile it wraps, and is cut back to the last. */
  function Rank(n: nat, percentile: real): (idx: nat)
    requires 0 < n && 0.0 <= percentile
    ensures idx < n
  {
    var c := Ceiling(percentile / 100.0 * n as real);
    if c == 0 || n < c then n - 1 else c - 1
  }

  function Percentile(samples: seq<real>, percentile: real): real
    requires 0.0 <= percentile
  {
    if samples == [] then 0.0
    else
      SortSorts(samples, 0.0);
      Sorted(samples)[Rank(|samples|, percentile)]
  }

  lemma {:induction false} AtMostAscending(s: seq<real>, k: nat)
    requires Ascending(s) && k < |s|
    ensures k < AtMost(s, s[k])
  {
    if k > 0 {
      AtMostAscending(s[1..], k - 1);
      assert s[0] <= s[k];
    }
  }

  lemma {:induction false} FewerBelow(s: seq<real>, k: nat, y: real)
    requires Ascending(s) && k < |s| && y < s[k]
    ensures AtMost(s, y) <= k
  {
    if k == 0 {
      NoneBelow(s, y);
    } else {
      FewerBelow(s[1..], k - 1, y);
    }
  }

  lemma {:induction false} NoneBelow(s: seq<real>, y: real)
    requires forall i | 0 <= i < |s| :: y < s[i]
    ensures AtMost(s, y) == 0
  {
    if s != [] {
      NoneBelow(s[1..], y);
    }
  }

  lemma Positive(x: real, y: real)
    requires 0.0 < x && 0.0 < y
    ensures 0.0 < x * y
  {
  }

  lemma RankWithin(n: nat, percentile: real)
    requires 0 < n && 0.0 < percentile <= 100.0
    ensures Rank(n, percentile) as real < percentile / 100.0 * n as real <= Rank(n, percentile) as real + 1.0
  {
    var x := percentile / 100.0 * n as real;
    Positive(percentile, n as real);
    if percentile < 100.0 {
      Positive(100.0 - percentile, n as real);
    }
    assert 0.0 < x <= n as real;
    assert Ceiling(x) as real - 1.0 < x <= Ceiling(x) as real;
  }

  lemma RankOutside(n: nat, percentile: real)
    requires 0 < n && (percentile == 0.0 || 100.0 < percentile)
    ensures Rank(n, percentile) == n - 1
  {
    var x := percentile / 100.0 * n as real;
    if 100.0 < percentile {
      var y := percentile / 100.0;
      Positive(y - 1.0, n as real);
      assert x == (y - 1.0) * n as real + n as real;
      assert Ceiling(x) as real >= x;
    }
  }

  lemma PercentileRanked(samples: seq<real>, percentile: real, smaller: real)
    requires samples != [] && 0.0 <= percentile
    ensures var v := Percentile(samples, percentile);
            && v in samples && Rank(|samples|, percentile) < AtMost(samples, v)
            && (smaller < v ==> AtMost(samples, smaller) <= Rank(|samples|, percentile))
  {
    var v, k := Percentile(samples, percentile), Rank(|samples|, percentile);
    SortSorts(samples, smaller);
    SortSorts(samples, v);
    assert v == Sorted(samples)[k] && v in Sorted(samples);
    AtMostAscending(Sorted(samples), k);
    if smaller < v {
      FewerBelow(Sorted(samples), k, smaller);
    }
    assert v in multiset(Sorted(samples));
  }

  lemma {:induction false} AllCounted(s: seq<real>, y: real)
    ensures AtMost(s, y) <= |s| && (AtMost(s, y) == |s| ==> forall x <- s :: x <= y)
  {
    if s != [] {
      AllCounted(s[1..], y);
      assert s == [s[0]] + s[1..];
    }
  }

  /** A percentile `p` up to 100 is the least sample that at least `p` percent of the samples do not exceed.  The 0-th, whose
      index wraps around, and any above 100 are the largest sample. */
  lemma PercentileIsNearestRank(samples: seq<real>, percentile: real, smaller: real)
    requires 0.0 <= percentile
    ensures if samples == [] then Percentile(samples, percentile) == 0.0 else Percentile(samples, percentile) in samples
    ensures samples != [] && 0.0 < percentile <= 100.0 ==>
              var v, share := Percentile(samples, percentile), percentile / 100.0 * |samples| as real;
              AtMost(samples, v) as real >= share && (smaller < v ==> (AtMost(samples, smaller) as real) < share)
    ensures percentile == 0.0 || 100.0 < percentile ==> forall x <- samples :: x <= Percentile(samples, percentile)
  {
    hide Rank, AtMost, Sorted;
    if samples != [] {
      PercentileRanked(samples, percentile, smaller);
      AllCounted(samples, Percentile(samples, percentile));
      if 0.0 < percentile <= 100.0 {
        RankWithin(|samples|, percentile);
      } else {
        RankOutside(|samples|, percentile);
      }
    }
  }

  /** Whatever the interleaving, every percentile is at most the recorded maximum. */
  lemma PercentileBelowMax(states: seq<Stats>, steps: seq<Step>, k: nat, percentile: real)
    requires Run(states, steps) && k < |states| && 0.0 <= percentile
    ensures Percentile(states[k].samples, percentile) <= states[k].max
  {
    RunInv(states, steps, k);
    var samples := states[k].samples;
    SampleBounds(states, steps, k, 0);
    if samples != [] {
      PercentileIsNearestRank(samples, percentile, Percentile(samples, percentile) - 1.0);
    }
  }
}
