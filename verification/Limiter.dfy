/** The adjustable concurrency limiter of the bulk upload and delete scripts, and the adaptation that
    resizes it while tasks run. */
module Limiter {
  import opened Sorting

  const MIN_CONCURRENCY := 4
  const MAX_CONCURRENCY := 32
  const STEP_UP := 4
  const STEP_DOWN := 6
  const MIN_SAMPLES := 100
  const METRIC_WINDOW := 400
  const TARGET_ERR_RATE := 0.005

  /** The limiter with its past: the tasks started so far, in order, and how many of them finished. */
  datatype State = State(max: int, active: nat, queue: seq<nat>, started: seq<nat>, finished: nat)

  datatype Event = Run(task: nat) | Finish | Resize(n: int)

  /** JavaScript's `n | 0`: the low 32 bits, read as a signed number. */
  function ToInt32(n: int): (r: int)
    ensures -0x8000_0000 <= r < 0x8000_0000 && (r - n) % 0x1_0000_0000 == 0
  {
    var low := n % 0x1_0000_0000;
    if low >= 0x8000_0000 then low - 0x1_0000_0000 else low
  }

  function AtLeastOne(n: int): int {
    if n < 1 then 1 else n
  }

  /** How many waiting tasks fit under the limit. */
  function Fitting(s: State): (k: nat)
    ensures k <= |s.queue|
  {
    if s.max <= s.active then 0 else if s.max - s.active < |s.queue| then s.max - s.active else |s.queue|
  }

  /** Starting every waiting task that fits, first come first served. */
  function Pumped(s: State): State {
    var k := Fitting(s);
    s.(active := s.active + k, queue := s.queue[k..], started := s.started + s.queue[..k])
  }

  predicate Enabled(s: State, e: Event) {
    e.Finish? ==> s.active > 0
  }

  function Next(s: State, e: Event): State
    requires Enabled(s, e)
  {
    match e
    case Run(task) => Pumped(s.(queue := s.queue + [task]))
    case Finish => Pumped(s.(active := s.active - 1, finished := s.finished + 1))
    case Resize(n) => Pumped(s.(max := AtLeastOne(ToInt32(n))))
  }

  class AdjustableLimiter {
    var max: int
    var active: nat
    var queue: seq<nat>
    ghost var started: seq<nat>
    ghost var finished: nat

    ghost function Now(): State
      reads this
    {
      State(max, active, queue, started, finished)
    }

    constructor (initial: int)
      ensures Now() == State(AtLeastOne(initial), 0, [], [], 0)
    {
      max := if initial < 1 then 1 else initial;
      active := 0;
      queue := [];
      started := [];
      finished := 0;
    }

    method Pump()
      modifies this
      ensures Now() == Pumped(old(Now()))
    {
      ghost var s, k := Now(), 0;
      while active < max && queue != []
        invariant 0 <= k <= |s.queue| && active == s.active + k && (k == 0 || active <= max)
        invariant queue == s.queue[k..] && started == s.started + s.queue[..k]
        invariant max == s.max && finished == s.finished
        decreases |queue|
      {
        var next := queue[0];
        queue := queue[1..];
        active := active + 1;
        started := started + [next];
        assert s.queue[..k + 1] == s.queue[..k] + [next];
        k := k + 1;
      }
      assert k == Fitting(s);
    }

    method Run(task: nat)
      modifies this
      ensures Now() == Next(old(Now()), Event.Run(task))
    {
      queue := queue + [task];
      Pump();
    }

    /** A started task's promise settles, either way. */
    method Finish()
      requires active > 0
      modifies this
      ensures Now() == Next(old(Now()), Event.Finish)
    {
      active := active - 1;
      finished := finished + 1;
      Pump();
    }

    method SetConcurrency(n: int)
      modifies this
      ensures Now() == Next(old(Now()), Resize(n))
    {
      max := if ToInt32(n) < 1 then 1 else ToInt32(n);
      Pump();
    }

    /** One adaptation: skipped while data is scarce, else down on errors or slow transfers and up
        without. */
    method Adapt(metrics: Metrics, targetP95: int)
      requires MIN_CONCURRENCY <= max <= MAX_CONCURRENCY && metrics.Valid()
      modifies this
      ensures 4 <= max <= 32
      ensures |metrics.results| < 100 ==> Now() == old(Now())
      ensures |metrics.results| >= 100 ==>
        && max == (if IsTrouble(metrics.results, metrics.durations, targetP95)
                   then (if old(max) < 10 then 4 else old(max) - 6) else (if old(max) > 28 then 32 else old(max) + 4))
        && (Now() == old(Now()) || Now() == Next(old(Now()), Resize(max)))
    {
      hide Next, Metrics.Valid, IsTrouble, Percentile95;
      if |metrics.results| < MIN_SAMPLES { return; }
      TroubleIff(metrics.results, metrics.durations, targetP95);
      var trouble := metrics.InTrouble(targetP95);
      var next;
      if trouble {
        next := if max - STEP_DOWN < MIN_CONCURRENCY then MIN_CONCURRENCY else max - STEP_DOWN;
      } else {
        next := if max + STEP_UP > MAX_CONCURRENCY then MAX_CONCURRENCY else max + STEP_UP;
      }
      if next != max {
        ResizeSetsLimit(Now(), next);
        SetConcurrency(next);
      }
    }
  }

  lemma ResizeSetsLimit(s: State, n: int)
    requires MIN_CONCURRENCY <= n <= MAX_CONCURRENCY
    ensures Next(s, Resize(n)).max == n
  {
  }

  // ---------- Metrics ----------

  datatype Result = Done | Skipped | Failed | Transient

  function LastOf<T>(s: seq<T>, n: nat): (r: seq<T>)
    ensures |r| == if |s| < n then |s| else n
  {
    if |s| <= n then s else s[|s| - n..]
  }

  lemma LastIs<T>(s: seq<T>, n: nat)
    ensures LastOf(s, n) == s[|s| - |LastOf(s, n)|..]
  {
  }

  predicate IsBad(r: Result) {
    r == Failed || r == Transient
  }

  /** The transfers that failed, for good or for now. */
  ghost function BadOnes(results: seq<Result>): set<int> {
    set i | 0 <= i < |results| && (results[i] == Failed || results[i] == Transient)
  }

  /** More than one transfer in 200 failed, or the 95th percentile is over the target. */
  ghost predicate IsTrouble(results: seq<Result>, durations: seq<int>, targetP95: int) {
    200 * |BadOnes(results)| > |results| || Percentile95(durations) > targetP95
  }

  lemma {:induction false} BadAreCounted(results: seq<Result>)
    ensures CountBad(results) == |BadOnes(results)|
  {
    if results == [] {
      assert BadOnes(results) == {};
    } else {
      var last := |results| - 1;
      BadAreCounted(results[..last]);
      assert BadOnes(results) == BadOnes(results[..last]) + (if IsBad(results[last]) then {last} else {});
    }
  }

  lemma TroubleIff(results: seq<Result>, durations: seq<int>, targetP95: int)
    requires results != []
    ensures IsTrouble(results, durations, targetP95)
       <==> CountBad(results) as real / |results| as real > TARGET_ERR_RATE || Percentile95(durations) > targetP95
  {
    hide Percentile95, CountBad, BadOnes;
    BadAreCounted(results);
    RateOver(CountBad(results), |results|);
  }

  lemma RateOver(bad: nat, n: nat)
    requires n > 0
    ensures bad as real / n as real > TARGET_ERR_RATE <==> 200 * bad > n
  {
    var rate := bad as real / n as real;
    assert rate * n as real == bad as real;
    if rate > TARGET_ERR_RATE {
      assert (rate - TARGET_ERR_RATE) * n as real > 0.0;
    } else {
      assert (TARGET_ERR_RATE - rate) * n as real >= 0.0;
    }
  }

  function CountBad(results: seq<Result>): (n: nat)
    ensures n <= |results|
  {
    if results == [] then 0 else CountBad(results[..|results| - 1]) + (if IsBad(results[|results| - 1]) then 1 else 0)
  }

  /** The 95th percentile by nearest rank from below; zero without data. */
  function Percentile95(durations: seq<int>): int {
    SortedLength(durations);
    if durations == [] then 0 else Sorted(durations)[|durations| * 95 / 100]
  }

  /** The latest outcomes and durations, as many as the window holds. */
  class Metrics {
    var durations: seq<int>
    var results: seq<Result>
    ghost var allDurations: seq<int>
    ghost var allResults: seq<Result>

    ghost predicate Valid()
      reads this
    {
      && |allDurations| == |allResults|
      && durations == LastOf(allDurations, METRIC_WINDOW) && results == LastOf(allResults, METRIC_WINDOW)
    }

    ghost predicate Trouble(targetP95: int)
      reads this
    {
      results != [] && (CountBad(results) as real / |results| as real > TARGET_ERR_RATE || Percentile95(durations) > targetP95)
    }

    constructor ()
      ensures Valid() && allDurations == [] && allResults == []
    {
      durations, results, allDurations, allResults := [], [], [], [];
    }

    method Observe(ms: int, outcome: Result)
      requires Valid()
      modifies this
      ensures Valid() && allDurations == old(allDurations) + [ms] && allResults == old(allResults) + [outcome]
      ensures |durations| == |results| == if |allResults| < 400 then |allResults| else 400
      ensures durations == allDurations[|allDurations| - |durations|..] && results == allResults[|allResults| - |results|..]
    {
      durations := durations + [ms];
      results := results + [outcome];
      if |durations| > METRIC_WINDOW { durations := durations[1..]; }
      if |results| > METRIC_WINDOW { results := results[1..]; }
      allDurations := allDurations + [ms];
      allResults := allResults + [outcome];
      LastIs(allDurations, METRIC_WINDOW);
      LastIs(allResults, METRIC_WINDOW);
    }

    method InTrouble(targetP95: int) returns (trouble: bool)
      ensures results != [] ==> trouble == Trouble(targetP95)
    {
      var p95 := P95();
      var err := ErrorRate();
      return err > TARGET_ERR_RATE || p95 > targetP95;
    }

    method P95() returns (p: int)
      ensures p == Percentile95(durations)
    {
      SortedLength(durations);
      if |durations| == 0 { return 0; }
      var arr := Sorted(durations);
      var idx := |arr| * 95 / 100;
      return arr[if idx < |arr| - 1 then idx else |arr| - 1];
    }

    method ErrorRate() returns (rate: real)
      ensures results == [] ==> rate == 0.0
      ensures results != [] ==> rate == CountBad(results) as real / |results| as real
    {
      if |results| == 0 { return 0.0; }
      var bad := 0;
      for i := 0 to |results|
        invariant bad == CountBad(results[..i])
      {
        assert results[..i + 1][..i] == results[..i];
        if IsBad(results[i]) { bad := bad + 1; }
      }
      assert results[..|results|] == results;
      return bad as real / |results| as real;
    }
  }

  /** One of the transfers took as long as the percentile, less than a twentieth took longer, and at least a
      twentieth as long or longer. */
  lemma PercentileCovers(durations: seq<int>)
    requires durations != []
    ensures Percentile95(durations) in durations
    ensures 20 * Above(durations, Percentile95(durations)) < |durations|
    ensures 20 * Above(durations, Percentile95(durations) - 1) >= |durations|
  {
    hide Sorted, Above, Ascending;
    var s, i := Sorted(durations), |durations| * 95 / 100;
    SortSorts(durations);
    SortedLength(durations);
    AboveInOrder(s, i);
    AboveOrAtInOrder(s, i);
    AboveSorted(durations, s[i]);
    AboveSorted(durations, s[i] - 1);
    assert s[i] in multiset(s) && multiset(s) == multiset(durations);
  }

  function AdaptedLimit(current: int, trouble: bool): (next: int)
    ensures MIN_CONCURRENCY <= current <= MAX_CONCURRENCY ==> MIN_CONCURRENCY <= next <= MAX_CONCURRENCY
  {
    if trouble then (if current - STEP_DOWN < MIN_CONCURRENCY then MIN_CONCURRENCY else current - STEP_DOWN)
    else if current + STEP_UP > MAX_CONCURRENCY then MAX_CONCURRENCY else current + STEP_UP
  }

  // ---------- Runs ----------

  ghost predicate IsRun(states: seq<State>, events: seq<Event>) {
    && |states| == |events| + 1 && states[0] == State(AtLeastOne(states[0].max), 0, [], [], 0)
    && forall i :: 0 <= i < |events| ==> Enabled(states[i], events[i]) && states[i + 1] == Next(states[i], events[i])
  }

  /** The tasks handed to `Run` in the first `n` events. */
  function Submitted(events: seq<Event>, n: nat): seq<nat>
    requires n <= |events|
  {
    if n == 0 then [] else Submitted(events, n - 1) + (if events[n - 1].Run? then [events[n - 1].task] else [])
  }

  lemma PumpKeepsLine(s: State)
    ensures Pumped(s).started + Pumped(s).queue == s.started + s.queue
    ensures |Pumped(s).started| - Pumped(s).active == |s.started| - s.active
    ensures Pumped(s).max == s.max && Pumped(s).finished == s.finished
    ensures Pumped(s).queue == [] || Pumped(s).active >= s.max
  {
    var k := Fitting(s);
    assert s.queue == s.queue[..k] + s.queue[k..];
  }

  lemma StepKeepsLine(s: State, e: Event)
    requires Enabled(s, e) && s.max >= 1
    ensures var s' := Next(s, e);
      && s'.started + s'.queue == s.started + s.queue + (if e.Run? then [e.task] else [])
      && |s'.started| - s'.active - s'.finished == |s.started| - s.active - s.finished
      && s'.max >= 1 && (s'.queue == [] || s'.active >= s'.max)
  {
    hide Pumped;
    match e
    case Run(task) =>
      PumpKeepsLine(s.(queue := s.queue + [task]));
      assert s.started + (s.queue + [task]) == s.started + s.queue + [task];
    case Finish =>
      PumpKeepsLine(s.(active := s.active - 1, finished := s.finished + 1));
      assert s.started + s.queue + [] == s.started + s.queue;
    case Resize(r) =>
      PumpKeepsLine(s.(max := AtLeastOne(ToInt32(r))));
      assert s.started + s.queue + [] == s.started + s.queue;
  }

  /** A step that starts tasks ends at or below the limit. */
  lemma StartsOnlyBelowLimit(s: State, e: Event)
    requires Enabled(s, e)
    ensures |Next(s, e).started| > |s.started| ==> Next(s, e).active <= Next(s, e).max
  {
  }

  /** Every submitted task starts exactly once, in the order of submission; none is lost; whenever the
      limiter is at rest, nothing waits below the limit; and no task starts at or above it. */
  lemma {:induction false} TasksStartInOrder(states: seq<State>, events: seq<Event>, n: nat)
    requires IsRun(states, events) && n <= |events|
    ensures states[n].started + states[n].queue == Submitted(events, n)
    ensures |states[n].started| == states[n].active + states[n].finished
    ensures states[n].max >= 1 && (states[n].queue == [] || states[n].active >= states[n].max)
    ensures n > 0 && |states[n].started| > |states[n - 1].started| ==> states[n].active <= states[n].max
  {
    hide Next;
    if n > 0 {
      TasksStartInOrder(states, events, n - 1);
      StepKeepsLine(states[n - 1], events[n - 1]);
      StartsOnlyBelowLimit(states[n - 1], events[n - 1]);
    }
  }

  lemma StepStaysInBounds(s: State, e: Event, low: int, high: int)
    requires Enabled(s, e) && 1 <= low <= s.max <= high && s.active <= high
    requires e.Resize? ==> low <= ToInt32(e.n) <= high
    ensures low <= Next(s, e).max <= high && Next(s, e).active <= high
  {
    hide ToInt32;
  }

  /** While every resize stays within bounds, so do the limit and the number of tasks at work. */
  lemma {:induction false} ActiveStaysUnderCeiling(states: seq<State>, events: seq<Event>, n: nat, low: int, high: int)
    requires IsRun(states, events) && n <= |events| && 1 <= low <= states[0].max <= high
    requires forall i :: 0 <= i < n && events[i].Resize? ==> low <= ToInt32(events[i].n) <= high
    ensures low <= states[n].max <= high && states[n].active <= high
  {
    hide Next, ToInt32;
    if n > 0 {
      ActiveStaysUnderCeiling(states, events, n - 1, low, high);
      StepStaysInBounds(states[n - 1], events[n - 1], low, high);
    }
  }

  /** A run of the scripts: it starts at 8 and is resized only by the adaptation. */
  ghost predicate IsAdaptiveRun(states: seq<State>, events: seq<Event>) {
    && IsRun(states, events) && states[0].max == 8
    && forall i :: 0 <= i < |events| ==> IsAdaptive(states[i], events[i])
  }

  predicate IsAdaptive(s: State, e: Event) {
    e.Resize? ==> e.n == AdaptedLimit(s.max, true) || e.n == AdaptedLimit(s.max, false)
  }

  lemma AdaptiveStep(s: State, e: Event)
    requires Enabled(s, e) && IsAdaptive(s, e)
    requires MIN_CONCURRENCY <= s.max <= MAX_CONCURRENCY && s.active <= MAX_CONCURRENCY
    ensures MIN_CONCURRENCY <= Next(s, e).max <= MAX_CONCURRENCY && Next(s, e).active <= MAX_CONCURRENCY
  {
    hide Next;
    StepStaysInBounds(s, e, MIN_CONCURRENCY, MAX_CONCURRENCY);
  }

  /** The scripts keep the limit between 4 and 32, and so never more than 32 transfers at work. */
  lemma {:induction false} AdaptationStaysInBounds(states: seq<State>, events: seq<Event>, n: nat)
    requires IsAdaptiveRun(states, events) && n <= |events|
    ensures 4 <= states[n].max <= 32 && states[n].active <= 32
  {
    hide Next, AdaptedLimit;
    if n > 0 {
      AdaptationStaysInBounds(states, events, n - 1);
      AdaptiveStep(states[n - 1], events[n - 1]);
    }
  }
}
