/** The interceptor (BurstExtension.interceptTestMethod) and its ledger of
    results.  An invocation of an annotated test is either skipped outright
    (gating disabled) or calibrated, measured in a forked run, decided and
    recorded; the framework's own direct call of the test body never
    happens. */
module Gate {
  import opened Wrappers
  import opened Oracle
  import opened Benchmark
  import opened Results
  import opened Calibration
  import opened Decision

  /** `Character.toUpperCase` restricted to ASCII letters. */
  function Upper(c: char): char
  {
    if 'a' <= c <= 'z' then (c as int - 'a' as int + 'A' as int) as char else c
  }

  /** The per-character test of `String.equalsIgnoreCase`. */
  predicate SameIgnoringCase(a: char, b: char)
  {
    a == b || Upper(a) == Upper(b)
  }

  /** `String.equalsIgnoreCase`. */
  function EqualsIgnoreCase(s: string, t: string): (r: bool)
    ensures r <==> |s| == |t| && forall i :: 0 <= i < |s| ==> SameIgnoringCase(s[i], t[i])
  {
    if |s| != |t| then false
    else if s == [] then true
    else SameIgnoringCase(s[0], t[0]) && EqualsIgnoreCase(s[1..], t[1..])
  }

  /** `Boolean.parseBoolean`: true exactly for "true" in any case. */
  function ParseBoolean(s: string): (b: bool)
    ensures b <==> |s| == 4 && Upper(s[0]) == 'T' && Upper(s[1]) == 'R' && Upper(s[2]) == 'U' && Upper(s[3]) == 'E'
  {
    EqualsIgnoreCase(s, "true")
  }

  /** Whether gating is on, given the `burst.enabled` system property
      (absent means "true"). */
  function Enabled(property: Option<string>): (on: bool)
    ensures property.None? ==> on
    ensures property.Some? ==> (on <==> ParseBoolean(property.value))
  {
    ParseBoolean(property.GetOr("true"))
  }

  /** Gating is on when the property is unset. */
  lemma EnabledByDefault()
    ensures Enabled(None)
  {
  }

  /** Gating is on for "true" in any mix of cases, and off for every other
      value, including the empty string. */
  lemma EnabledIff(s: string)
    ensures Enabled(Some(s)) <==>
      |s| == 4 && Upper(s[0]) == 'T' && Upper(s[1]) == 'R' && Upper(s[2]) == 'U' && Upper(s[3]) == 'E'
  {
  }

  /** What the environment supplies to one invocation: the `burst.enabled`
      property and what the two calibration probes and the forked benchmark
      report if they run. */
  datatype Environment = Environment(
    enabledProperty: Option<string>,
    baseline: Measurement,
    current: Measurement,
    benchmark: Measurement)

  /** One invocation of an annotated test method. */
  datatype Invocation = Invocation(
    testClass: string,
    testMethod: string,
    cfg: BurstBenchmark,
    env: Environment)

  /** How an invocation ends.  `Bypassed` and `Passed` skip the invocation;
      `RegressionFailed` throws the assertion error carrying the recorded
      result; `ExecutionFailed` propagates the benchmark run's exception. */
  datatype Outcome =
    | Bypassed
    | Passed
    | RegressionFailed(result: BurstResult)
    | ExecutionFailed

  /** The process-wide state: the calibration cache and the ledger. */
  datatype GateState = GateState(cache: Option<real>, ledger: seq<BurstResult>)

  datatype Step = Step(state: GateState, outcome: Outcome, runs: seq<Run>)

  /** One invocation of `interceptTestMethod`: its new state, outcome, and the
      forked runs it asked for, in order. */
  function Intercept(s: GateState, inv: Invocation): (step: Step)
    ensures step.outcome.Bypassed? <==> !Enabled(inv.env.enabledProperty)
    ensures s.ledger <= step.state.ledger && |step.state.ledger| <= |s.ledger| + 1
    ensures step.outcome.RegressionFailed? ==>
      step.state.ledger == s.ledger + [step.outcome.result] && !step.outcome.result.passed
    ensures s.cache.Some? ==> step.state.cache == s.cache
    ensures CacheValid(s.cache) ==> CacheValid(step.state.cache)
  {
    if !Enabled(inv.env.enabledProperty) then Step(s, Bypassed, [])
    else
      var cal := Calibrate(s.cache, inv.env.baseline, inv.env.current);
      var runs := cal.probes + [Bench(inv.testClass, inv.testMethod, inv.cfg.warmup as int, inv.cfg.iterations as int)];
      match inv.env.benchmark
      case Failed => Step(GateState(cal.cache, s.ledger), ExecutionFailed, runs)
      case Measured(p95) =>
        var r := Decide(inv.testClass, inv.testMethod, inv.cfg, cal.scale, p95);
        Step(GateState(cal.cache, s.ledger + [r]), if r.passed then Passed else RegressionFailed(r), runs)
  }

  /** Whether an invocation goes all the way to a verdict. */
  predicate Completes(inv: Invocation)
  {
    Enabled(inv.env.enabledProperty) && inv.env.benchmark.Measured?
  }

  /** Disabled gating skips the invocation: no calibration, no forked run, no
      ledger entry. */
  lemma DisabledBypasses(s: GateState, inv: Invocation)
    requires !Enabled(inv.env.enabledProperty)
    ensures Intercept(s, inv) == Step(s, Bypassed, [])
  {
  }

  /** A failed benchmark run propagates as an execution failure and adds
      nothing to the ledger (calibration, which runs first, may have filled
      the cache). */
  lemma ExecutionFailureRecordsNothing(s: GateState, inv: Invocation)
    requires Enabled(inv.env.enabledProperty) && inv.env.benchmark.Failed?
    ensures Intercept(s, inv).outcome == ExecutionFailed
    ensures Intercept(s, inv).state.ledger == s.ledger
  {
  }

  /** A completed invocation appends exactly one result, the decision for the
      capped calibrated scale; it raises a regression failure exactly when
      that result did not pass, and the failure carries the recorded result. */
  lemma CompletedAppendsOne(s: GateState, inv: Invocation)
    requires Completes(inv)
    ensures var step := Intercept(s, inv);
      var cal := Calibrate(s.cache, inv.env.baseline, inv.env.current);
      var r := Decide(inv.testClass, inv.testMethod, inv.cfg, cal.scale, inv.env.benchmark.p95);
      step.state.ledger == s.ledger + [r]
      && r.scale == BoundedScale(cal.scale, inv.cfg.maxScale)
      && (step.outcome.RegressionFailed? <==> !r.passed)
      && (step.outcome.RegressionFailed? ==> step.outcome.result == r)
      && (step.outcome == Passed <==> r.passed)
  {
  }

  /** An enabled invocation calibrates before it benchmarks, and asks for
      exactly one benchmark run, of its own test with its configured counts. */
  lemma EnabledRunsOneBenchmarkLast(s: GateState, inv: Invocation)
    requires Enabled(inv.env.enabledProperty)
    ensures var runs := Intercept(s, inv).runs;
      |runs| >= 1
      && runs[|runs| - 1] == Bench(inv.testClass, inv.testMethod, inv.cfg.warmup as int, inv.cfg.iterations as int)
      && forall i :: 0 <= i < |runs| - 1 ==> runs[i].Probe?
  {
  }

  /** The state after a sequence of invocations. */
  function RunAll(s: GateState, invs: seq<Invocation>): GateState
    decreases |invs|
  {
    if invs == [] then s else RunAll(Intercept(s, invs[0]).state, invs[1..])
  }

  /** All forked runs asked for by a sequence of invocations, in order. */
  function RunsOf(s: GateState, invs: seq<Invocation>): seq<Run>
    decreases |invs|
  {
    if invs == [] then []
    else
      var step := Intercept(s, invs[0]);
      step.runs + RunsOf(step.state, invs[1..])
  }

  /** How many invocations of a sequence reach a verdict. */
  function CompletedCount(invs: seq<Invocation>): nat
  {
    if invs == [] then 0 else (if Completes(invs[0]) then 1 else 0) + CompletedCount(invs[1..])
  }

  /** The ledger is append-only and grows by one entry per invocation that
      reached a verdict, passing or failing. */
  lemma {:induction false} LedgerCountsCompleted(s: GateState, invs: seq<Invocation>)
    ensures s.ledger <= RunAll(s, invs).ledger
    ensures |RunAll(s, invs).ledger| == |s.ledger| + CompletedCount(invs)
    decreases |invs|
  {
    if invs != [] {
      var next := Intercept(s, invs[0]).state;
      LedgerCountsCompleted(next, invs[1..]);
    }
  }

  /** However many invocations there are, the calibration probes run at most
      once: two probe runs at most from an empty cache, none once it is set,
      and a set cache never changes. */
  lemma {:induction false} ProbesRunOnce(s: GateState, invs: seq<Invocation>)
    ensures ProbeCount(RunsOf(s, invs)) <= 2
    ensures s.cache.Some? ==> ProbeCount(RunsOf(s, invs)) == 0 && RunAll(s, invs).cache == s.cache
    decreases |invs|
  {
    if invs != [] {
      var step := Intercept(s, invs[0]);
      ProbesRunOnce(step.state, invs[1..]);
      ProbeCountAppend(step.runs, RunsOf(step.state, invs[1..]));
      if Enabled(invs[0].env.enabledProperty) {
        var cal := Calibrate(s.cache, invs[0].env.baseline, invs[0].env.current);
        var bench := Bench(invs[0].testClass, invs[0].testMethod, invs[0].cfg.warmup as int, invs[0].cfg.iterations as int);
        ProbeCountAppend(cal.probes, [bench]);
        assert ProbeCount(cal.probes) <= 2 by {
          if s.cache.None? {
            assert ProbeCount(cal.probes) == |ProbesRun(invs[0].env.baseline)|;
          }
        }
        assert step.state.cache.Some?;
      }
    }
  }

  /** Budget 5 ms, scale 1.0, measured 40 ms: the failing result is recorded
      first, then raised. */
  lemma ScenarioRegressionRecordedThenRaised()
    ensures var inv := Invocation("io.burst.examples.OrderServicePerformanceTest", "createOrder_fail", WithDefaults(5),
                                  Environment(None, Failed, Failed, Measured(40.0)));
      var r := BurstResult("io.burst.examples.OrderServicePerformanceTest", "createOrder_fail", 40.0, 5.0, 1.0, false);
      Intercept(GateState(Some(1.0), []), inv)
        == Step(GateState(Some(1.0), [r]), RegressionFailed(r),
                [Bench("io.burst.examples.OrderServicePerformanceTest", "createOrder_fail", 1, 2)])
  {
  }

  /** A first invocation whose baseline probe reports 0 runs both probes and
      calibrates to 1.0, whatever the current probe said: budget 50 ms gives
      an allowed 50 ms, and 55 ms fails. */
  lemma ScenarioZeroBaseline(current: real)
    ensures var inv := Invocation("io.burst.examples.OrderServicePerformanceTest", "createOrder_withNoise", WithDefaults(50),
                                  Environment(Some("TRUE"), Measured(0.0), Measured(current), Measured(55.0)));
      var step := Intercept(GateState(None, []), inv);
      step.state.cache == Some(1.0)
      && step.runs == [Probe(1, 1), Probe(1, 2), Bench("io.burst.examples.OrderServicePerformanceTest", "createOrder_withNoise", 1, 2)]
      && step.state.ledger == [BurstResult("io.burst.examples.OrderServicePerformanceTest", "createOrder_withNoise", 55.0, 50.0, 1.0, false)]
  {
  }

  /** The static `RESULTS` list: one ledger for the whole JVM, shared by every
      interceptor instance. */
  class Ledger {
    var entries: seq<BurstResult>

    constructor ()
      ensures entries == []
    {
      entries := [];
    }
  }

  /** An interceptor.  JUnit creates one per method that registers it; all of
      them consult the same calibration and append to the same ledger, which
      the instance only refers to. */
  class BurstExtension {
    /** The static calibration cache. */
    const calibration: BurstCalibration
    /** The static `RESULTS` list. */
    const results: Ledger

    constructor (calibration: BurstCalibration, results: Ledger)
      ensures this.calibration == calibration && this.results == results
    {
      this.calibration := calibration;
      this.results := results;
    }

    /** `interceptTestMethod`: the new cache, ledger and outcome are those of
        `Intercept`; `runs` lists the forked runs made. */
    method InterceptTestMethod(inv: Invocation) returns (outcome: Outcome, runs: seq<Run>)
      modifies calibration, results
      ensures Step(GateState(calibration.cachedScale, results.entries), outcome, runs)
              == Intercept(GateState(old(calibration.cachedScale), old(results.entries)), inv)
    {
      var enabled := ParseBoolean(inv.env.enabledProperty.GetOr("true"));
      if !enabled {
        return Bypassed, [];
      }
      var cfg := inv.cfg;
      var scale, probes := calibration.EnvironmentScale(inv.env.baseline, inv.env.current);
      var boundedScale := BoundedScale(scale, cfg.maxScale);
      runs := probes + [Bench(inv.testClass, inv.testMethod, cfg.warmup as int, cfg.iterations as int)];
      if inv.env.benchmark.Failed? {
        // the forked run threw: the exception leaves before RESULTS.add
        return ExecutionFailed, runs;
      }
      var p95 := inv.env.benchmark.p95;
      var allowed := (cfg.p95Millis as real) * boundedScale;
      var result := BurstResult(inv.testClass, inv.testMethod, p95, allowed, boundedScale, p95 <= allowed);
      assert result == Decide(inv.testClass, inv.testMethod, cfg, scale, p95);
      results.entries := results.entries + [result];
      if p95 > allowed {
        return RegressionFailed(result), runs;
      }
      outcome := Passed;
    }
  }

  /** Two annotated methods, each with its own interceptor instance, run one
      after the other: both go to the one ledger and the one cache, exactly as
      a run of `Intercept` over the two invocations. */
  method TwoInterceptorsShareState(calibration: BurstCalibration, results: Ledger,
                                   first: Invocation, second: Invocation)
    modifies calibration, results
    ensures GateState(calibration.cachedScale, results.entries)
            == RunAll(GateState(old(calibration.cachedScale), old(results.entries)), [first, second])
  {
    ghost var s0 := GateState(calibration.cachedScale, results.entries);
    var a := new BurstExtension(calibration, results);
    var _, _ := a.InterceptTestMethod(first);
    ghost var s1 := GateState(calibration.cachedScale, results.entries);
    var b := new BurstExtension(calibration, results);
    var _, _ := b.InterceptTestMethod(second);
    assert [first, second][1..] == [second];
    assert RunAll(s1, [second]) == Intercept(s1, second).state;
  }
}
