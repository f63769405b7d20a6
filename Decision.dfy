/** The decision rule of the gate: cap the calibrated scale at the test's
    `maxScale`, scale the p95 budget by it, and pass when the measured p95 is
    within the scaled budget (equality passes). */
module Decision {
  import opened Benchmark
  import opened Results

  /** `Math.min(scale, maxScale)`. */
  function BoundedScale(scale: real, maxScale: real): (b: real)
    ensures b <= scale && b <= maxScale
    ensures b == scale || b == maxScale
  {
    if scale <= maxScale then scale else maxScale
  }

  /** The budget after scaling: `p95Millis * boundedScale`. */
  function Allowed(cfg: BurstBenchmark, scale: real): (a: real)
    ensures scale <= cfg.maxScale ==> a == (cfg.p95Millis as real) * scale
    ensures cfg.maxScale <= scale ==> a == (cfg.p95Millis as real) * cfg.maxScale
  {
    (cfg.p95Millis as real) * BoundedScale(scale, cfg.maxScale)
  }

  /** The result recorded for a measured p95 under a configuration and a
      calibrated scale. */
  function Decide(testClass: string, testMethod: string, cfg: BurstBenchmark,
                  scale: real, p95: real): (r: BurstResult)
    ensures r.testClass == testClass && r.testMethod == testMethod && r.p95 == p95
    ensures r.scale <= cfg.maxScale && r.scale <= scale
    ensures r.scale == scale || r.scale == cfg.maxScale
    ensures r.allowed == (cfg.p95Millis as real) * r.scale == Allowed(cfg, scale)
    ensures r.passed <==> p95 <= r.allowed
  {
    var boundedScale := BoundedScale(scale, cfg.maxScale);
    var allowed := Allowed(cfg, scale);
    BurstResult(testClass, testMethod, p95, allowed, boundedScale, p95 <= allowed)
  }

  /** For a non-negative budget, a larger calibrated scale never lowers the
      allowed latency. */
  lemma AllowedMonotone(cfg: BurstBenchmark, s1: real, s2: real)
    requires cfg.p95Millis >= 0 && s1 <= s2
    ensures Allowed(cfg, s1) <= Allowed(cfg, s2)
  {
    var k := cfg.p95Millis as real;
    var b1, b2 := BoundedScale(s1, cfg.maxScale), BoundedScale(s2, cfg.maxScale);
    MulMonotone(k, b1, b2);
    calc {
      Allowed(cfg, s1);
      k * b1;
    <= k * b2;
      Allowed(cfg, s2);
    }
  }

  /** For a non-negative budget, the allowed latency never exceeds
      `p95Millis * maxScale`, whatever the calibration said. */
  lemma AllowedCapped(cfg: BurstBenchmark, scale: real)
    requires cfg.p95Millis >= 0
    ensures Allowed(cfg, scale) <= (cfg.p95Millis as real) * cfg.maxScale
  {
    MulMonotone(cfg.p95Millis as real, BoundedScale(scale, cfg.maxScale), cfg.maxScale);
  }

  /** A calibrated scale of at least 1.0 under a cap of at least 1.0 only
      relaxes a non-negative budget, never tightens it. */
  lemma AllowedNeverBelowBudget(cfg: BurstBenchmark, scale: real)
    requires cfg.p95Millis >= 0 && scale >= 1.0 && cfg.maxScale >= 1.0
    ensures Allowed(cfg, scale) >= cfg.p95Millis as real
  {
    var k := cfg.p95Millis as real;
    var b := BoundedScale(scale, cfg.maxScale);
    MulMonotone(k, 1.0, b);
    calc {
      Allowed(cfg, scale);
      k * b;
    >= k * 1.0;
      k;
    }
  }

  /** A measurement exactly at the allowed latency passes. */
  lemma BoundaryPasses(testClass: string, testMethod: string, cfg: BurstBenchmark, scale: real)
    ensures Decide(testClass, testMethod, cfg, scale, Allowed(cfg, scale)).passed
  {
  }

  lemma MulMonotone(k: real, a: real, b: real)
    requires k >= 0.0 && a <= b
    ensures k * a <= k * b
  {
  }

  /** p95Millis = 50, scale 1.2, maxScale 1.5: allowed 60, and 55 passes. */
  lemma ScenarioWithinBudget()
    ensures var cfg := BurstBenchmark(50, 1, 2, 1.5);
      var r := Decide("io.burst.examples.OrderServicePerformanceTest", "createOrder", cfg, 1.2, 55.0);
      r.allowed == 60.0 && r.scale == 1.2 && r.passed
  {
  }

  /** p95Millis = 5, scale 1.0: allowed 5, and 40 fails. */
  lemma ScenarioRegression()
    ensures var r := Decide("io.burst.examples.OrderServicePerformanceTest", "createOrder", WithDefaults(5), 1.0, 40.0);
      r.allowed == 5.0 && r.scale == 1.0 && !r.passed
  {
  }

  /** p95Millis = 50, maxScale 1.0, calibrated 2.0: the cap wins, allowed 50. */
  lemma ScenarioCapOverridesScale()
    ensures Allowed(BurstBenchmark(50, 1, 2, 1.0), 2.0) == 50.0
  {
  }
}
