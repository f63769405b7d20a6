/** The environment calibration (BurstCalibration): two probes of a fixed
    workload, a baseline and a heavier "current" one, give a factor by which
    latency budgets are relaxed.  The factor is computed once per JVM and
    cached; calibration trouble falls back to 1.0. */
module Calibration {
  import opened Wrappers
  import opened Oracle

  /** The baseline probe: warmup 1, one measurement iteration. */
  const BaselineProbe: Run := Probe(1, 1)

  /** The current probe: warmup 1, two measurement iterations. */
  const CurrentProbe: Run := Probe(1, 2)

  /** The scale derived from a fresh pair of probe outcomes. */
  function FreshScale(baseline: Measurement, current: Measurement): (s: real)
    ensures s >= 1.0
    ensures baseline.Failed? || current.Failed? ==> s == 1.0
    ensures baseline.Measured? && baseline.p95 <= 0.0 ==> s == 1.0
    ensures baseline.Measured? && current.Measured? && 0.0 < baseline.p95 <= current.p95
            ==> s == current.p95 / baseline.p95
    ensures baseline.Measured? && current.Measured? && 0.0 < baseline.p95 && current.p95 < baseline.p95
            ==> s == 1.0
  {
    if baseline.Failed? || current.Failed? then 1.0
    else if baseline.p95 <= 0.0 then 1.0
    else
      var rawScale := current.p95 / baseline.p95;
      if 1.0 >= rawScale then 1.0 else rawScale
  }

  /** The probes a first call runs: the baseline always, the current probe
      only when the baseline did not throw. */
  function ProbesRun(baseline: Measurement): (probes: seq<Run>)
    ensures 1 <= |probes| <= 2 && probes[0] == BaselineProbe
    ensures |probes| == 2 <==> baseline.Measured?
    ensures |probes| == 2 ==> probes[1] == CurrentProbe
  {
    if baseline.Failed? then [BaselineProbe] else [BaselineProbe, CurrentProbe]
  }

  /** A cache holds only values a calibration can produce. */
  predicate CacheValid(cache: Option<real>)
  {
    cache.Some? ==> cache.value >= 1.0
  }

  /** What one call of `environmentScale` returns, leaves in the cache, and
      asks of the engine. */
  datatype CalibrationStep = CalibrationStep(scale: real, cache: Option<real>, probes: seq<Run>)

  /** One call of `environmentScale` on a given cache state. */
  function Calibrate(cache: Option<real>, baseline: Measurement, current: Measurement): (step: CalibrationStep)
    ensures step.cache == Some(step.scale)
    ensures CacheValid(cache) ==> step.scale >= 1.0
  {
    match cache
    case Some(cached) => CalibrationStep(cached, cache, [])
    case None =>
      var scale := FreshScale(baseline, current);
      CalibrationStep(scale, Some(scale), ProbesRun(baseline))
  }

  /** Once the cache is set, a call returns the cached value and runs no probe,
      whatever the probes would have reported. */
  lemma CachedCallRunsNoProbe(cached: real, baseline: Measurement, current: Measurement)
    ensures Calibrate(Some(cached), baseline, current) == CalibrationStep(cached, Some(cached), [])
  {
  }

  /** The first call runs the baseline probe (1, 1) first and, if it did not
      throw, the current probe (1, 2) second; it caches what it returns. */
  lemma FirstCallProbesInOrder(baseline: Measurement, current: Measurement)
    ensures var step := Calibrate(None, baseline, current);
      1 <= |step.probes| <= 2 && step.probes[0] == Probe(1, 1)
      && (|step.probes| == 2 <==> baseline.Measured?)
      && (|step.probes| == 2 ==> step.probes[1] == Probe(1, 2))
      && step.cache == Some(step.scale)
  {
  }

  /** Two calls in a row: the second repeats the first one's scale and probes
      nothing, so the probes run at most once. */
  lemma SecondCallRepeatsFirst(cache: Option<real>, b1: Measurement, c1: Measurement,
                               b2: Measurement, c2: Measurement)
    ensures var first := Calibrate(cache, b1, c1);
      Calibrate(first.cache, b2, c2) == CalibrationStep(first.scale, first.cache, [])
  {
  }

  /** A baseline of zero or less falls back to 1.0 whatever the current probe
      reported. */
  lemma NonPositiveBaselineFallsBack(baseline: real, current: Measurement)
    requires baseline <= 0.0
    ensures Calibrate(None, Measured(baseline), current).scale == 1.0
  {
  }

  /** Either probe failing falls back to 1.0, and that fallback is cached. */
  lemma ProbeFailureFailsOpen(baseline: Measurement, current: Measurement)
    requires baseline.Failed? || current.Failed?
    ensures Calibrate(None, baseline, current).scale == 1.0
    ensures Calibrate(None, baseline, current).cache == Some(1.0)
  {
  }

  /** The process-wide calibration cache (`cachedScale`). */
  class BurstCalibration {
    var cachedScale: Option<real>

    constructor ()
      ensures cachedScale == None
    {
      cachedScale := None;
    }

    /** `environmentScale()`: return the cached scale, or probe, compute,
        cache and return it.  Every path that returns has assigned the cache.
        `baseline` and `current` are what the two probes report if they run;
        `probes` lists the probes actually run, in order. */
    method EnvironmentScale(baseline: Measurement, current: Measurement)
      returns (scale: real, probes: seq<Run>)
      modifies this
      ensures CalibrationStep(scale, cachedScale, probes) == Calibrate(old(cachedScale), baseline, current)
      ensures CacheValid(old(cachedScale)) ==> scale >= 1.0 && CacheValid(cachedScale)
    {
      if cachedScale.Some? {
        return cachedScale.value, [];
      }
      probes := [BaselineProbe];
      if baseline.Failed? {
        // the baseline probe threw: the catch-all handler
        cachedScale := Some(1.0);
        return 1.0, probes;
      }
      probes := probes + [CurrentProbe];
      if current.Failed? {
        // the current probe threw: the catch-all handler
        cachedScale := Some(1.0);
        return 1.0, probes;
      }
      if baseline.p95 <= 0.0 {
        cachedScale := Some(1.0);
        return 1.0, probes;
      }
      var rawScale := current.p95 / baseline.p95;
      var boundedScale := if 1.0 >= rawScale then 1.0 else rawScale;
      cachedScale := Some(boundedScale);
      scale := boundedScale;
    }
  }
}
