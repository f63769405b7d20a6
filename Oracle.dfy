/** The boundary to the benchmarking engine (JmhRunner): every forked JMH run
    is an oracle that either reports a p95 latency in milliseconds or fails.
    The model never computes a latency; it only records which runs were asked
    for, in order, and consumes the answers it is given. */
module Oracle {

  /** What one forked run reports: its p95 latency, or a failure (an exception
      thrown by JMH, by the fork, or by the benchmarked code). */
  datatype Measurement = Measured(p95: real) | Failed

  /** One request made to the engine.  `Probe` runs the fixed calibration
      workload; `Bench` runs the named test method through the bridge. */
  datatype Run =
    | Probe(warmup: int, iterations: int)
    | Bench(testClass: string, testMethod: string, warmup: int, iterations: int)

  /** How many calibration probes a run log contains. */
  function ProbeCount(runs: seq<Run>): nat
  {
    if runs == [] then 0
    else (if runs[0].Probe? then 1 else 0) + ProbeCount(runs[1..])
  }

  lemma {:induction false} ProbeCountAppend(a: seq<Run>, b: seq<Run>)
    ensures ProbeCount(a + b) == ProbeCount(a) + ProbeCount(b)
  {
    if a == [] {
      assert a + b == b;
    } else {
      assert (a + b)[1..] == a[1..] + b;
      ProbeCountAppend(a[1..], b);
    }
  }
}
