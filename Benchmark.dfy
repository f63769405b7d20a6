/** The per-test configuration carried by the `@BurstBenchmark` annotation. */
module Benchmark {

  /** Java's `long`. */
  newtype Long = x: int | -0x8000_0000_0000_0000 <= x < 0x8000_0000_0000_0000

  /** Java's `int`. */
  newtype Int = x: int | -0x8000_0000 <= x < 0x8000_0000

  const DefaultWarmup: Int := 1
  const DefaultIterations: Int := 2
  const DefaultMaxScale: real := 1.5

  /** The annotation's four elements: the p95 budget in whole milliseconds
      (required), JMH warmup and measurement iteration counts, and the cap on
      the environment scale. */
  datatype BurstBenchmark = BurstBenchmark(
    p95Millis: Long,
    warmup: Int,
    iterations: Int,
    maxScale: real)

  /** The configuration of an annotation that sets only `p95Millis`. */
  function WithDefaults(p95Millis: Long): (cfg: BurstBenchmark)
    ensures cfg.p95Millis == p95Millis
    ensures cfg.warmup == 1 && cfg.iterations == 2 && cfg.maxScale == 1.5
  {
    BurstBenchmark(p95Millis, DefaultWarmup, DefaultIterations, DefaultMaxScale)
  }
}
