/** The immutable record of one gated benchmark, the element type of the
    ledger.  As a datatype it has value equality: two results with equal
    components are the same result. */
module Results {

  /** `allowed` is the budget after scaling, `scale` the factor that was
      applied to it, and `passed` the verdict. */
  datatype BurstResult = BurstResult(
    testClass: string,
    testMethod: string,
    p95: real,
    allowed: real,
    scale: real,
    passed: bool)
}
