# Burst: verified model of the performance gate

Burst is a JUnit 5 extension that turns a `@BurstBenchmark` test method into a
performance regression check. Instead of running the test body, the extension
does four things. It calibrates the environment once per JVM. It measures the
method's p95 latency in a forked JMH run. It compares that latency with the
configured budget, relaxed by the calibrated scale but never beyond the test's
`maxScale`. It records the verdict in a process-wide ledger, which a shutdown
hook writes as a JSON array.

This project models that pipeline in Dafny and proves its properties. The
forked JMH runs are an oracle: each run either reports a p95 value or fails.

| file | module | models |
|---|---|---|
| `Wrappers.dfy` | `Wrappers` | `Option`, for the nullable cache and the unset system property |
| `Oracle.dfy` | `Oracle` | the JmhRunner boundary: `Measurement` (a p95 or a failure) and the log of runs requested |
| `Benchmark.dfy` | `Benchmark` | the `@BurstBenchmark` elements, their Java integer widths and their defaults |
| `Results.dfy` | `Results` | the `BurstResult` record |
| `Calibration.dfy` | `Calibration` | `environmentScale`: the pure step `Calibrate` and the class `BurstCalibration`, whose `cachedScale` field is the static cache |
| `Decision.dfy` | `Decision` | the cap, the scaled budget and the verdict |
| `Gate.dfy` | `Gate` | `interceptTestMethod`: the `burst.enabled` flag, the pure step `Intercept`, the shared `Ledger` and the class `BurstExtension`, and properties of runs of many invocations |
| `Report.dfy` | `Report` | the shutdown hook's JSON text, including `%.2f` rendering, and its writing loop |

The stateful parts are classes whose methods are proved equal to a pure step
function. `BurstCalibration.EnvironmentScale` is proved equal to `Calibrate`.
`BurstExtension.InterceptTestMethod` is proved equal to `Intercept`. The
properties are lemmas about those functions. Each probe and benchmark outcome
is a parameter. Each method also returns the runs it actually requested, in
order. This makes two things provable: a cached calibration runs no probe,
and disabled gating runs nothing.

`BurstResult` is a Dafny datatype. So a result is immutable, it has exactly the
six components of the record, and two results with equal components are equal.

When `burst.enabled` is not "true" in any mix of cases, `interceptTestMethod` calls
`invocation.skip()` and returns
(`src/main/java/io/burst/core/BurstExtension.java:46-48`), so the body does not
run; the outcome is `Bypassed`. No outcome of `Intercept` runs the test body
directly.

JUnit creates one `BurstExtension` per method that registers it, but the
calibration cache and the `RESULTS` list are static. In the model every
interceptor therefore refers to one shared `BurstCalibration` and one shared
`Ledger` object instead of owning them.

## Model

| member | source | states |
|---|---|---|
| `Benchmark.WithDefaults` | src/main/java/io/burst/annotation/BurstBenchmark.java:46-62 | an annotation that sets only `p95Millis` has warmup 1, iterations 2 and maxScale 1.5 |
| `Calibration.FreshScale` | src/main/java/io/burst/core/BurstCalibration.java:31-65 | a fresh calibration is at least 1.0; it is 1.0 when either probe fails or the baseline is at most 0; it is exactly current/baseline when 0 < baseline <= current, and 1.0 when current < baseline |
| `Calibration.ProbesRun` | src/main/java/io/burst/core/BurstCalibration.java:31-42 | a first call runs the baseline probe (1, 1) first and the current probe (1, 2) second, the latter exactly when the baseline did not throw; `FirstCallProbesInOrder` states this of `Calibrate` |
| `Calibration.Calibrate` | src/main/java/io/burst/core/BurstCalibration.java:25-67 | every call leaves the cache set to the value it returns; from a valid cache the returned scale is at least 1.0 |
| `Calibration.CachedCallRunsNoProbe` | src/main/java/io/burst/core/BurstCalibration.java:26-29 | with the cache set, a call returns the cached value, leaves the cache as it is and runs no probe, whatever the probes would report |
| `Calibration.FirstCallProbesInOrder` | src/main/java/io/burst/core/BurstCalibration.java:31-42 | a first call runs the baseline probe (1, 1) first, then the current probe (1, 2) exactly when the baseline did not throw, and caches its result |
| `Calibration.SecondCallRepeatsFirst` | src/main/java/io/burst/core/BurstCalibration.java:21-29 | a second call returns the first call's scale and runs no probe |
| `Calibration.NonPositiveBaselineFallsBack` | src/main/java/io/burst/core/BurstCalibration.java:44-47 | a baseline of 0 or less gives 1.0 whatever the current probe reported |
| `Calibration.ProbeFailureFailsOpen` | src/main/java/io/burst/core/BurstCalibration.java:62-64 | if either probe fails, the scale is 1.0 and 1.0 is cached |
| `Calibration.BurstCalibration.constructor` | src/main/java/io/burst/core/BurstCalibration.java:21 | the cache starts empty |
| `Calibration.BurstCalibration.EnvironmentScale` | src/main/java/io/burst/core/BurstCalibration.java:25-67 | the returned scale, the new cache and the probes run are those of `Calibrate` on the old cache; from a valid cache the scale is at least 1.0 and the cache stays valid |
| `Decision.BoundedScale` | src/main/java/io/burst/core/BurstExtension.java:56 | the applied scale is at most the calibrated scale and at most `maxScale`, and equals one of them |
| `Decision.Allowed` | src/main/java/io/burst/core/BurstExtension.java:56-73 | the allowed latency is `p95Millis` times the calibrated scale while that is within `maxScale`, and `p95Millis * maxScale` once the scale reaches the cap; `AllowedMonotone`, `AllowedCapped` and `AllowedNeverBelowBudget` are its properties |
| `Decision.Decide` | src/main/java/io/burst/core/BurstExtension.java:55-82 | the recorded result has the test's identity and the measured p95; its scale is capped by `maxScale`; its allowed value is `p95Millis` times its scale, which is `Allowed` of the configuration and the calibrated scale; it passes iff p95 <= allowed |
| `Decision.AllowedMonotone` | src/main/java/io/burst/core/BurstExtension.java:55-73 | for a non-negative budget, a larger calibrated scale never lowers the allowed latency |
| `Decision.AllowedCapped` | src/main/java/io/burst/core/BurstExtension.java:56-73 | for a non-negative budget, allowed never exceeds `p95Millis * maxScale` |
| `Decision.AllowedNeverBelowBudget` | src/main/java/io/burst/core/BurstExtension.java:55-73 | with scale and cap both at least 1.0, a non-negative budget is only relaxed, never tightened |
| `Decision.BoundaryPasses` | src/main/java/io/burst/core/BurstExtension.java:81 | a measurement equal to the allowed latency passes |
| `Decision.ScenarioWithinBudget` | src/main/java/io/burst/core/BurstExtension.java:55-82 | budget 50, scale 1.2, cap 1.5: allowed is 60 and a p95 of 55 passes |
| `Decision.ScenarioRegression` | src/main/java/io/burst/core/BurstExtension.java:55-82 | budget 5 with defaults, scale 1.0: allowed is 5 and a p95 of 40 fails |
| `Decision.ScenarioCapOverridesScale` | src/main/java/io/burst/core/BurstExtension.java:55-73 | budget 50, cap 1.0, calibrated 2.0: allowed is 50 |
| `Gate.EqualsIgnoreCase` | src/main/java/io/burst/core/BurstExtension.java:43-45 | the case-insensitive comparison holds iff the lengths agree and every pair of characters agrees up to case |
| `Gate.ParseBoolean` | src/main/java/io/burst/core/BurstExtension.java:43-45 | a value parses as true iff it has four characters that are 't', 'r', 'u', 'e' up to case |
| `Gate.Enabled` | src/main/java/io/burst/core/BurstExtension.java:43-45 | an unset property enables gating; a set one enables it iff it parses as true |
| `Gate.EnabledByDefault` | src/main/java/io/burst/core/BurstExtension.java:43-45 | an unset `burst.enabled` property enables gating |
| `Gate.EnabledIff` | src/main/java/io/burst/core/BurstExtension.java:43-45 | a set property enables gating iff it is "true" in some mix of cases |
| `Gate.DisabledBypasses` | src/main/java/io/burst/core/BurstExtension.java:43-49 | disabled gating skips the invocation with no calibration, no forked run and no ledger entry |
| `Gate.ExecutionFailureRecordsNothing` | src/main/java/io/burst/core/BurstExtension.java:66-75 | a failed benchmark run ends the invocation as an execution failure before anything is added to the ledger |
| `Gate.CompletedAppendsOne` | src/main/java/io/burst/core/BurstExtension.java:55-108 | a measured invocation appends exactly the decision for the capped scale; it raises a regression iff that entry did not pass, the failure carries that entry, and otherwise the invocation is skipped as passed |
| `Gate.EnabledRunsOneBenchmarkLast` | src/main/java/io/burst/core/BurstExtension.java:55-71 | an enabled invocation runs only probes and then exactly one benchmark of its own test with its configured warmup and iterations |
| `Gate.Intercept` | src/main/java/io/burst/core/BurstExtension.java:37-109 | one invocation is bypassed iff gating is off; the ledger only grows, by at most one entry; a raised regression is the entry just appended and did not pass; a set cache is kept and a valid cache stays valid. `DisabledBypasses`, `ExecutionFailureRecordsNothing`, `CompletedAppendsOne`, `LedgerCountsCompleted` and `ProbesRunOnce` state the rest |
| `Gate.LedgerCountsCompleted` | src/main/java/io/burst/core/BurstExtension.java:75-82 | over any sequence of invocations, the old ledger stays a prefix of the new one, which grows by one entry per invocation that reached a verdict |
| `Gate.ProbesRunOnce` | src/main/java/io/burst/core/BurstCalibration.java:25-67 | over any sequence of invocations, at most two probe runs happen in all; once the cache is set none happen and the cache never changes |
| `Gate.ScenarioRegressionRecordedThenRaised` | src/main/java/io/burst/core/BurstExtension.java:75-106 | budget 5, scale 1.0, p95 40: the entry (40, 5, 1.0, failed) is recorded and the same entry is raised |
| `Gate.ScenarioZeroBaseline` | src/main/java/io/burst/core/BurstCalibration.java:33-47 | a zero baseline on a first invocation runs both probes, calibrates to 1.0 and records allowed 50 for a budget of 50 |
| `Gate.Ledger.constructor` | src/main/java/io/burst/core/BurstExtension.java:33-34 | the static results list starts empty |
| `Gate.BurstExtension.constructor` | src/main/java/io/burst/core/BurstExtension.java:31-34 | an interceptor refers to the shared calibration and the shared results list rather than owning its own |
| `Gate.BurstExtension.InterceptTestMethod` | src/main/java/io/burst/core/BurstExtension.java:37-109 | the new cache, the new ledger, the outcome and the runs made are those of `Intercept` on the old state |
| `Gate.TwoInterceptorsShareState` | src/main/java/io/burst/core/BurstExtension.java:33-34 | two interceptor instances run one after the other leave the one cache and the one ledger as `Intercept` over both invocations does |
| `Report.Hundredths` | src/main/java/io/burst/core/BurstExtension.java:125-127 | a number is rounded to the nearest hundredth, ties away from zero, keeping the sign |
| `Report.Fixed2` | src/main/java/io/burst/core/BurstExtension.java:125-127 | the text is digits, '.' and two digits, with a leading '-' iff the number is negative and no leading zero in the whole part; `Fixed2RoundTrip` gives its value |
| `Report.Fixed2RoundTrip` | src/main/java/io/burst/core/BurstExtension.java:125-127 | reading a rendered number back gives the value rounded to hundredths |
| `Report.ScenarioNumbers` | src/main/java/io/burst/core/BurstExtension.java:125-127 | 55, 60 and 1.2 are printed as 55.00, 60.00 and 1.20 |
| `Report.RoundingExamples` | src/main/java/io/burst/core/BurstExtension.java:125-127 | 0.125 prints as 0.13, -0.125 as -0.13 and -0.001 as -0.00 |
| `Report.TestName` | src/main/java/io/burst/core/BurstExtension.java:124 | the `test` field is the class name, then '#', then the method name |
| `Report.TestNameSplits` | src/main/java/io/burst/core/BurstExtension.java:124 | the `test` field is `class#method`, and it splits back into the class and the method |
| `Report.ObjectText` | src/main/java/io/burst/core/BurstExtension.java:121-138 | an entry is a brace-delimited object whose last field is the verdict, `true` or `false` |
| `Report.Report` | src/main/java/io/burst/core/BurstExtension.java:117-140 | the file opens with "[\n" and closes with "\n]"; `ArrayIsJoin` gives the whole text and `WriteReport` writes it |
| `Report.WriteReport` | src/main/java/io/burst/core/BurstExtension.java:117-140 | the loop writes exactly the report text of the ledger |
| `Report.ArrayIsJoin` | src/main/java/io/burst/core/BurstExtension.java:118-140 | the file is "[\n", then the entries' objects in ledger order separated by ",\n", then a line break for a non-empty ledger, then "\n]" |
| `Report.EmptyReport` | src/main/java/io/burst/core/BurstExtension.java:118-140 | an empty ledger gives "[\n\n]" |

## Left out

- JMH is not modelled. The forked runs of `JmhRunner.runProbe` and `JmhRunner.runBenchmark`, their options and their percentile extraction are outside the model. Each run is a `Measurement` parameter, either a p95 value or a failure.
- `BurstJmhBridge` is not modelled. It does reflective lookup and instantiation of the test class in the forked JVM. A failure there is a failed `Measurement`.
- `EnvironmentProbe` is not modelled. It is a timing workload, so its latency is measured, not computed.
- The target-method constraints are not modelled. The annotation asks for no parameters, no overloads and no shared state, and the code does not check any of them.
- Concurrency is modelled sequentially. This covers the `volatile` cache, the double-checked lock and the synchronized `RESULTS` list. The second cache check inside the lock cannot differ from the first in a sequential run, so the model checks once. "Probes run at most once" is proved as `Gate.ProbesRunOnce`.
- Doubles are modelled as `real`. So NaN, infinities, `-0.0` and the NaN rules of `Math.min` and `Math.max` are left out. So is the rounding of `long` to `double` and of the product.
- `Report.Hundredths` rounds the exact real value. Java rounds a decimal form of the double, which can differ from the real value near a tie.
- `String.format` uses the JVM's default locale. The model always prints '.' as the decimal separator.
- `Gate.EqualsIgnoreCase` folds case for ASCII letters only. No other character folds to a letter of "true", so `Enabled` is unaffected.
- Logging is not modelled. That means the `printf` calls at `BurstExtension.java:58-64` and `BurstCalibration.java:52-57`.
- The text of the `AssertionError` is not modelled. `RegressionFailed` carries the recorded result that the message prints.
- Shutdown-hook registration and file I/O are not modelled: the output path, directory creation, the writer and the swallowed exceptions. `Report.WriteReport` gives the text written.
- An interceptor reached for a method without `@BurstBenchmark` is not modelled. That happens when the extension is registered by hand; `cfg` is then null and the code throws after calibrating. In the model every `Invocation` carries its configuration.
