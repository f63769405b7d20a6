/** The shutdown report (the shutdown hook of BurstExtension): the ledger as a
    JSON array written to target/burst-results.json, one object per result in
    ledger order, numbers in `%.2f`. */
module Report {
  import opened Wrappers
  import opened Results

  predicate IsDigit(c: char)
  {
    '0' <= c <= '9'
  }

  predicate AllDigits(s: string)
  {
    forall i :: 0 <= i < |s| ==> IsDigit(s[i])
  }

  function Digit(d: nat): char
    requires d < 10
  {
    ('0' as int + d) as char
  }

  function DigitValue(c: char): nat
    requires IsDigit(c)
  {
    c as int - '0' as int
  }

  /** The decimal digits of a natural number, most significant first. */
  function NatDigits(n: nat): (s: string)
    ensures |s| >= 1 && AllDigits(s)
    ensures s[0] == '0' ==> s == "0"
  {
    if n < 10 then [Digit(n)] else NatDigits(n / 10) + [Digit(n % 10)]
  }

  /** The number a string of decimal digits denotes. */
  function DigitsValue(s: string): nat
    requires AllDigits(s)
  {
    if s == [] then 0 else DigitsValue(s[..|s| - 1]) * 10 + DigitValue(s[|s| - 1])
  }

  /** Reading back the digits of `n` gives `n`. */
  lemma {:induction false} NatDigitsValue(n: nat)
    ensures AllDigits(NatDigits(n)) && DigitsValue(NatDigits(n)) == n
  {
    var s := NatDigits(n);
    if n >= 10 {
      NatDigitsValue(n / 10);
      assert s[..|s| - 1] == NatDigits(n / 10);
    } else {
      assert s[..|s| - 1] == [];
    }
  }

  /** `x` rounded to hundredths, halves away from zero (the HALF_UP rounding
      of `java.util.Formatter`), as a whole number of hundredths. */
  function Hundredths(x: real): (h: int)
    ensures x >= 0.0 ==> h >= 0 && (h as real) - 0.5 <= x * 100.0 < (h as real) + 0.5
    ensures x < 0.0 ==> h <= 0 && (h as real) - 0.5 < x * 100.0 <= (h as real) + 0.5
  {
    if x >= 0.0 then (x * 100.0 + 0.5).Floor else -((-x) * 100.0 + 0.5).Floor
  }

  /** `String.format("%.2f", x)` with '.' as the decimal separator. */
  function Fixed2(x: real): (t: string)
    ensures |t| >= 4 && t[|t| - 3] == '.'
    ensures t[0] == '-' <==> x < 0.0
    ensures var u := if x < 0.0 then t[1..] else t;
      AllDigits(u[..|u| - 3]) && (u[0] == '0' ==> |u| == 4)
  {
    var h := Hundredths(x);
    var a: nat := if h < 0 then -h else h;
    (if x < 0.0 then "-" else "") + NatDigits(a / 100) + "." + [Digit(a / 10 % 10), Digit(a % 10)]
  }

  /** Reads `digits.dd` as a number of hundredths. */
  function ParseUnsigned2(s: string): Option<nat>
  {
    if |s| >= 4 && s[|s| - 3] == '.' && AllDigits(s[..|s| - 3])
       && IsDigit(s[|s| - 2]) && IsDigit(s[|s| - 1])
    then Some(DigitsValue(s[..|s| - 3]) * 100 + DigitValue(s[|s| - 2]) * 10 + DigitValue(s[|s| - 1]))
    else None
  }

  /** Reads `[-]digits.dd` as a signed number of hundredths. */
  function ParseFixed2(s: string): Option<int>
  {
    if |s| > 0 && s[0] == '-' then
      match ParseUnsigned2(s[1..])
      case Some(v) => Some(-(v as int))
      case None => None
    else
      match ParseUnsigned2(s)
      case Some(v) => Some(v)
      case None => None
  }

  lemma HundredthsDecompose(a: nat)
    ensures (a / 100) * 100 + (a / 10 % 10) * 10 + a % 10 == a
  {
  }

  lemma Unsigned2RoundTrip(a: nat)
    ensures ParseUnsigned2(NatDigits(a / 100) + "." + [Digit(a / 10 % 10), Digit(a % 10)]) == Some(a)
  {
    var d := NatDigits(a / 100);
    var d1, d2 := Digit(a / 10 % 10), Digit(a % 10);
    var s := d + "." + [d1, d2];
    assert |s| == |d| + 3;
    assert s[..|s| - 3] == d;
    assert s[|s| - 3] == '.' && s[|s| - 2] == d1 && s[|s| - 1] == d2;
    NatDigitsValue(a / 100);
    assert DigitValue(d1) == a / 10 % 10 && DigitValue(d2) == a % 10;
    HundredthsDecompose(a);
  }

  /** The rendered number reads back as `x` rounded to hundredths: the report
      loses nothing but the digits after the second decimal place. */
  lemma Fixed2RoundTrip(x: real)
    ensures ParseFixed2(Fixed2(x)) == Some(Hundredths(x))
  {
    var h := Hundredths(x);
    var a: nat := if h < 0 then -h else h;
    var u := NatDigits(a / 100) + "." + [Digit(a / 10 % 10), Digit(a % 10)];
    Unsigned2RoundTrip(a);
    NatDigitsValue(a / 100);
    if x < 0.0 {
      assert Fixed2(x) == "-" + u;
      assert ("-" + u)[1..] == u;
    } else {
      assert Fixed2(x) == u;
      assert u[0] != '-';
    }
  }

  /** How `%s` renders a boolean. */
  function BoolText(b: bool): string
  {
    if b then "true" else "false"
  }

  /** The `test` field: `testClass#testMethod`. */
  function TestName(r: BurstResult): (t: string)
    ensures |t| == |r.testClass| + 1 + |r.testMethod| && t[|r.testClass|] == '#'
    ensures t[..|r.testClass|] == r.testClass && t[|r.testClass| + 1..] == r.testMethod
  {
    r.testClass + "#" + r.testMethod
  }

  /** Splits a test name at its first '#'. */
  function SplitTestName(s: string): (string, string)
  {
    if s == [] then ("", "")
    else if s[0] == '#' then ("", s[1..])
    else
      var rest := SplitTestName(s[1..]);
      ([s[0]] + rest.0, rest.1)
  }

  lemma {:induction false} SplitJoined(c: string, m: string)
    requires '#' !in c
    ensures SplitTestName(c + "#" + m) == (c, m)
  {
    if c == [] {
      assert c + "#" + m == "#" + m;
    } else {
      assert (c + "#" + m)[0] == c[0];
      assert (c + "#" + m)[1..] == c[1..] + "#" + m;
      SplitJoined(c[1..], m);
      assert [c[0]] + c[1..] == c;
    }
  }

  /** A Java class name holds no '#', so the test field names the class and
      the method unambiguously. */
  lemma TestNameSplits(r: BurstResult)
    requires '#' !in r.testClass
    ensures SplitTestName(TestName(r)) == (r.testClass, r.testMethod)
  {
    SplitJoined(r.testClass, r.testMethod);
  }

  /** The JSON object for one result, without the separator after it. */
  function ObjectText(r: BurstResult): (o: string)
    ensures |o| >= |BoolText(r.passed)| + 2 && o[0] == '{' && o[|o| - 1] == '}'
    ensures o[|o| - |BoolText(r.passed)| - 2..] == BoolText(r.passed) + "\n}"
  {
    "{\n"
    + "  \"test\": \"" + TestName(r) + "\",\n"
    + "  \"p95\": " + Fixed2(r.p95) + ",\n"
    + "  \"allowed\": " + Fixed2(r.allowed) + ",\n"
    + "  \"scale\": " + Fixed2(r.scale) + ",\n"
    + "  \"passed\": " + BoolText(r.passed) + "\n"
    + "}"
  }

  /** The JSON objects of a ledger, in order. */
  function Objects(results: seq<BurstResult>): (objs: seq<string>)
    ensures |objs| == |results|
    ensures forall i :: 0 <= i < |results| ==> objs[i] == ObjectText(results[i])
  {
    seq(|results|, i requires 0 <= i < |results| => ObjectText(results[i]))
  }

  /** What the loop writes for one entry: its object, a comma unless it is the
      last entry, and a line break. */
  function EntryText(obj: string, isLast: bool): string
  {
    obj + (if isLast then "" else ",") + "\n"
  }

  /** What the loop has written after its first `n` iterations. */
  function Entries(objs: seq<string>, n: nat): string
    requires n <= |objs|
  {
    if n == 0 then "" else Entries(objs, n - 1) + EntryText(objs[n - 1], n - 1 == |objs| - 1)
  }

  /** The file for a sequence of rendered objects. */
  function ArrayText(objs: seq<string>): (file: string)
    ensures |file| >= 4 && file[..2] == "[\n" && file[|file| - 2..] == "\n]"
  {
    "[\n" + Entries(objs, |objs|) + "\n]"
  }

  /** The whole report file. */
  function Report(results: seq<BurstResult>): (file: string)
    ensures |file| >= 4 && file[..2] == "[\n" && file[|file| - 2..] == "\n]"
  {
    ArrayText(Objects(results))
  }

  /** The shutdown hook: "[\n", the loop over `RESULTS`, "\n]".  `written` is
      what the loop has sent to the writer so far. */
  method WriteReport(results: seq<BurstResult>) returns (out: string)
    ensures out == Report(results)
  {
    var written := "";
    ghost var objs := Objects(results);
    for i := 0 to |results|
      invariant written == Entries(objs, i)
    {
      var obj := ObjectText(results[i]);
      assert obj == objs[i];
      written := written + EntryText(obj, i == |results| - 1);
    }
    out := "[\n" + written + "\n]";
  }

  /** `items` separated by `sep`. */
  function Join(items: seq<string>, sep: string): string
  {
    if |items| == 0 then ""
    else if |items| == 1 then items[0]
    else Join(items[..|items| - 1], sep) + sep + items[|items| - 1]
  }

  lemma {:induction false} EntriesJoin(objs: seq<string>, n: nat)
    requires 0 < n <= |objs|
    ensures Entries(objs, n) == Join(objs[..n], ",\n") + (if n < |objs| then "," else "") + "\n"
  {
    if n > 1 {
      EntriesJoin(objs, n - 1);
      assert objs[..n][..n - 1] == objs[..n - 1];
    } else {
      assert objs[..1] == [objs[0]];
    }
  }

  /** The file is a JSON array of the objects in order, separated by ",\n",
      with a blank line before the closing bracket. */
  lemma ArrayIsJoin(objs: seq<string>)
    ensures ArrayText(objs) == "[\n" + Join(objs, ",\n") + (if objs == [] then "" else "\n") + "\n]"
  {
    if objs != [] {
      EntriesJoin(objs, |objs|);
      assert objs[..|objs|] == objs;
    }
  }

  /** An empty ledger gives an empty array. */
  lemma EmptyReport()
    ensures Report([]) == "[\n\n]"
  {
  }

  /** The numbers of the within-budget scenario as the report prints them. */
  lemma ScenarioNumbers()
    ensures Fixed2(55.0) == "55.00" && Fixed2(60.0) == "60.00" && Fixed2(1.2) == "1.20"
  {
    assert Hundredths(55.0) == 5500 && Hundredths(60.0) == 6000 && Hundredths(1.2) == 120;
    assert NatDigits(55) == "55" && NatDigits(60) == "60" && NatDigits(1) == "1";
  }

  /** Halves round away from zero, and a negative number that rounds to zero
      keeps its sign, as `%.2f` does. */
  lemma RoundingExamples()
    ensures Fixed2(0.125) == "0.13" && Fixed2(-0.125) == "-0.13" && Fixed2(-0.001) == "-0.00"
  {
    assert Hundredths(0.125) == 13 && Hundredths(-0.125) == -13 && Hundredths(-0.001) == 0;
    assert NatDigits(0) == "0";
  }
}
