/** File names and `os.path.join`, as the plan store uses them. */
module Paths {
  import opened Common

  /** POSIX `os.path.join(a, b)`: an absolute `b` replaces `a`; otherwise a
      separator is inserted unless `a` is empty or already ends with one. */
  function PathJoin(a: string, b: string): (p: string)
    ensures |b| > 0 && b[0] == '/' ==> p == b
    ensures !(|b| > 0 && b[0] == '/') ==> |p| >= |a| + |b| && p[..|a|] == a && p[|p| - |b|..] == b
  {
    if |b| > 0 && b[0] == '/' then b
    else if a == "" || a[|a| - 1] == '/' then a + b
    else a + "/" + b
  }

  predicate IsDigits(s: string)
  {
    forall i :: 0 <= i < |s| ==> '0' <= s[i] <= '9'
  }

  /** Python's `str(n)` for a non-negative integer. */
  function DecimalString(n: nat): (s: string)
    ensures |s| >= 1 && IsDigits(s)
    ensures n >= 10 <==> |s| >= 2
    decreases n
  {
    if n < 10 then [DigitChar(n)] else DecimalString(n / 10) + [DigitChar(n % 10)]
  }

  /** Python's `int(s)` for a string of decimal digits. */
  function ParseDecimal(s: string): nat
    requires IsDigits(s)
  {
    if s == [] then 0 else ParseDecimal(s[..|s| - 1]) * 10 + (s[|s| - 1] as int - '0' as int)
  }

  lemma {:induction false} DecimalRoundTrip(n: nat)
    ensures ParseDecimal(DecimalString(n)) == n
    decreases n
  {
    var s := DecimalString(n);
    if n >= 10 {
      DecimalRoundTrip(n / 10);
      assert s[..|s| - 1] == DecimalString(n / 10);
    }
  }

  /** The name of the numbered plan file `f"{n}.json"`. */
  function PlanFileName(n: nat): string
  {
    DecimalString(n) + ".json"
  }

  /** Distinct indices name distinct files, so a folder of plan files can be
      viewed as a map from index to content. */
  lemma PlanFileNameInjective(m: nat, n: nat)
    ensures PlanFileName(m) == PlanFileName(n) ==> m == n
  {
    if PlanFileName(m) == PlanFileName(n) {
      var a, b := PlanFileName(m), PlanFileName(n);
      assert a[..|a| - 5] == DecimalString(m);
      assert b[..|b| - 5] == DecimalString(n);
      DecimalRoundTrip(m);
      DecimalRoundTrip(n);
    }
  }
}
