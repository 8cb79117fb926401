/** Token estimation and budget arithmetic. Floating point is modelled by reals. */
module TokenBudget {
  import opened ContextMessages

  const MAX_INT := 9223372036854775807

  // ----- Rounding -----

  function DivideRoundUp(value: int, divisor: int): int
    requires divisor > 0
  {
    if value <= 0 then 0 else 1 + (value - 1) / divisor
  }

  /** The quotient rounded up: the least `r` with `r * divisor >= value`. */
  lemma DivideRoundUpIsCeiling(value: int, divisor: int)
    requires divisor > 0 && value >= 0
    ensures var r := DivideRoundUp(value, divisor); 0 <= r && value <= r * divisor && (r - 1) * divisor < value + (if value == 0 then 1 else 0)
  {
    if value > 0 {
      var q, m := (value - 1) / divisor, (value - 1) % divisor;
      assert value - 1 == q * divisor + m;
    }
  }

  function PercentRoundUp(value: int, percent: int): int {
    if value <= 0 then 0 else value / 100 * percent + DivideRoundUp(value % 100 * percent, 100)
  }

  /** The percentage rounded up, although no product of `value` and `percent` is ever formed. */
  lemma PercentRoundUpIsCeiling(value: int, percent: int)
    requires value >= 0 && 0 <= percent <= 100
    ensures var r := PercentRoundUp(value, percent); value * percent <= 100 * r < value * percent + 100
  {
    if value > 0 {
      var q, m := value / 100, value % 100;
      DivideRoundUpIsCeiling(m * percent, 100);
      assert value * percent == 100 * (q * percent) + m * percent by { assert value == 100 * q + m; }
      if m * percent == 0 { assert DivideRoundUp(m * percent, 100) == 0; }
    }
  }

  /** Every intermediate value stays within a machine integer. */
  lemma PercentRoundUpFits(value: int, percent: int)
    requires 0 <= value <= MAX_INT && 0 <= percent <= 100
    ensures 0 <= value / 100 * percent <= value && 0 <= value % 100 * percent <= 9900
    ensures 0 <= DivideRoundUp(value % 100 * percent, 100) <= 99 && 0 <= PercentRoundUp(value, percent) <= value
  {
    var q, m := value / 100, value % 100;
    Scaled(q, percent);
    Scaled(m, percent);
    PercentRoundUpIsCeiling(value, percent);
    Scaled(value, percent);
    assert 100 * q <= value;
    if m * percent > 0 { assert (m * percent - 1) / 100 <= 98; }
  }

  lemma Scaled(n: int, percent: int)
    requires n >= 0 && 0 <= percent <= 100
    ensures 0 <= n * percent <= 100 * n
  {
  }

  // ----- Texts -----

  /** How many characters of each class a text has. The classes of wide scripts are a parameter. */
  function Ascii(s: string): nat {
    if |s| == 0 then 0 else Ascii(s[..|s| - 1]) + (if s[|s| - 1] as int <= 127 then 1 else 0)
  }

  function Wide(s: string, wide: char -> bool): nat {
    if |s| == 0 then 0 else Wide(s[..|s| - 1], wide) + (if s[|s| - 1] as int > 127 && wide(s[|s| - 1]) then 1 else 0)
  }

  lemma {:induction false} CountsFit(s: string, wide: char -> bool)
    ensures Ascii(s) + Wide(s, wide) <= |s|
  {
    if |s| > 0 { CountsFit(s[..|s| - 1], wide); }
  }

  function RawTokens(s: string, wide: char -> bool): int {
    var ascii, cjk := Ascii(s), Wide(s, wide);
    DivideRoundUp(ascii, 3) + cjk + DivideRoundUp(|s| - ascii - cjk, 2)
  }

  function Ceiling(x: real): int { -((-x).Floor) }

  /** A raw price under a calibration. */
  function Corrected(raw: int, correction: real): int { Ceiling(raw as real * correction) }

  function TextTokens(s: string, wide: char -> bool, correction: real): int { Corrected(RawTokens(s, wide), correction) }

  /** Every character is charged: an empty text is free, and any other costs at least one token and at most one per
      character, before correction. */
  lemma RawTokensBounds(s: string, wide: char -> bool)
    ensures |s| <= 3 * RawTokens(s, wide) && RawTokens(s, wide) <= |s| && (s != "" ==> RawTokens(s, wide) >= 1)
  {
    CountsFit(s, wide);
    DivideRoundUpIsCeiling(Ascii(s), 3);
    DivideRoundUpIsCeiling(|s| - Ascii(s) - Wide(s, wide), 2);
  }

  /** The calibration, kept within its range. */
  function Observed(correction: real, estimated: int, actual: int): real {
    if estimated <= 0 || actual <= 0 then correction
    else
      var ratio := actual as real / estimated as real;
      if ratio < 0.5 || ratio > 2.5 then correction
      else
        var moved := (if correction <= 0.0 then 1.0 else correction) * (0.8 + 0.2 * ratio);
        if moved < 0.75 then 0.75 else if moved > 2.5 then 2.5 else moved
  }

  datatype Observation = Observation(estimated: int, actual: int)

  function Calibrated(start: real, run: seq<Observation>): real {
    if |run| == 0 then start
    else Observed(Calibrated(start, run[..|run| - 1]), run[|run| - 1].estimated, run[|run| - 1].actual)
  }

  /** On every run the calibration stays within its range. */
  lemma {:induction false} CalibrationInRange(run: seq<Observation>)
    ensures 0.75 <= Calibrated(1.0, run) <= 2.5
  {
    if |run| > 0 { CalibrationInRange(run[..|run| - 1]); }
  }

  function Power(x: real, n: nat): real { if n == 0 then 1.0 else x * Power(x, n - 1) }

  /** An observation of a provider whose true ratio to the uncorrected estimate is `k`. */
  predicate TrueRatio(correction: real, o: Observation, k: real) {
    o.estimated > 0 && o.actual > 0 && o.actual as real * correction == k * o.estimated as real
  }

  lemma RatioOf(correction: real, o: Observation, k: real)
    requires correction > 0.0 && TrueRatio(correction, o, k)
    ensures o.actual as real / o.estimated as real == k / correction
  {
    var e, a := o.estimated as real, o.actual as real;
    assert a / e * e == a;
    assert (a / e) * correction == k by { assert (a / e) * correction * e == k * e; }
  }

  /** One observation brings the error to the true ratio down by exactly a fifth, if and only if the ratio it shows
      is plausible or there is no error; otherwise nothing changes. */
  lemma OneObservation(correction: real, o: Observation, k: real)
    requires 0.75 <= correction <= 2.5 && 0.75 <= k <= 2.5 && TrueRatio(correction, o, k)
    ensures var next := Observed(correction, o.estimated, o.actual);
            && (next - k == 0.8 * (correction - k) <==> 0.5 * correction <= k <= 2.5 * correction)
            && (k < 0.5 * correction || k > 2.5 * correction ==> next == correction)
  {
    RatioOf(correction, o, k);
    var ratio := k / correction;
    RatioBelow(k, correction, 0.5);
    RatioBelow(k, correction, 2.5);
    assert ratio * correction == k;
    assert correction * (0.8 + 0.2 * ratio) == 0.8 * correction + 0.2 * k;
  }

  lemma RatioBelow(k: real, c: real, b: real)
    requires c > 0.0
    ensures (k / c < b <==> k < b * c) && (k / c > b <==> k > b * c)
  {
    var r := k / c;
    assert r * c == k;
    if r < b { Positive(b - r, c); assert (b - r) * c == b * c - r * c; }
    if r > b { Positive(r - b, c); assert (r - b) * c == r * c - b * c; }
    if r == b { assert k == b * c; }
  }

  lemma Positive(x: real, y: real)
    requires x > 0.0 && y > 0.0
    ensures x * y > 0.0
  {
  }

  /** Every observation of the run shows the same true ratio. */
  ghost predicate Steady(run: seq<Observation>, k: real) {
    forall i :: 0 <= i < |run| ==> TrueRatio(Calibrated(1.0, run[..i]), run[i], k)
  }

  lemma PowerBetween(x: real, n: nat)
    requires 0.0 <= x <= 1.0
    ensures 0.0 <= Power(x, n) <= 1.0
  {
    if n > 0 {
      PowerBetween(x, n - 1);
      Product(x, Power(x, n - 1));
    }
  }

  /** From the initial calibration, a provider with a steady true ratio is approached geometrically: after `n`
      observations the error is the initial one times 0.8 to the power `n`. */
  lemma {:induction false} SteadyConverges(run: seq<Observation>, k: real)
    requires 0.75 <= k <= 2.5 && Steady(run, k)
    ensures Calibrated(1.0, run) - k == Power(0.8, |run|) * (1.0 - k)
  {
    hide *;
    if |run| == 0 {
      NothingObserved(k);
      assert run == [];
    } else {
      var n := |run| - 1;
      SteadyPrefix(run, k);
      SteadyConverges(run[..n], k);
      PowerBetween(0.8, n);
      SteadyStep(Power(0.8, n), k, Calibrated(1.0, run[..n]), run[n]);
      LastObserved(run);
    }
  }

  lemma NothingObserved(k: real)
    ensures Calibrated(1.0, []) - k == Power(0.8, 0) * (1.0 - k)
  {
  }

  lemma LastObserved(run: seq<Observation>)
    requires |run| > 0
    ensures Calibrated(1.0, run) == Observed(Calibrated(1.0, run[..|run| - 1]), run[|run| - 1].estimated, run[|run| - 1].actual)
    ensures Power(0.8, |run|) == 0.8 * Power(0.8, |run| - 1)
  {
    hide Observed;
  }

  lemma SteadyPrefix(run: seq<Observation>, k: real)
    requires |run| > 0 && Steady(run, k)
    ensures Steady(run[..|run| - 1], k) && TrueRatio(Calibrated(1.0, run[..|run| - 1]), run[|run| - 1], k)
  {
    hide TrueRatio, Calibrated;
    var before := run[..|run| - 1];
    forall i | 0 <= i < |before| ensures TrueRatio(Calibrated(1.0, before[..i]), before[i], k) {
      assert before[..i] == run[..i];
    }
  }

  lemma SteadyStep(e: real, k: real, c: real, o: Observation)
    requires 0.0 <= e <= 1.0 && 0.75 <= k <= 2.5 && c - k == e * (1.0 - k) && TrueRatio(c, o, k)
    ensures Observed(c, o.estimated, o.actual) - k == 0.8 * e * (1.0 - k)
  {
    hide Observed, TrueRatio;
    Between(e, k, c);
    OneObservation(c, o, k);
    Rearranged(e, 1.0 - k, c - k);
  }

  lemma Rearranged(e: real, d: real, x: real)
    requires x == e * d
    ensures 0.8 * x == 0.8 * e * d
  {
  }

  lemma Product(x: real, y: real)
    requires 0.0 <= x <= 1.0 && 0.0 <= y
    ensures 0.0 <= x * y <= y
  {
  }

  lemma Shrunk(e: real, d: real, t: real)
    requires 0.0 <= e <= 1.0 && t == e * d
    ensures if d >= 0.0 then 0.0 <= t <= d else d <= t <= 0.0
  {
    if d >= 0.0 {
      Product(e, d);
    } else {
      Product(e, -d);
      assert e * (-d) == -(e * d);
    }
  }

  lemma Between(e: real, k: real, c: real)
    requires 0.0 <= e <= 1.0 && 0.75 <= k <= 2.5 && c - k == e * (1.0 - k)
    ensures 0.75 <= c <= 2.5 && 0.5 * c <= k <= 2.5 * c
  {
    Shrunk(e, 1.0 - k, c - k);
    BetweenBy(c - k, k, c);
  }

  lemma BetweenBy(t: real, k: real, c: real)
    requires 0.75 <= k <= 2.5 && c == k + t && (if k <= 1.0 then 0.0 <= t <= 1.0 - k else 1.0 - k <= t <= 0.0)
    ensures 0.75 <= c <= 2.5 && 0.5 * c <= k <= 2.5 * c
  {
  }
}
