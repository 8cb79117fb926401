/** What a timestamp denotes, in nanoseconds: an account of the texts that owes nothing to the sort key or to the
    truncation, and against which both are judged. */
module Moments {
  import opened Numerals
  import opened Ordering
  import opened Timestamps

  // ----- The texts -----

  /** The digits behind the point, if there are any. */
  function Fraction(s: string): (f: string)
    requires UtcText(s)
    ensures |f| <= 9 && AllDigits(f)
  {
    if |s| == 20 then "" else s[20..|s| - 1]
  }

  /** The date and the time of day as one number of two-digit fields. */
  function Fields(y: nat, m: nat, d: nat, h: nat, minute: nat, s: nat): nat {
    ((((y * 100 + m) * 100 + d) * 100 + h) * 100 + minute) * 100 + s
  }

  function WholeOf(s: string): nat
    requires UtcText(s)
  {
    Fields(Reading(0, s[..4]), Reading(0, s[5..7]), Reading(0, s[8..10]), Reading(0, s[11..13]), Reading(0, s[14..16]), Reading(0, s[17..19]))
  }

  /** A fraction of `n` digits counts units of ten to the minus `n` seconds. */
  function NanosOf(s: string): nat
    requires UtcText(s)
  {
    Reading(0, Fraction(s)) * Tens(9 - |Fraction(s)|)
  }

  function Moment(s: string): nat
    requires UtcText(s)
  {
    WholeOf(s) * 1_000_000_000 + NanosOf(s)
  }

  // ----- The padded fraction -----

  /** The padded fraction has the value of the fraction. */
  lemma NanosRead(s: string)
    requires UtcText(s)
    ensures Reading(0, Nanos(s)) == NanosOf(s) < 1_000_000_000
  {
    var f := Fraction(s);
    var z := Zeros(9 - |f|);
    assert Nanos(s) == f + z;
    ReadingConcat(0, f, z);
    ReadingFrom(Reading(0, f), z);
    ReadingNoDigits(9 - |f|);
    ReadingFrom(0, Nanos(s));
    TensValues();
  }

  lemma TensValues()
    ensures Tens(3) == 1000 && Tens(6) == 1_000_000 && Tens(9) == 1_000_000_000 && Tens(2) == 100
  {
    assert Tens(1) == 10 && Tens(2) == 100 && Tens(3) == 1000 && Tens(4) == 10000 && Tens(5) == 100000;
    assert Tens(6) == 1_000_000 && Tens(7) == 10_000_000 && Tens(8) == 100_000_000;
  }

  // ----- The whole seconds -----

  lemma NextField(acc: nat, c: char, x: string)
    requires |x| == 2 && AllDigits(x) && !Digit(c)
    ensures Reading(acc, [c] + x) == acc * 100 + Reading(0, x)
  {
    assert ([c] + x)[1..] == x;
    ReadingFrom(acc, x);
    TensValues();
  }

  /** Reading the date and time straight through gives the number of their fields. */
  lemma WholeReads(s: string)
    requires UtcText(s)
    ensures Reading(0, s[..19]) == WholeOf(s)
  {
    var w := s[..19];
    var y, m, d := Reading(0, s[..4]), Reading(0, s[5..7]), Reading(0, s[8..10]);
    assert w[..4] == s[..4] && w[5..7] == s[5..7] && w[8..10] == s[8..10];
    assert w[11..13] == s[11..13] && w[14..16] == s[14..16] && w[17..] == w[17..19] == s[17..19] && w[..19] == w;
    assert AllDigits(w[5..7]) && AllDigits(w[8..10]) && AllDigits(w[11..13]) && AllDigits(w[14..16]) && AllDigits(w[17..19]);
    hide Reading, CalendarOk;
    StepField(w, 4, '-');
    StepField(w, 7, '-');
    StepField(w, 10, 'T');
    StepField(w, 13, ':');
    StepField(w, 16, ':');
  }

  /** Three more characters of a date and time: a separator and a field. */
  lemma StepField(w: string, i: nat, c: char)
    requires i + 3 <= |w| && w[i] == c && !Digit(c) && AllDigits(w[i + 1..i + 3])
    ensures Reading(0, w[..i + 3]) == Reading(0, w[..i]) * 100 + Reading(0, w[i + 1..i + 3])
  {
    assert w[..i + 3] == w[..i] + ([c] + w[i + 1..i + 3]);
    ReadingConcat(0, w[..i], [c] + w[i + 1..i + 3]);
    NextField(Reading(0, w[..i]), c, w[i + 1..i + 3]);
  }

  /** The truncated instant is the moment in whole microseconds. */
  lemma InstantIsMoment(s: string)
    requires UtcText(s)
    ensures Instant(s) == Moment(s) / 1000
  {
    var n := Nanos(s);
    var a, b := n[..6], n[6..];
    assert n == a + b;
    ReadingConcat(0, a, b);
    ReadingFrom(Reading(0, a), b);
    ReadingFrom(Reading(0, s[..19]), a);
    TensValues();
    NanosRead(s);
    WholeReads(s);
    hide Reading, Nanos, NanosOf, WholeOf, UtcText, Tens;
    Thousands(WholeOf(s), Reading(0, a), Reading(0, b));
  }

  lemma Thousands(w: nat, a: nat, b: nat)
    requires b < 1000
    ensures (w * 1_000_000_000 + (a * 1000 + b)) / 1000 == w * 1_000_000 + a
  {
  }

  /** The manifest order is the order of the moments. */
  lemma KeyOrderIsMomentOrder(a: string, b: string)
    requires UtcText(a) && UtcText(b)
    ensures KeyLess(a, b) <==> Moment(a) < Moment(b)
    ensures KeyEqual(a, b) <==> Moment(a) == Moment(b)
  {
    LessTotal(a[..19], b[..19]);
    LessTotal(Nanos(a), Nanos(b));
    KeyLessIsEarlier(a, b);
    KeyLessIsEarlier(b, a);
    if KeyEqual(a, b) {
      LessIrreflexive(a[..19]);
      LessIrreflexive(Nanos(a));
      WholeReads(a);
      WholeReads(b);
      NanosRead(a);
      NanosRead(b);
    }
  }

  lemma KeyLessIsEarlier(a: string, b: string)
    requires UtcText(a) && UtcText(b)
    ensures KeyLess(a, b) ==> Moment(a) < Moment(b)
  {
    WholeReads(a);
    WholeReads(b);
    NanosRead(a);
    NanosRead(b);
    WholesShareShape(a[..19], b[..19]);
    assert SameShape(Nanos(a), Nanos(b));
    if Less(a[..19], b[..19]) {
      ReadingMonotone(0, a[..19], b[..19]);
    } else if KeyLess(a, b) {
      ReadingMonotone(0, Nanos(a), Nanos(b));
    }
  }

  /** One more zero behind the point gives an accepted text with the same key, the same instant and the same moment. */
  lemma TrailingZero(s: string, t: string)
    requires UtcText(s) && |s| < 30 && t == s[..|s| - 1] + (if |s| == 20 then ".0Z" else "0Z")
    ensures UtcText(t) && KeyEqual(s, t) && Instant(t) == Instant(s) && Moment(t) == Moment(s)
  {
    LongerIsUtc(s, t);
    var f, g := Fraction(s), Fraction(t);
    assert Nanos(t) == g + Zeros(9 - |g|) && Nanos(s) == f + Zeros(9 - |f|);
    assert Zeros(9 - |f|) == "0" + Zeros(9 - |g|);
    assert f + ("0" + Zeros(9 - |g|)) == (f + "0") + Zeros(9 - |g|);
    hide UtcText, Fraction, Moment;
    KeyOrderIsMomentOrder(s, t);
  }

  lemma LongerIsUtc(s: string, t: string)
    requires UtcText(s) && |s| < 30 && t == s[..|s| - 1] + (if |s| == 20 then ".0Z" else "0Z")
    ensures UtcText(t) && Fraction(t) == Fraction(s) + "0" && t[..19] == s[..19]
  {
    hide WholeShape, CalendarOk;
    assert t[..19] == s[..19];
    assert t[20..|t| - 1] == Fraction(s) + "0";
  }

  // ----- Parsing undoes printing -----

  /** The accepted texts without a fraction are exactly the printed ones. */
  lemma UtcTextsAreStamps(s: string)
    requires UtcText(s)
    ensures var y, m, d, h, n, z := Reading(0, s[..4]), Reading(0, s[5..7]), Reading(0, s[8..10]), Reading(0, s[11..13]), Reading(0, s[14..16]), Reading(0, s[17..19]);
            && Calendar(y, m, d) && h <= 23 && n <= 59 && z <= 59 && s[..19] + "Z" == Stamp(y, m, d, h, n, z)
  {
    var w := s[..19];
    assert w[..4] == s[..4] && w[5..7] == s[5..7] && w[8..10] == s[8..10];
    assert w[11..13] == s[11..13] && w[14..16] == s[14..16] && w[17..] == s[17..19];
    ReadingFrom(0, s[..4]);
    TensValues();
    assert Tens(4) == 10 * Tens(3);
    FourIsUnique(s[..4]);
    hide Reading;
    TwoIsUnique(s[5..7]);
    TwoIsUnique(s[8..10]);
    TwoIsUnique(s[11..13]);
    TwoIsUnique(s[14..16]);
    TwoIsUnique(s[17..19]);
    Rejoined(w);
  }

  lemma TwoIsUnique(x: string)
    requires |x| == 2 && AllDigits(x)
    ensures Reading(0, x) < 100 && Two(Reading(0, x)) == x
  {
    TwoDigits(x);
    ReadingTwoUnique(Two(Reading(0, x)), x);
  }

  lemma FourIsUnique(x: string)
    requires |x| == 4 && AllDigits(x)
    ensures Reading(0, x) < 10000 && Four(Reading(0, x)) == x
  {
    var a, b := x[..2], x[2..];
    assert x == a + b;
    ReadingConcat(0, a, b);
    ReadingFrom(Reading(0, a), b);
    TensValues();
    TwoIsUnique(a);
    TwoIsUnique(b);
    hide Reading, Tens, Two;
    Hundreds(Reading(0, a), Reading(0, b));
    assert Four(Reading(0, x)) == Two(Reading(0, a)) + Two(Reading(0, b));
  }

  lemma Hundreds(a: nat, b: nat)
    requires a < 100 && b < 100
    ensures (a * 100 + b) / 100 == a && (a * 100 + b) % 100 == b && a * 100 + b < 10000
  {
  }

  lemma Rejoined(w: string)
    requires WholeShape(w)
    ensures w == Joined(Joined(Joined(w[..4], '-', w[5..7]), '-', w[8..10]), 'T', Joined(Joined(w[11..13], ':', w[14..16]), ':', w[17..]))
  {
    assert w[..7] == Joined(w[..4], '-', w[5..7]);
    assert w[..10] == Joined(w[..7], '-', w[8..10]);
    assert w[11..16] == Joined(w[11..13], ':', w[14..16]);
    assert w[11..] == Joined(w[11..16], ':', w[17..]);
    assert w == Joined(w[..10], 'T', w[11..]);
  }
}
