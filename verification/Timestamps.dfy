/** Canonical UTC timestamps: the accepted texts, the nine-digit sort key that orders a manifest and the
    microsecond instant that a cutoff is compared with. */
module Timestamps {
  import opened Numerals
  import opened Ordering

  /** Positions of the date and time digits in `YYYY-MM-DDTHH:MM:SS`. */
  predicate WholeShape(s: string) {
    && |s| == 19
    && s[4] == '-' && s[7] == '-' && s[10] == 'T' && s[13] == ':' && s[16] == ':'
    && AllDigits(s[..4]) && AllDigits(s[5..7]) && AllDigits(s[8..10])
    && AllDigits(s[11..13]) && AllDigits(s[14..16]) && AllDigits(s[17..])
  }

  predicate LeapYear(y: int) { y % 4 == 0 && (y % 100 != 0 || y % 400 == 0) }

  function DaysInMonth(y: int, m: int): int {
    if m == 2 then (if LeapYear(y) then 29 else 28)
    else if m == 4 || m == 6 || m == 9 || m == 11 then 30
    else 31
  }

  /** The date exists and the time of day is within its fields. */
  predicate CalendarOk(s: string)
    requires WholeShape(s)
  {
    var y, m, d := Reading(0, s[..4]), Reading(0, s[5..7]), Reading(0, s[8..10]);
    && 1 <= y && 1 <= m <= 12 && 1 <= d <= DaysInMonth(y, m)
    && Reading(0, s[11..13]) <= 23 && Reading(0, s[14..16]) <= 59 && Reading(0, s[17..]) <= 59
  }

  /** The texts `parse_utc` accepts. */
  predicate UtcText(s: string) {
    && |s| >= 20 && s[|s| - 1] == 'Z'
    && WholeShape(s[..19]) && CalendarOk(s[..19])
    && (|s| == 20 || (22 <= |s| <= 30 && s[19] == '.' && AllDigits(s[20..|s| - 1])))
  }

  // ----- Printing -----

  function Two(n: nat): (r: string)
    requires n < 100
    ensures |r| == 2 && AllDigits(r) && Reading(0, r) == n
  {
    var r := ['0' + (n / 10) as char, '0' + (n % 10) as char];
    TwoDigits(r);
    r
  }

  function Four(n: nat): (r: string)
    requires n < 10000
    ensures |r| == 4 && AllDigits(r) && Reading(0, r) == n
  {
    var a, b := Two(n / 100), Two(n % 100);
    ReadingAppend(0, a, b[0]);
    ReadingAppend(0, a + [b[0]], b[1]);
    TwoDigits(b);
    assert a + b == a + [b[0]] + [b[1]];
    a + b
  }

  predicate Calendar(y: nat, m: nat, d: nat) { 1 <= y <= 9999 && 1 <= m <= 12 && 1 <= d <= DaysInMonth(y, m) }

  function Joined(a: string, c: char, b: string): (r: string)
    ensures |r| == |a| + 1 + |b| && r[..|a|] == a && r[|a|] == c && r[|a| + 1..] == b
  {
    a + [c] + b
  }

  function Stamp(y: nat, m: nat, d: nat, h: nat, minute: nat, s: nat): string
    requires Calendar(y, m, d) && h <= 23 && minute <= 59 && s <= 59
  {
    Joined(Joined(Joined(Four(y), '-', Two(m)), '-', Two(d)), 'T', Joined(Joined(Two(h), ':', Two(minute)), ':', Two(s))) + "Z"
  }

  lemma TripleFields(a: string, b: string, c: string, x: char)
    ensures var t, n := Joined(Joined(a, x, b), x, c), |a| + |b|;
            && |t| == n + |c| + 2 && t[|a|] == x && t[n + 1] == x
            && t[..|a|] == a && t[|a| + 1..n + 1] == b && t[n + 2..] == c
  {
    hide Joined;
    var u := Joined(a, x, b);
    var t := Joined(u, x, c);
    var k := |u|;
    assert t[..k] == u;
    assert t[|a|] == u[|a|] && t[..|a|] == u[..|a|] && t[|a| + 1..k] == u[|a| + 1..];
  }

  lemma FieldsOf(date: string, time: string)
    requires |date| == 10 && |time| == 8
    ensures var t := Joined(date, 'T', time);
            && |t| == 19 && (t + "Z")[..19] == t && t[10] == 'T'
            && t[4] == date[4] && t[7] == date[7] && t[13] == time[2] && t[16] == time[5]
            && t[..4] == date[..4] && t[5..7] == date[5..7] && t[8..10] == date[8..]
            && t[11..13] == time[..2] && t[14..16] == time[3..5] && t[17..] == time[6..]
  {
    hide Joined;
    var t := Joined(date, 'T', time);
    assert t[..10] == date && t[11..] == time;
    assert t[4] == t[..10][4] && t[7] == t[..10][7] && t[13] == t[11..][2] && t[16] == t[11..][5];
    assert t[..4] == t[..10][..4] && t[5..7] == t[..10][5..7] && t[8..10] == t[..10][8..];
    assert t[11..13] == t[11..][..2] && t[14..16] == t[11..][3..5] && t[17..] == t[11..][6..];
  }

  /** Every time of every calendar day prints to an accepted text. */
  lemma StampIsUtc(y: nat, m: nat, d: nat, h: nat, minute: nat, s: nat)
    requires Calendar(y, m, d) && h <= 23 && minute <= 59 && s <= 59
    ensures UtcText(Stamp(y, m, d, h, minute, s))
  {
    hide Two, Four, Joined;
    TripleFields(Four(y), Two(m), Two(d), '-');
    TripleFields(Two(h), Two(minute), Two(s), ':');
    FieldsOf(Joined(Joined(Four(y), '-', Two(m)), '-', Two(d)), Joined(Joined(Two(h), ':', Two(minute)), ':', Two(s)));
  }

  /** The fraction, padded on the right to nanoseconds. */
  function Nanos(s: string): (f: string)
    requires UtcText(s)
    ensures |f| == 9 && AllDigits(f)
  {
    if |s| == 20 then Zeros(9)
    else
      var f := s[20..|s| - 1];
      f + Zeros(9 - |f|)
  }

  /** `_utc_sort_key` of one text precedes that of another. */
  predicate KeyLess(a: string, b: string)
    requires UtcText(a) && UtcText(b)
  {
    Less(a[..19], b[..19]) || (a[..19] == b[..19] && Less(Nanos(a), Nanos(b)))
  }

  predicate KeyEqual(a: string, b: string)
    requires UtcText(a) && UtcText(b)
  {
    a[..19] == b[..19] && Nanos(a) == Nanos(b)
  }

  /** The instant a text denotes after truncation to microseconds. All fields have a fixed width, so reading
      them as one number orders instants as the calendar does. */
  function Instant(s: string): nat
    requires UtcText(s)
  {
    Reading(Reading(0, s[..19]), Nanos(s)[..6])
  }

  /** The two texts carry digits, and equal punctuation, at the same places. */
  ghost predicate SameShape(a: string, b: string) {
    |a| == |b| && forall i :: 0 <= i < |a| ==> (Digit(a[i]) <==> Digit(b[i])) && (!Digit(a[i]) ==> a[i] == b[i])
  }

  lemma {:induction false} ReadingKeepsLead(x: nat, y: nat, a: string, b: string)
    requires SameShape(a, b) && x < y
    ensures Reading(x, a) < Reading(y, b)
    decreases |a|
  {
    if |a| > 0 {
      var x' := if Digit(a[0]) then x * 10 + DigitValue(a[0]) else x;
      var y' := if Digit(b[0]) then y * 10 + DigitValue(b[0]) else y;
      ReadingKeepsLead(x', y', a[1..], b[1..]);
    }
  }

  lemma {:induction false} ReadingMonotone(x: nat, a: string, b: string)
    requires SameShape(a, b) && Less(a, b)
    ensures Reading(x, a) < Reading(x, b)
    decreases |a|
  {
    if a[0] == b[0] {
      ReadingMonotone(if Digit(a[0]) then x * 10 + DigitValue(a[0]) else x, a[1..], b[1..]);
    } else {
      ReadingKeepsLead(x * 10 + DigitValue(a[0]), x * 10 + DigitValue(b[0]), a[1..], b[1..]);
    }
  }

  lemma {:induction false} PrefixMonotone(a: string, b: string, n: nat)
    requires |a| == |b| && n <= |a| && Less(a, b)
    ensures a[..n] == b[..n] || Less(a[..n], b[..n])
    decreases n
  {
    if n > 0 && a[0] == b[0] {
      PrefixMonotone(a[1..], b[1..], n - 1);
      assert a[..n] == [a[0]] + a[1..][..n - 1] && b[..n] == [b[0]] + b[1..][..n - 1];
      assert a[..n][1..] == a[1..][..n - 1] && b[..n][1..] == b[1..][..n - 1];
    }
  }

  lemma WholesShareShape(a: string, b: string)
    requires WholeShape(a) && WholeShape(b)
    ensures SameShape(a, b)
  {
    ShapeAt(a);
    ShapeAt(b);
  }

  /** Where the digits of a whole-second text stand. */
  lemma ShapeAt(a: string)
    requires WholeShape(a)
    ensures forall i :: 0 <= i < 19 ==> (Digit(a[i]) <==> i !in {4, 7, 10, 13, 16})
  {
    forall i | 0 <= i < 19 && i !in {4, 7, 10, 13, 16} ensures Digit(a[i]) {
      if i < 4 { assert a[i] == a[..4][i]; }
      else if i < 7 { assert a[i] == a[5..7][i - 5]; }
      else if i < 10 { assert a[i] == a[8..10][i - 8]; }
      else if i < 13 { assert a[i] == a[11..13][i - 11]; }
      else if i < 16 { assert a[i] == a[14..16][i - 14]; }
      else { assert a[i] == a[17..][i - 17]; }
    }
  }

  /** Truncation never reverses the manifest order: an earlier sort key is not a later instant. */
  lemma KeyOrderIsInstantOrder(a: string, b: string)
    requires UtcText(a) && UtcText(b)
    requires KeyLess(a, b) || KeyEqual(a, b)
    ensures Instant(a) <= Instant(b)
  {
    WholesShareShape(a[..19], b[..19]);
    var fa, fb := Nanos(a)[..6], Nanos(b)[..6];
    assert SameShape(fa, fb);
    if Less(a[..19], b[..19]) {
      ReadingMonotone(0, a[..19], b[..19]);
      ReadingKeepsLead(Reading(0, a[..19]), Reading(0, b[..19]), fa, fb);
    } else if !KeyEqual(a, b) {
      PrefixMonotone(Nanos(a), Nanos(b), 6);
      if fa != fb { ReadingMonotone(Reading(0, a[..19]), fa, fb); }
    }
  }

  /** Texts that agree down to the microsecond. */
  predicate SameMicrosecond(a: string, b: string)
    requires UtcText(a) && UtcText(b)
  {
    a[..19] == b[..19] && Nanos(a)[..6] == Nanos(b)[..6]
  }

  /** Truncation makes a later text count as no later exactly if the two agree down to the microsecond. */
  lemma LaterCountsExactly(cutoff: string, a: string)
    requires UtcText(cutoff) && UtcText(a) && KeyLess(cutoff, a)
    ensures Instant(a) <= Instant(cutoff) <==> SameMicrosecond(cutoff, a)
  {
    WholesShareShape(cutoff[..19], a[..19]);
    var fc, fa := Nanos(cutoff)[..6], Nanos(a)[..6];
    assert SameShape(fc, fa);
    if Less(cutoff[..19], a[..19]) {
      LessIrreflexive(a[..19]);
      ReadingMonotone(0, cutoff[..19], a[..19]);
      ReadingKeepsLead(Reading(0, cutoff[..19]), Reading(0, a[..19]), fc, fa);
    } else {
      PrefixMonotone(Nanos(cutoff), Nanos(a), 6);
      if fc != fa { ReadingMonotone(Reading(0, cutoff[..19]), fc, fa); }
    }
  }

  /** A text counts as no later than a cutoff exactly if it is no later, or agrees with it down to the microsecond. */
  lemma CountsExactly(cutoff: string, a: string)
    requires UtcText(cutoff) && UtcText(a)
    ensures Instant(a) <= Instant(cutoff) <==> !KeyLess(cutoff, a) || SameMicrosecond(cutoff, a)
  {
    if KeyLess(cutoff, a) {
      LaterCountsExactly(cutoff, a);
    } else {
      LessTotal(cutoff[..19], a[..19]);
      LessTotal(Nanos(cutoff), Nanos(a));
      KeyOrderIsInstantOrder(a, cutoff);
    }
  }

  /** So no later text without digits beyond the microsecond does. */
  lemma WholeMicrosecondsCountExactly(cutoff: string, a: string)
    requires UtcText(cutoff) && UtcText(a) && Nanos(a)[6..] == Zeros(3)
    ensures Instant(a) <= Instant(cutoff) <==> !KeyLess(cutoff, a)
  {
    CountsExactly(cutoff, a);
    var n, m := Nanos(cutoff), Nanos(a);
    assert n == n[..6] + n[6..] && m == m[..6] + Zeros(3);
    LessIrreflexive(a[..19]);
    NothingBelowZeros(n[6..], Zeros(3));
    if KeyLess(cutoff, a) && n[..6] == m[..6] && cutoff[..19] == a[..19] { LessWithoutPrefix(n[..6], n[6..], Zeros(3)); }
  }

  lemma {:induction false} LessWithoutPrefix(p: string, a: string, b: string)
    requires Less(p + a, p + b)
    ensures Less(a, b)
    decreases |p|
  {
    if |p| == 0 {
      assert p + a == a && p + b == b;
    } else {
      assert (p + a)[1..] == p[1..] + a && (p + b)[1..] == p[1..] + b;
      LessWithoutPrefix(p[1..], a, b);
    }
  }

  /** The exception is real: every text of a whole second has a family of later texts with its own instant. */
  lemma TruncationAdmitsLater(w: string, tail: string)
    requires WholeShape(w) && CalendarOk(w)
    requires |tail| == 3 && AllDigits(tail) && tail != "000"
    ensures var cutoff, created := w + "Z", w + ("." + Zeros(6) + tail + "Z");
            UtcText(cutoff) && UtcText(created) && KeyLess(cutoff, created) && Instant(created) == Instant(cutoff)
  {
    var cutoff, created := w + "Z", w + ("." + Zeros(6) + tail + "Z");
    assert cutoff[..19] == w && created[..19] == w;
    var f := Zeros(6) + tail;
    assert |created| == 30 && created[20..|created| - 1] == f;
    assert Nanos(created) == f;
    assert Nanos(cutoff) == Zeros(6) + Zeros(3);
    ZerosFirst(tail);
    LessAfterPrefix(Zeros(6), Zeros(3), tail);
    assert Nanos(created)[..6] == Zeros(6) == Nanos(cutoff)[..6];
  }

  lemma ZerosFirst(tail: string)
    requires |tail| == 3 && AllDigits(tail) && tail != "000"
    ensures Less(Zeros(3), tail)
  {
    LessTotal(Zeros(3), tail);
    assert Zeros(3) == "000";
    if Less(tail, "000") { NothingBelowZeros(tail, "000"); }
  }

  lemma {:induction false} NothingBelowZeros(a: string, z: string)
    requires |a| == |z| && AllDigits(a) && forall i :: 0 <= i < |z| ==> z[i] == '0'
    ensures !Less(a, z)
    decreases |a|
  {
    if |a| > 0 { NothingBelowZeros(a[1..], z[1..]); }
  }

  lemma {:induction false} LessAfterPrefix(p: string, a: string, b: string)
    requires Less(a, b)
    ensures Less(p + a, p + b)
    decreases |p|
  {
    if |p| == 0 {
      assert p + a == a && p + b == b;
    } else {
      LessAfterPrefix(p[1..], a, b);
      assert (p + a)[1..] == p[1..] + a && (p + b)[1..] == p[1..] + b;
    }
  }
}
