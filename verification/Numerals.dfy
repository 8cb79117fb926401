/** Decimal digits: how they read as a number and how a number is written. */
module Numerals {
  predicate Digit(c: char) { '0' <= c <= '9' }

  function DigitValue(c: char): int
    requires Digit(c)
  {
    c as int - '0' as int
  }

  predicate AllDigits(s: string) { forall i :: 0 <= i < |s| ==> Digit(s[i]) }

  function Zeros(n: nat): (r: string)
    ensures |r| == n && AllDigits(r)
  {
    seq(n, _ => '0')
  }

  /** The decimal reading of the digits of `s`, continuing from `acc` and skipping punctuation. */
  function Reading(acc: nat, s: string): nat
    decreases |s|
  {
    if |s| == 0 then acc
    else Reading(if Digit(s[0]) then acc * 10 + DigitValue(s[0]) else acc, s[1..])
  }

  /** The usual decimal notation, without leading zeros. */
  function Decimal(n: nat): (r: string)
    ensures |r| > 0 && AllDigits(r)
  {
    if n < 10 then ['0' + n as char] else Decimal(n / 10) + ['0' + (n % 10) as char]
  }

  lemma {:induction false} ReadingAppend(acc: nat, s: string, c: char)
    requires Digit(c)
    ensures Reading(acc, s + [c]) == Reading(acc, s) * 10 + DigitValue(c)
    decreases |s|
  {
    if |s| == 0 {
      assert s + [c] == [c];
      assert [c][1..] == [];
      assert Reading(acc * 10 + DigitValue(c), [c][1..]) == acc * 10 + DigitValue(c);
    } else {
      assert (s + [c])[1..] == s[1..] + [c];
      ReadingAppend(if Digit(s[0]) then acc * 10 + DigitValue(s[0]) else acc, s[1..], c);
    }
  }

  lemma {:induction false} ReadingDecimal(n: nat)
    ensures Reading(0, Decimal(n)) == n
  {
    var c := '0' + (n % 10) as char;
    if n < 10 {
      assert Decimal(n) == [] + [c];
      ReadingAppend(0, [], c);
    } else {
      ReadingDecimal(n / 10);
      ReadingAppend(0, Decimal(n / 10), c);
    }
  }

  lemma {:induction false} ReadingZeros(k: nat, s: string)
    ensures Reading(0, Zeros(k) + s) == Reading(0, s)
  {
    if k == 0 {
      assert Zeros(0) + s == s;
    } else {
      assert (Zeros(k) + s)[1..] == Zeros(k - 1) + s;
      ReadingZeros(k - 1, s);
    }
  }

  lemma TwoDigits(s: string)
    requires |s| == 2 && AllDigits(s)
    ensures Reading(0, s) == 10 * DigitValue(s[0]) + DigitValue(s[1])
  {
    assert s == [s[0]] + [s[1]] && [s[0]] == [] + [s[0]];
    ReadingAppend(0, [s[0]], s[1]);
    ReadingAppend(0, [], s[0]);
  }

  function Tens(k: nat): nat { if k == 0 then 1 else 10 * Tens(k - 1) }

  /** Reading on from a number puts it in front. */
  lemma {:induction false} ReadingFrom(acc: nat, s: string)
    requires AllDigits(s)
    ensures Reading(acc, s) == acc * Tens(|s|) + Reading(0, s) && Reading(0, s) < Tens(|s|)
    decreases |s|
  {
    if |s| > 0 {
      var n := |s| - 1;
      assert s == s[..n] + [s[n]];
      ReadingFrom(acc, s[..n]);
      ReadingAppend(acc, s[..n], s[n]);
      ReadingAppend(0, s[..n], s[n]);
      assert acc * Tens(n) * 10 == acc * Tens(|s|);
    }
  }

  lemma {:induction false} ReadingConcat(acc: nat, a: string, b: string)
    ensures Reading(acc, a + b) == Reading(Reading(acc, a), b)
    decreases |a|
  {
    if |a| == 0 {
      assert a + b == b;
    } else {
      assert (a + b)[1..] == a[1..] + b;
      ReadingConcat(if Digit(a[0]) then acc * 10 + DigitValue(a[0]) else acc, a[1..], b);
    }
  }

  lemma ReadingNoDigits(k: nat)
    ensures Reading(0, Zeros(k)) == 0
  {
    ReadingZeros(k, "");
    assert Zeros(k) + "" == Zeros(k);
  }

  /** Two digits are determined by their number. */
  lemma ReadingTwoUnique(a: string, b: string)
    requires |a| == |b| == 2 && AllDigits(a) && AllDigits(b) && Reading(0, a) == Reading(0, b)
    ensures a == b
  {
    TwoDigits(a);
    TwoDigits(b);
  }
}
