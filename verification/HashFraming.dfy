/** The framing of hash inputs: each part is written as its length, a colon and its bytes. Strings are byte
    sequences. */
module HashFraming {
  import opened Basics
  import opened Numerals

  /** `writeHashPart`. */
  function Framed(part: string): string { Decimal(|part|) + ":" + part }

  function Stream(parts: seq<string>): string {
    if |parts| == 0 then "" else Framed(parts[0]) + Stream(parts[1..])
  }

  method WriteHashParts(parts: seq<string>) returns (written: string)
    ensures written == Stream(parts)
  {
    written := "";
    for k := 0 to |parts|
      invariant written + Stream(parts[k..]) == Stream(parts)
    {
      assert parts[k..][0] == parts[k] && parts[k..][1..] == parts[k + 1..];
      written := written + Decimal(|parts[k]|) + ":" + parts[k];
    }
    assert written + "" == written;
  }

  /** A length ends at the first colon, so two framed texts with the same bytes have the same lengths and the same
      rest. */
  lemma LengthsAgree(m: nat, x: string, n: nat, y: string)
    requires Decimal(m) + ":" + x == Decimal(n) + ":" + y
    ensures m == n && x == y
  {
    var a, b := Decimal(m), Decimal(n);
    ColonEndsDigits(a, x, b, y);
    ColonEndsDigits(b, y, a, x);
    assert a == (a + ":" + x)[..|a|] && b == (b + ":" + y)[..|b|];
    assert x == (a + ":" + x)[|a| + 1..] && y == (b + ":" + y)[|b| + 1..];
    ReadingDecimal(m);
    ReadingDecimal(n);
  }

  lemma ColonEndsDigits(a: string, x: string, b: string, y: string)
    requires AllDigits(a) && AllDigits(b) && a + ":" + x == b + ":" + y
    ensures |a| >= |b|
  {
    assert (a + ":" + x)[|a|] == ':';
    if |a| < |b| { DigitsHaveNoColon(b, y, |a|); }
  }

  lemma DigitsHaveNoColon(b: string, y: string, i: nat)
    requires AllDigits(b) && i < |b|
    ensures (b + ":" + y)[i] != ':'
  {
    assert (b + ":" + y)[i] == b[i];
  }

  /** A stream of framed parts is uniquely decodable: different sequences of parts never give the same bytes. */
  lemma {:induction false} StreamDecodesUniquely(a: seq<string>, b: seq<string>)
    requires Stream(a) == Stream(b)
    ensures a == b
  {
    if |a| > 0 && |b| > 0 {
      var p, q := a[0], b[0];
      var x, y := p + Stream(a[1..]), q + Stream(b[1..]);
      assert Stream(a) == Decimal(|p|) + ":" + x;
      assert Stream(b) == Decimal(|q|) + ":" + y;
      LengthsAgree(|p|, x, |q|, y);
      assert p == x[..|p|] && q == y[..|q|];
      assert Stream(a[1..]) == x[|p|..] && Stream(b[1..]) == y[|q|..];
      StreamDecodesUniquely(a[1..], b[1..]);
    } else {
      if |a| > 0 { StreamIsNotEmpty(a); }
      if |b| > 0 { StreamIsNotEmpty(b); }
    }
  }

  lemma StreamIsNotEmpty(a: seq<string>)
    requires |a| > 0
    ensures Stream(a) != ""
  {
  }

  // ----- Reading a stream -----

  /** Where the first colon stands. */
  function ColonAt(s: string): nat { if |s| == 0 || s[0] == ':' then 0 else 1 + ColonAt(s[1..]) }

  /** One part: its length, a colon, and so many bytes. */
  function ReadPart(s: string): Option<(string, string)> {
    var i := ColonAt(s);
    if i >= |s| then None
    else
      var n := Reading(0, s[..i]);
      if i + 1 + n > |s| then None else Some((s[i + 1..i + 1 + n], s[i + 1 + n..]))
  }

  lemma {:induction false} ColonAfterDigits(d: string, t: string)
    requires AllDigits(d)
    ensures ColonAt(d + ":" + t) == |d|
  {
    if |d| == 0 {
      assert d + ":" + t == ":" + t;
    } else {
      assert d[0] != ':' && (d + ":" + t)[1..] == d[1..] + ":" + t;
      ColonAfterDigits(d[1..], t);
    }
  }

  /** A framed part reads back as the part, whatever follows it. */
  lemma PartReadsBack(part: string, rest: string)
    ensures ReadPart(Framed(part) + rest) == Some((part, rest))
  {
    var d, s := Decimal(|part|), Framed(part) + rest;
    assert s == d + ":" + (part + rest);
    ColonAfterDigits(d, part + rest);
    ReadingDecimal(|part|);
    assert s[..|d|] == d && s[|d| + 1..] == part + rest;
    assert s[|d| + 1..|d| + 1 + |part|] == part && s[|d| + 1 + |part|..] == rest;
  }
}
