/** The UTF-8 form of a text: what the byte counts of the messages count, and where a cut leaves whole characters. */
module TextBytes {
  import opened ContextMessages

  /** The bytes of one character. */
  function Encoded(c: char): (b: seq<int>)
    ensures |b| == Bytes(c)
    ensures !Continues(b[0]) && forall i :: 0 < i < |b| ==> Continues(b[i])
  {
    var n := c as int;
    if n < 0x80 then [n]
    else if n < 0x800 then [0xC0 + n / 64, 0x80 + n % 64]
    else if n < 0x10000 then [0xE0 + n / 4096, 0x80 + n / 64 % 64, 0x80 + n % 64]
    else [0xF0 + n / 262144, 0x80 + n / 4096 % 64, 0x80 + n / 64 % 64, 0x80 + n % 64]
  }

  /** A byte that is not the first of its character. */
  predicate Continues(b: int) { 0x80 <= b < 0xC0 }

  function Encoding(s: string): seq<int> {
    if |s| == 0 then [] else Encoding(s[..|s| - 1]) + Encoded(s[|s| - 1])
  }

  /** `len` of a text is the length of its UTF-8 form. */
  lemma {:induction false} ByteLengthIsEncoding(s: string)
    ensures ByteLength(s) == |Encoding(s)|
  {
    if |s| > 0 { ByteLengthIsEncoding(s[..|s| - 1]); }
  }

  /** A cut leaves whole characters exactly if no continuation byte follows it. */
  lemma {:induction false} BoundaryIsLead(s: string, cut: nat)
    requires cut <= |Encoding(s)|
    ensures Boundary(s, cut) <==> cut == |Encoding(s)| || !Continues(Encoding(s)[cut])
  {
    hide Encoded;
    ByteLengthIsEncoding(s);
    if cut == |Encoding(s)| {
      assert s[..|s|] == s;
    } else {
      var n := |s| - 1;
      var t := s[..n];
      ByteLengthIsEncoding(t);
      BoundaryShrinks(s, cut);
      if cut < |Encoding(t)| {
        BoundaryIsLead(t, cut);
      } else {
        assert Encoding(s)[cut] == Encoded(s[n])[cut - |Encoding(t)|];
        if cut == |Encoding(t)| { assert t[..n] == t && s[..n] == t; }
      }
    }
  }

  /** A boundary before the end is one of the text without its last character. */
  lemma BoundaryShrinks(s: string, cut: nat)
    requires |s| > 0 && cut < ByteLength(s)
    ensures Boundary(s, cut) <==> Boundary(s[..|s| - 1], cut)
    ensures cut > ByteLength(s[..|s| - 1]) ==> !Boundary(s, cut)
  {
    var n := |s| - 1;
    var t := s[..n];
    assert s[..|s|] == s;
    forall k | 0 <= k <= n ensures s[..k] == t[..k] && ByteLength(t[..k]) <= ByteLength(t) {
      assert t[..n] == t;
      ByteLengthGrows(t, k, n);
    }
  }

  /** The character that a run of bytes stands for. */
  function Decoded(b: seq<int>): int {
    if |b| == 1 then b[0]
    else if |b| == 2 then (b[0] - 0xC0) * 64 + (b[1] - 0x80)
    else if |b| == 3 then (b[0] - 0xE0) * 4096 + (b[1] - 0x80) * 64 + (b[2] - 0x80)
    else if |b| == 4 then (b[0] - 0xF0) * 262144 + (b[1] - 0x80) * 4096 + (b[2] - 0x80) * 64 + (b[3] - 0x80)
    else 0
  }

  /** The bytes of a character give it back. */
  lemma DecodesBack(c: char)
    ensures Decoded(Encoded(c)) == c as int
  {
    var n := c as int;
    Sixties(n);
    Sixties(n / 64);
    Sixties(n / 4096);
  }

  lemma Sixties(n: nat)
    ensures n == n / 64 * 64 + n % 64 && n / 64 / 64 == n / 4096 && n / 4096 / 64 == n / 262144
  {
  }

  /** Different texts have different UTF-8 forms. */
  lemma {:induction false} EncodingIsUnique(s: string, t: string)
    requires Encoding(s) == Encoding(t)
    ensures s == t
  {
    hide Encoded, Decoded, Continues;
    if |s| > 0 && |t| > 0 {
      LastEncoded(s);
      LastEncoded(t);
      LastCharacter(Encoding(s[..|s| - 1]), Encoded(s[|s| - 1]), Encoding(t[..|t| - 1]), Encoded(t[|t| - 1]));
      EncodingIsUnique(s[..|s| - 1], t[..|t| - 1]);
      assert s == s[..|s| - 1] + [s[|s| - 1]] && t == t[..|t| - 1] + [t[|t| - 1]];
    }
  }

  lemma LastEncoded(s: string)
    requires |s| > 0
    ensures var c := s[|s| - 1];
            && Encoding(s) == Encoding(s[..|s| - 1]) + Encoded(c) && Decoded(Encoded(c)) == c as int
            && |Encoded(c)| > 0 && Encoding(s) != [] && !Continues(Encoded(c)[0]) && forall i :: 0 < i < |Encoded(c)| ==> Continues(Encoded(c)[i])
  {
    DecodesBack(s[|s| - 1]);
    hide Decoded;
  }

  lemma LastCharacter(x: seq<int>, p: seq<int>, y: seq<int>, q: seq<int>)
    requires x + p == y + q && |p| > 0 && |q| > 0 && !Continues(p[0]) && !Continues(q[0])
    requires (forall i :: 0 < i < |p| ==> Continues(p[i])) && (forall i :: 0 < i < |q| ==> Continues(q[i]))
    ensures x == y && p == q
  {
    hide Continues;
    NotShorter(x, p, y, q);
    NotShorter(y, q, x, p);
    assert x == (x + p)[..|x|] && y == (y + q)[..|y|];
    assert p == (x + p)[|x|..] && q == (y + q)[|y|..];
  }

  lemma NotShorter(x: seq<int>, p: seq<int>, y: seq<int>, q: seq<int>)
    requires x + p == y + q && |p| > 0 && !Continues(p[0]) && forall i :: 0 < i < |q| ==> Continues(q[i])
    ensures |p| >= |q|
  {
    hide Continues;
    if |p| < |q| { SharedByte(x, p, y, q); }
  }

  lemma SharedByte(x: seq<int>, p: seq<int>, y: seq<int>, q: seq<int>)
    requires x + p == y + q && 0 < |p| < |q|
    ensures p[0] == q[|q| - |p|]
  {
    assert p[0] == (x + p)[|x|] && q[|q| - |p|] == (y + q)[|x|];
  }
}
