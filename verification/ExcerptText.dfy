/** The escaped excerpt of a bounded text can be read back: a reader of JSON strings, and what it makes of what the
    planner writes. */
module ExcerptText {
  import opened Basics
  import opened Numerals
  import opened ContextMessages
  import opened ContextPlanner

  function HexValue(c: char): Option<nat> {
    if '0' <= c <= '9' then Some(c as nat - '0' as nat)
    else if 'a' <= c <= 'f' then Some(c as nat - 'a' as nat + 10)
    else if 'A' <= c <= 'F' then Some(c as nat - 'A' as nat + 10)
    else None
  }

  /** Four hexadecimal digits that name a character of the basic plane. */
  function ReadHex(s: string): Option<char>
    requires |s| == 4
  {
    match (HexValue(s[0]), HexValue(s[1]), HexValue(s[2]), HexValue(s[3]))
    case (Some(a), Some(b), Some(c), Some(d)) =>
      var n := ((a * 16 + b) * 16 + c) * 16 + d;
      if n < 0xD800 then Some(n as char) else None
    case _ => None
  }

  /** The first character of a string's text, as section 7 of RFC 8259 has it, and the rest. */
  function ReadChar(s: string): Option<(char, string)>
    requires |s| > 0
  {
    if s[0] == '"' || s[0] as int < 32 then None
    else if s[0] != '\\' then Some((s[0], s[1..]))
    else if |s| == 1 then None
    else if s[1] == '"' || s[1] == '\\' || s[1] == '/' then Some((s[1], s[2..]))
    else if s[1] == 'n' then Some((10 as char, s[2..]))
    else if s[1] == 'r' then Some((13 as char, s[2..]))
    else if s[1] == 't' then Some((9 as char, s[2..]))
    else if s[1] == 'b' then Some((8 as char, s[2..]))
    else if s[1] == 'f' then Some((12 as char, s[2..]))
    else if s[1] == 'u' && |s| >= 6 then
      match ReadHex(s[2..6]) case Some(c) => Some((c, s[6..])) case None => None
    else None
  }

  /** The text up to the closing quotation mark, and what stands behind it. */
  function ReadString(s: string): Option<(string, string)>
    decreases |s|
  {
    if |s| == 0 then None
    else if s[0] == '"' then Some(("", s[1..]))
    else
      match ReadChar(s)
      case None => None
      case Some(first) =>
        if |first.1| >= |s| then None
        else match ReadString(first.1) case None => None case Some(r) => Some(([first.0] + r.0, r.1))
  }

  lemma HexDigitReads(n: nat)
    requires n < 16
    ensures HexValue(HexDigit(n)) == Some(n)
  {
  }

  /** What the encoder writes for a character reads as that character. */
  lemma EscapeReads(c: char, rest: string)
    ensures |Escape(c)| > 0 && Escape(c)[0] != '"' && ReadChar(Escape(c) + rest) == Some((c, rest))
  {
    var e := Escape(c);
    var s := e + rest;
    if c as int < 32 || c == '<' || c == '>' || c == '&' {
      HexDigitReads(c as nat / 16);
      HexDigitReads(c as nat % 16);
    }
    if |e| == 6 {
      assert s[2..6] == e[2..6] && s[6..] == rest;
    } else if |e| == 2 {
      assert s[2..] == rest;
    } else {
      assert s[1..] == rest;
    }
  }

  lemma {:induction false} EscapedFromFront(s: string)
    requires |s| > 0
    ensures Escaped(s) == Escape(s[0]) + Escaped(s[1..])
  {
    hide Escape;
    var n := |s| - 1;
    if n > 0 {
      EscapedFromFront(s[..n]);
      assert s[..n][1..] == s[1..][..n - 1] && s[1..][n - 1] == s[n];
    } else {
      assert s[..0] == "" && s[1..] == "";
    }
  }

  /** An escaped text reads back as the text, up to the quotation mark behind it. */
  lemma {:induction false} EscapedReads(x: string, rest: string)
    ensures ReadString(Escaped(x) + "\"" + rest) == Some((x, rest))
  {
    hide Escape, ReadChar;
    var q := "\"" + rest;
    assert Escaped(x) + "\"" + rest == Escaped(x) + q;
    if |x| == 0 {
      assert Escaped(x) + q == q && q[1..] == rest;
    } else {
      EscapedFromFront(x);
      EscapedReads(x[1..], rest);
      var t := Escaped(x[1..]) + q;
      assert Escaped(x[1..]) + "\"" + rest == t;
      assert Escaped(x) + q == Escape(x[0]) + t;
      EscapeReads(x[0], t);
      assert [x[0]] + x[1..] == x;
    }
  }

  /** The excerpt of a bounded text can be read back from it. */
  lemma ExcerptReadsBack(turn: nat, source: string, digest: string, bytes: nat, excerpt: string)
    ensures var t, a := ProjectionText(turn, source, digest, bytes, excerpt), |ProjectionLead(turn, source, digest, bytes)|;
            a < |t| && t[a] == '"' && ReadString(t[a + 1..]) == Some((excerpt, ProjectionEnd()))
  {
    hide Escaped, ProjectionLead, ProjectionEnd, ReadString;
    var l, e, z := ProjectionLead(turn, source, digest, bytes), Escaped(excerpt), ProjectionEnd();
    EscapedReads(excerpt, z);
    QuotedTail(l, e, z);
  }

  lemma QuotedTail(l: string, e: string, z: string)
    ensures var t := l + ("\"" + e + "\"") + z; |l| < |t| && t[|l|] == '"' && t[|l| + 1..] == e + "\"" + z
  {
  }
}
