/** What bounding a long assistant text does to its price: the exact condition under which the bounded form costs
    more than the text, for every text, calibration and turn. */
module ProseBounding {
  import opened Basics
  import opened Numerals
  import opened ContextMessages
  import opened TokenBudget
  import opened TokenEstimator
  import opened ContextPlanner

  // ----- Counting characters -----

  lemma {:induction false} AllAscii(s: string)
    requires forall i :: 0 <= i < |s| ==> s[i] as int < 128
    ensures Ascii(s) == |s|
  {
    if |s| > 0 { AllAscii(s[..|s| - 1]); }
  }

  lemma {:induction false} NoAscii(s: string)
    requires forall i :: 0 <= i < |s| ==> s[i] as int > 127
    ensures Ascii(s) == 0
  {
    if |s| > 0 { NoAscii(s[..|s| - 1]); }
  }

  lemma {:induction false} CountsConcat(a: string, b: string, wide: char -> bool)
    ensures Ascii(a + b) == Ascii(a) + Ascii(b) && Wide(a + b, wide) == Wide(a, wide) + Wide(b, wide)
  {
    if |b| == 0 {
      assert a + b == a;
    } else {
      CountsConcat(a, b[..|b| - 1], wide);
      assert (a + b)[..|a + b| - 1] == a + b[..|b| - 1];
    }
  }

  /** The characters that are neither plain nor wide. */
  function Other(s: string, wide: char -> bool): int { |s| - Ascii(s) - Wide(s, wide) }

  // ----- Escaping -----

  /** The two separators that are not plain and yet are written as escapes. */
  predicate Separator(c: char) { c as int == 0x2028 || c as int == 0x2029 }

  /** How many plain characters the encoder writes for one character. */
  function EscapeSize(c: char): nat {
    if c in {'"', '\\', '\n', '\r', '\t'} || c as int == 8 || c as int == 12 then 2
    else if c as int < 32 || c in {'<', '>', '&'} || Separator(c) then 6
    else if c as int <= 127 then 1
    else 0
  }

  function EscapeSizes(s: string): nat { if |s| == 0 then 0 else EscapeSizes(s[..|s| - 1]) + EscapeSize(s[|s| - 1]) }

  /** The characters that are neither plain nor written as escapes; the encoder leaves them as they are. */
  function Kept(s: string): string {
    if |s| == 0 then ""
    else Kept(s[..|s| - 1]) + (if s[|s| - 1] as int > 127 && !Separator(s[|s| - 1]) then [s[|s| - 1]] else "")
  }

  lemma EscapeCounts(c: char, wide: char -> bool)
    ensures var k := if c as int > 127 && !Separator(c) then [c] else "";
            Ascii(Escape(c)) == EscapeSize(c) && Wide(Escape(c), wide) == Wide(k, wide) && |Escape(c)| == EscapeSize(c) + |k|
  {
    var e := Escape(c);
    if c as int > 127 && !Separator(c) {
      assert e == [c];
      NoAscii(e);
    } else {
      assert forall i :: 0 <= i < |e| ==> e[i] as int < 128;
      AllAscii(e);
      CountsFit(e, wide);
    }
  }

  /** The counts of an escaped text, read off the text itself. */
  lemma {:induction false} EscapedCounts(s: string, wide: char -> bool)
    ensures Ascii(Escaped(s)) == EscapeSizes(s) && Wide(Escaped(s), wide) == Wide(Kept(s), wide)
    ensures |Escaped(s)| == EscapeSizes(s) + |Kept(s)|
  {
    hide Escape, EscapeSize, Ascii, Wide, Separator;
    if |s| == 0 {
      CountNone(wide);
    } else {
      var c, t := s[|s| - 1], s[..|s| - 1];
      EscapedCounts(t, wide);
      EscapeCounts(c, wide);
      var k := if c as int > 127 && !Separator(c) then [c] else "";
      CountsConcat(Escaped(t), Escape(c), wide);
      CountsConcat(Kept(t), k, wide);
    }
  }

  lemma {:induction false} KeptIsNotPlain(s: string)
    ensures Ascii(Kept(s)) == 0
  {
    if |s| > 0 {
      var c, t := s[|s| - 1], s[..|s| - 1];
      KeptIsNotPlain(t);
      var k := if c as int > 127 && !Separator(c) then [c] else "";
      NoAscii(k);
      CountsConcat(Kept(t), k, _ => false);
    }
  }

  /** An escape is at most six times as long as the bytes it stands for. */
  lemma {:induction false} EscapesAreBounded(s: string)
    ensures EscapeSizes(s) + 6 * |Kept(s)| <= 6 * ByteLength(s)
  {
    if |s| > 0 {
      EscapesAreBounded(s[..|s| - 1]);
      assert EscapeSize(s[|s| - 1]) <= 6;
    }
  }

  // ----- The frame -----

  /** What the bounded form of a text is without its excerpt. */
  function Frame(p: Planner, m: Message, turn: nat): string {
    ProjectionText(turn + 1, SourceOf(p, turn, m.content), p.sha(m.content), ByteLength(m.content), "")
  }

  function Shown(m: Message): string { Excerpt(m.content, 1024) }

  lemma QuoteCounts(s: string, wide: char -> bool)
    ensures Ascii(Quote(s)) == 2 + Ascii(Escaped(s)) && Wide(Quote(s), wide) == Wide(Escaped(s), wide) && |Quote(s)| == 2 + |Escaped(s)|
  {
    var q := "\"";
    AllAscii(q);
    CountsFit(q, wide);
    hide Escaped, Ascii, Wide;
    CountsConcat(q, Escaped(s), wide);
    CountsConcat(q + Escaped(s), q, wide);
  }

  /** The counts of a bounded form: those of its frame and those of the escaped excerpt. */
  lemma ProjectionCounts(turn: nat, source: string, digest: string, bytes: nat, excerpt: string, wide: char -> bool)
    ensures var f, t, e := ProjectionText(turn, source, digest, bytes, ""), ProjectionText(turn, source, digest, bytes, excerpt), Escaped(excerpt);
            Ascii(t) == Ascii(f) + Ascii(e) && Wide(t, wide) == Wide(f, wide) + Wide(e, wide) && |t| == |f| + |e|
  {
    assert Escaped("") == "";
    CountNone(wide);
    QuoteCounts(excerpt, wide);
    QuoteCounts("", wide);
    hide Escaped, Ascii, Wide, Quote, ProjectionLead, ProjectionEnd;
    var l, z := ProjectionLead(turn, source, digest, bytes), ProjectionEnd();
    CountsConcat(l, Quote(excerpt), wide);
    CountsConcat(l + Quote(excerpt), z, wide);
    CountsConcat(l, Quote(""), wide);
    CountsConcat(l + Quote(""), z, wide);
  }

  /** What the bounded form costs, from the frame and the excerpt. */
  function BoundedTokens(p: Planner, m: Message, turn: nat, wide: char -> bool): int {
    var f, x := Frame(p, m, turn), Shown(m);
    DivideRoundUp(Ascii(f) + EscapeSizes(x), 3) + Wide(f, wide) + Wide(Kept(x), wide)
    + DivideRoundUp(Other(f, wide) + |Kept(x)| - Wide(Kept(x), wide), 2)
  }

  /** The price of the bounded form of any long text. */
  lemma BoundedCost(p: Planner, m: Message, turn: nat, wide: char -> bool)
    requires LongProse(m)
    ensures RawTokens(BoundedMessage(p, m, turn).content, wide) == BoundedTokens(p, m, turn, wide)
  {
    hide Ascii, Wide, ByteLength, Escaped, ProjectionText, Excerpt, EscapeSizes, Kept, SourceOf, DivideRoundUp;
    var s, d, n, x := SourceOf(p, turn, m.content), p.sha(m.content), ByteLength(m.content), Shown(m);
    ProjectionCounts(turn + 1, s, d, n, x, wide);
    EscapedCounts(x, wide);
  }

  // ----- When bounding costs more -----

  lemma CorrectedMonotone(a: int, b: int, correction: real)
    requires a <= b && correction >= 0.0
    ensures Corrected(a, correction) <= Corrected(b, correction)
  {
    assert (b - a) as real * correction >= 0.0;
  }

  /** From a calibration of one upwards, one raw token more is at least one token more. */
  lemma CorrectedStrict(a: int, b: int, correction: real)
    requires a < b && correction >= 1.0
    ensures Corrected(a, correction) < Corrected(b, correction)
  {
    assert b as real * correction - a as real * correction >= 1.0 by { Grown((b - a) as real, correction); }
  }

  lemma Grown(x: real, y: real)
    requires x >= 1.0 && y >= 1.0
    ensures x * y >= 1.0
  {
  }

  /** Exactly when the bounded form of a long text costs more than the text: before correction, under any calibration,
      and, from one upwards, under every calibration alike. */
  lemma BoundingGrowsExactly(p: Planner, m: Message, turn: nat, wide: char -> bool, correction: real)
    requires LongProse(m) && correction >= 0.0
    ensures var t, raw, bounded := BoundedMessage(p, m, turn).content, RawTokens(m.content, wide), BoundedTokens(p, m, turn, wide);
            && (RawTokens(t, wide) > raw <==> bounded > raw)
            && (TextTokens(t, wide, correction) > TextTokens(m.content, wide, correction)
                <==> Corrected(bounded, correction) > Corrected(raw, correction))
            && (TextTokens(t, wide, correction) > TextTokens(m.content, wide, correction) ==> bounded > raw)
            && (correction >= 1.0 && bounded > raw ==> TextTokens(t, wide, correction) > TextTokens(m.content, wide, correction))
  {
    hide BoundedMessage, RawTokens, BoundedTokens, Corrected, LongProse;
    BoundedCost(p, m, turn, wide);
    var raw, bounded := RawTokens(m.content, wide), BoundedTokens(p, m, turn, wide);
    if bounded <= raw { CorrectedMonotone(bounded, raw, correction); } else if correction >= 1.0 { CorrectedStrict(raw, bounded, correction); }
  }

  /** What bounding the long texts of a turn adds to its price, read off the texts. */
  function Growth(p: Planner, g: seq<Message>, turn: nat, wide: char -> bool, correction: real): int {
    if |g| == 0 then 0
    else
      var m := g[|g| - 1];
      Growth(p, g[..|g| - 1], turn, wide, correction)
      + if LongProse(m) then Corrected(BoundedTokens(p, m, turn, wide), correction) - TextTokens(m.content, wide, correction) else 0
  }

  /** The price of a whole turn grows by exactly that. */
  lemma {:induction false} TurnGrowsExactly(p: Planner, g: seq<Message>, turn: nat, wide: char -> bool, correction: real, compact: string -> string)
    ensures var prices := Prices(wide, correction, compact);
            MessagesTokens(prices, BoundedGroup(p, g, turn)) == MessagesTokens(prices, g) + Growth(p, g, turn, wide, correction)
  {
    if |g| > 0 {
      var n, prices := |g| - 1, Prices(wide, correction, compact);
      TurnGrowsExactly(p, g[..n], turn, wide, correction, compact);
      MessageGrowsExactly(p, g[n], turn, wide, correction, compact);
      hide MessageTokens, BoundedMessage, BoundedGroup, Corrected, LongProse, TextTokens, BoundedTokens, Prices;
      BoundedLast(p, g, turn);
    }
  }

  lemma BoundedLast(p: Planner, g: seq<Message>, turn: nat)
    requires |g| > 0
    ensures var n, b := |g| - 1, BoundedGroup(p, g, turn); b[..n] == BoundedGroup(p, g[..n], turn) && b[n] == BoundedMessage(p, g[n], turn)
  {
    hide BoundedMessage;
  }

  lemma MessageGrowsExactly(p: Planner, m: Message, turn: nat, wide: char -> bool, correction: real, compact: string -> string)
    ensures var prices := Prices(wide, correction, compact);
            MessageTokens(prices, BoundedMessage(p, m, turn)) == MessageTokens(prices, m)
            + if LongProse(m) then Corrected(BoundedTokens(p, m, turn, wide), correction) - TextTokens(m.content, wide, correction) else 0
  {
    hide Corrected, BoundedTokens, RawTokens, ByteLength, Excerpt, SourceOf, ProjectionText, CallsTokens;
    if LongProse(m) { BoundedCost(p, m, turn, wide); }
  }

  /** And so does what the planner adds to its running total for it. */
  lemma AdditionalGrowsExactly(p: Planner, g: seq<Message>, turn: nat, wide: char -> bool, correction: real, compact: string -> string)
    requires 0.75 <= correction <= 2.5
    ensures var e := (r: Request) => RequestTokens(Prices(wide, correction, compact), r);
            Additional(e, BoundedGroup(p, g, turn)) == Additional(e, g) + Growth(p, g, turn, wide, correction)
  {
    var prices := Prices(wide, correction, compact);
    forall s ensures prices.text(s) >= 0 { CalibratedPrices(s, wide, correction); }
    hide TextTokens, BoundedGroup, Growth;
    AdditionalIsPrice(prices, g);
    AdditionalIsPrice(prices, BoundedGroup(p, g, turn));
    TurnGrowsExactly(p, g, turn, wide, correction, compact);
  }

  // ----- The size of the frame -----

  /** The fixed texts of a frame are plain. */
  lemma KeysArePlain()
    ensures Ascii(CODE_KEY) == |CODE_KEY| == 24 && Ascii(PROJECTION_CODE) == |PROJECTION_CODE| == 27 && Ascii(TURN_KEY) == |TURN_KEY| == 16
    ensures Ascii(SOURCE_KEY) == |SOURCE_KEY| == 13 && Ascii(DIGEST_KEY) == |DIGEST_KEY| == 10 && Ascii(BYTES_KEY) == |BYTES_KEY| == 18
    ensures Ascii(EXCERPT_KEY) == |EXCERPT_KEY| == 11 && Ascii(NOTICE_KEY) == |NOTICE_KEY| == 10 && Ascii("}") == 1
  {
    hide Ascii;
    AllAscii(CODE_KEY);
    AllAscii(PROJECTION_CODE);
    AllAscii(TURN_KEY);
    AllAscii(SOURCE_KEY);
    AllAscii(DIGEST_KEY);
    AllAscii(BYTES_KEY);
    AllAscii(EXCERPT_KEY);
    AllAscii(NOTICE_KEY);
    AllAscii("}");
  }

  lemma {:induction false} NothingEscaped(s: string)
    requires forall i :: 0 <= i < |s| ==> s[i] as int > 127 && !Separator(s[i])
    ensures EscapeSizes(s) == 0 && Kept(s) == s
  {
    if |s| > 0 {
      NothingEscaped(s[..|s| - 1]);
      assert s == s[..|s| - 1] + [s[|s| - 1]];
    }
  }

  lemma NoticeIsKept()
    ensures EscapeSizes(NOTICE) == 0 && |Kept(NOTICE)| == 29
  {
    NothingEscaped(NOTICE);
  }

  lemma DigitsArePlain(n: nat)
    ensures Ascii(Decimal(n)) == |Decimal(n)|
  {
    var d := Decimal(n);
    assert forall i :: 0 <= i < |d| ==> Digit(d[i]);
    AllAscii(d);
  }

  lemma LengthsConcat(a: string, b: string)
    ensures Ascii(a + b) == Ascii(a) + Ascii(b) && |a + b| == |a| + |b|
  {
    CountsConcat(a, b, _ => false);
  }

  lemma QuoteSize(s: string)
    ensures Ascii(Quote(s)) == 2 + EscapeSizes(s) && |Quote(s)| == 2 + EscapeSizes(s) + |Kept(s)|
  {
    QuoteCounts(s, _ => false);
    EscapedCounts(s, _ => false);
  }

  lemma SourcePartSize(source: string)
    ensures var n := if source == "" then 0 else 15 + EscapeSizes(source);
            Ascii(SourcePart(source)) == n && |SourcePart(source)| == n + |Kept(source)|
  {
    KeysArePlain();
    hide Ascii, Quote, SOURCE_KEY;
    if source == "" {
      NothingEscaped("");
      LengthsConcat("", "");
    } else {
      QuoteSize(source);
      LengthsConcat(SOURCE_KEY, Quote(source));
    }
  }

  lemma LeadSize(turn: nat, source: string, digest: string, bytes: nat)
    ensures var l := ProjectionLead(turn, source, digest, bytes);
            && Ascii(l) == 108 + |Decimal(turn)| + |Decimal(bytes)| + EscapeSizes(digest) + (if source == "" then 0 else 15 + EscapeSizes(source))
            && |l| == Ascii(l) + |Kept(digest)| + |Kept(source)|
  {
    KeysArePlain();
    SourcePartSize(source);
    QuoteSize(digest);
    DigitsArePlain(turn);
    DigitsArePlain(bytes);
    hide Ascii, Quote, Decimal, SourcePart, CODE_KEY, PROJECTION_CODE, TURN_KEY, SOURCE_KEY, DIGEST_KEY, BYTES_KEY, EXCERPT_KEY, EscapeSizes, Kept;
    LengthsConcat(CODE_KEY, PROJECTION_CODE);
    LengthsConcat(CODE_KEY + PROJECTION_CODE, TURN_KEY);
    var a := CODE_KEY + PROJECTION_CODE + TURN_KEY + Decimal(turn);
    LengthsConcat(CODE_KEY + PROJECTION_CODE + TURN_KEY, Decimal(turn));
    var b := a + SourcePart(source);
    LengthsConcat(a, SourcePart(source));
    var c := b + DIGEST_KEY;
    LengthsConcat(b, DIGEST_KEY);
    var d := c + Quote(digest);
    LengthsConcat(c, Quote(digest));
    var e := d + BYTES_KEY;
    LengthsConcat(d, BYTES_KEY);
    var f := e + Decimal(bytes);
    LengthsConcat(e, Decimal(bytes));
    LengthsConcat(f, EXCERPT_KEY);
  }

  lemma EndSize()
    ensures Ascii(ProjectionEnd()) == 13 && |ProjectionEnd()| == 42
  {
    KeysArePlain();
    NoticeIsKept();
    QuoteSize(NOTICE);
    hide Ascii, Quote, NOTICE, NOTICE_KEY, EscapeSizes, Kept;
    LengthsConcat(NOTICE_KEY, Quote(NOTICE));
    LengthsConcat(NOTICE_KEY + Quote(NOTICE), "}");
  }

  /** The size of a frame: 123 plain characters and the numbers, the digest and the source; 29 characters of notice. */
  lemma FrameSize(p: Planner, m: Message, turn: nat)
    ensures var f, digest, source := Frame(p, m, turn), p.sha(m.content), SourceOf(p, turn, m.content);
            && Ascii(f) == 123 + |Decimal(turn + 1)| + |Decimal(ByteLength(m.content))| + EscapeSizes(digest)
                         + (if source == "" then 0 else 15 + EscapeSizes(source))
            && |f| - Ascii(f) == 29 + |Kept(digest)| + |Kept(source)|
  {
    var digest, source, bytes := p.sha(m.content), SourceOf(p, turn, m.content), ByteLength(m.content);
    LeadSize(turn + 1, source, digest, bytes);
    EndSize();
    QuoteSize("");
    NothingEscaped("");
    hide Ascii, Quote, Decimal, ProjectionLead, ProjectionEnd, SourceOf, ByteLength, EscapeSizes, Kept;
    var l := ProjectionLead(turn + 1, source, digest, bytes);
    LengthsConcat(l, Quote(""));
    LengthsConcat(l + Quote(""), ProjectionEnd());
  }

  // ----- Texts that do not grow -----

  lemma RawTokensMeans(s: string, wide: char -> bool)
    ensures RawTokens(s, wide) == DivideRoundUp(Ascii(s), 3) + Wide(s, wide) + DivideRoundUp(Other(s, wide), 2)
    ensures 0 <= Ascii(s) && 0 <= Wide(s, wide) && 0 <= Other(s, wide) && |s| <= 3 * RawTokens(s, wide)
  {
    CountsFit(s, wide);
    RawTokensBounds(s, wide);
  }

  /** The counts of the excerpt, and the price they give. */
  lemma ExcerptCounts(p: Planner, m: Message, turn: nat, wide: char -> bool)
    ensures var f, x := Frame(p, m, turn), Shown(m);
            var v, r := Wide(Kept(x), wide), |Kept(x)| - Wide(Kept(x), wide);
            && 0 <= v && 0 <= r && 0 <= EscapeSizes(x) && EscapeSizes(x) + 6 * (v + r) <= 6 * 1024
            && BoundedTokens(p, m, turn, wide) == DivideRoundUp(Ascii(f) + EscapeSizes(x), 3) + Wide(f, wide) + v + DivideRoundUp(Other(f, wide) + r, 2)
  {
    hide *;
    ShownIsShort(m);
    EscapesAreBounded(Shown(m));
    CountsFit(Kept(Shown(m)), wide);
    BoundedTokensMeans(p, m, turn, wide);
  }

  lemma ShownIsShort(m: Message)
    ensures ByteLength(Shown(m)) <= 1024
  {
    hide ByteLength;
  }

  lemma BoundedTokensMeans(p: Planner, m: Message, turn: nat, wide: char -> bool)
    ensures var f, x := Frame(p, m, turn), Shown(m);
            BoundedTokens(p, m, turn, wide) == DivideRoundUp(Ascii(f) + EscapeSizes(x), 3) + Wide(f, wide) + Wide(Kept(x), wide)
                                               + DivideRoundUp(Other(f, wide) + |Kept(x)| - Wide(Kept(x), wide), 2)
  {
    hide Ascii, Wide, Other, EscapeSizes, Kept, Frame, Shown, DivideRoundUp;
  }

  /** A text long enough to pay for six bytes of escape per byte of excerpt, and for the frame, does not grow. */
  lemma LongTextsDoNotGrow(p: Planner, m: Message, turn: nat, wide: char -> bool)
    requires LongProse(m) && |m.content| >= 6 * 1024 + 3 * RawTokens(Frame(p, m, turn), wide) + 2
    ensures BoundedTokens(p, m, turn, wide) <= RawTokens(m.content, wide)
  {
    hide *;
    var f, k := Frame(p, m, turn), Kept(Shown(m));
    RawTokensMeans(f, wide);
    RawTokensMeans(m.content, wide);
    ExcerptCounts(p, m, turn, wide);
    LongSum(Ascii(f), Wide(f, wide), Other(f, wide), EscapeSizes(Shown(m)), Wide(k, wide), |k| - Wide(k, wide), RawTokens(m.content, wide));
  }

  lemma LongSum(a: int, w: int, o: int, e: int, v: int, r: int, raw: int)
    requires a >= 0 && w >= 0 && o >= 0 && e >= 0 && v >= 0 && r >= 0 && e + 6 * (v + r) <= 6 * 1024
    requires 3 * raw >= 6 * 1024 + 3 * (DivideRoundUp(a, 3) + w + DivideRoundUp(o, 2)) + 2
    ensures DivideRoundUp(a + e, 3) + w + v + DivideRoundUp(o + r, 2) <= raw
  {
  }

  /** A character that the encoder writes as it is. */
  predicate Unescaped(c: char) { EscapeSize(c) == 1 }

  lemma {:induction false} UnescapedCounts(s: string)
    requires forall i :: 0 <= i < |s| ==> Unescaped(s[i])
    ensures EscapeSizes(s) == |s| == Ascii(s) == ByteLength(s) && Kept(s) == ""
  {
    if |s| > 0 { UnescapedCounts(s[..|s| - 1]); }
  }

  lemma {:induction false} DecimalIsShort(n: nat, k: nat, bound: nat)
    requires n < bound == Tens(k) && k > 0
    ensures |Decimal(n)| <= k
  {
    if n >= 10 { DecimalIsShort(n / 10, k - 1, Tens(k - 1)); }
  }

  /** The digest is 64 plain characters, the source identifier is plain and of at most 200, and the numbers are
      machine integers. */
  predicate Ordinary(p: Planner, m: Message, turn: nat) {
    var d, s := p.sha(m.content), SourceOf(p, turn, m.content);
    && |d| == 64 && (forall i :: 0 <= i < 64 ==> Unescaped(d[i]))
    && |s| <= 200 && (forall i :: 0 <= i < |s| ==> Unescaped(s[i]))
    && turn + 1 <= MAX_INT && ByteLength(m.content) <= MAX_INT
  }

  lemma NumbersAreShort(n: nat)
    requires n <= MAX_INT
    ensures |Decimal(n)| <= 19
  {
    assert Tens(2) == 100;
    assert Tens(4) == 10000;
    assert Tens(6) == 1000000;
    assert Tens(8) == 100000000;
    assert Tens(10) == 10000000000;
    assert Tens(12) == 1000000000000;
    assert Tens(14) == 100000000000000;
    assert Tens(16) == 10000000000000000;
    assert Tens(18) == 1000000000000000000;
    assert Tens(19) == 10000000000000000000;
    DecimalIsShort(n, 19, Tens(19));
  }

  lemma OrdinaryFrame(p: Planner, m: Message, turn: nat, wide: char -> bool)
    requires Ordinary(p, m, turn)
    ensures RawTokens(Frame(p, m, turn), wide) <= 176
  {
    var f, d, s, n := Frame(p, m, turn), p.sha(m.content), SourceOf(p, turn, m.content), ByteLength(m.content);
    FrameSize(p, m, turn);
    UnescapedCounts(d);
    UnescapedCounts(s);
    NumbersAreShort(turn + 1);
    NumbersAreShort(n);
    CountsFit(f, wide);
    hide *;
    FrameTokens(f, wide);
  }

  lemma FrameTokens(f: string, wide: char -> bool)
    requires Ascii(f) <= 440 && |f| - Ascii(f) == 29
    ensures RawTokens(f, wide) <= 176
  {
    CountsFit(f, wide);
    hide Ascii, Wide;
  }

  /** A plain text in an ordinary frame never grows. */
  lemma PlainTextsDoNotGrow(p: Planner, m: Message, turn: nat, wide: char -> bool)
    requires LongProse(m) && (forall i :: 0 <= i < |m.content| ==> Unescaped(m.content[i])) && Ordinary(p, m, turn)
    ensures BoundedTokens(p, m, turn, wide) <= RawTokens(m.content, wide)
  {
    hide *;
    PlainExcerpt(m);
    var f := Frame(p, m, turn);
    OrdinaryFrame(p, m, turn, wide);
    RawTokensMeans(f, wide);
    RawTokensMeans(m.content, wide);
    ExcerptCounts(p, m, turn, wide);
    PlainSum(Ascii(f), Wide(f, wide), Other(f, wide), EscapeSizes(Shown(m)), RawTokens(m.content, wide));
  }

  lemma PlainExcerpt(m: Message)
    requires LongProse(m) && forall i :: 0 <= i < |m.content| ==> Unescaped(m.content[i])
    ensures EscapeSizes(Shown(m)) <= 1024 && Kept(Shown(m)) == "" && |m.content| > 2048
    ensures forall wide :: Wide("", wide) == 0
  {
    var x := Shown(m);
    UnescapedCounts(m.content);
    UnescapedCounts(x);
    assert ByteLength(x) <= 1024;
    hide EscapeSizes, Kept, Shown, ByteLength;
  }

  lemma PlainSum(a: int, w: int, o: int, e: int, raw: int)
    requires a >= 0 && w >= 0 && o >= 0 && 0 <= e <= 1024 && 3 * raw >= 2049 && DivideRoundUp(a, 3) + w + DivideRoundUp(o, 2) <= 176
    ensures DivideRoundUp(a + e, 3) + w + DivideRoundUp(o, 2) <= raw
  {
  }

  /** If none of its long texts grows, neither does the turn, under whatever calibration. */
  lemma {:induction false} TurnDoesNotGrow(p: Planner, g: seq<Message>, turn: nat, wide: char -> bool, correction: real)
    requires correction >= 0.0
    requires forall i :: 0 <= i < |g| && LongProse(g[i]) ==> BoundedTokens(p, g[i], turn, wide) <= RawTokens(g[i].content, wide)
    ensures Growth(p, g, turn, wide, correction) <= 0
  {
    hide BoundedTokens, RawTokens, LongProse, Corrected;
    if |g| > 0 {
      TurnDoesNotGrow(p, g[..|g| - 1], turn, wide, correction);
      var m := g[|g| - 1];
      if LongProse(m) { CorrectedMonotone(BoundedTokens(p, m, turn, wide), RawTokens(m.content, wide), correction); }
    }
  }

  // ----- A text that grows -----

  lemma {:induction false} Brackets(n: nat, wide: char -> bool)
    ensures var s := seq(n, _ => '<');
            Ascii(s) == ByteLength(s) == n && Wide(s, wide) == 0 && EscapeSizes(s) == 6 * n
  {
    var s := seq(n, _ => '<');
    if n > 0 {
      Brackets(n - 1, wide);
      assert s[..n - 1] == seq(n - 1, _ => '<');
    }
  }

  lemma BracketExcerpt(text: string, wide: char -> bool)
    requires text == seq(2049, _ => '<')
    ensures Excerpt(text, 1024) == seq(1024, _ => '<')
  {
    Brackets(1024, wide);
    Brackets(1025, wide);
    assert text[..1024] == seq(1024, _ => '<') && text[..1025] == seq(1025, _ => '<');
    hide Ascii, Wide, ByteLength, EscapeSizes;
    CharsWithinUnique(text, 1024, 1024);
  }

  /** Some turns grow: one long text of angle brackets, each written as six characters, makes its turn cost more
      under every calibration in range. */
  lemma BoundingCanGrow(p: Planner, turn: nat, wide: char -> bool, correction: real)
    requires 0.75 <= correction <= 2.5
    ensures var m := Message("assistant", seq(2049, _ => '<'), [], "");
            LongProse(m) && Growth(p, [m], turn, wide, correction) > 0
  {
    var m := Message("assistant", seq(2049, _ => '<'), [], "");
    BracketTokens(p, m, turn, wide);
    hide Ascii, Wide, EscapeSizes, Kept, Frame, Shown, ByteLength, Corrected, BoundedTokens, RawTokens;
    CorrectedApart(683, BoundedTokens(p, m, turn, wide), correction);
    assert Growth(p, [], turn, wide, correction) == 0 && [m][..0] == [];
  }

  lemma BracketTokens(p: Planner, m: Message, turn: nat, wide: char -> bool)
    requires m == Message("assistant", seq(2049, _ => '<'), [], "")
    ensures LongProse(m) && RawTokens(m.content, wide) == 683 && BoundedTokens(p, m, turn, wide) >= 2048
  {
    hide *;
    BracketFacts(m, wide);
    var f, k := Frame(p, m, turn), Kept(Shown(m));
    RawTokensMeans(f, wide);
    RawTokensMeans(m.content, wide);
    ExcerptCounts(p, m, turn, wide);
    BracketSum(Ascii(f), Other(f, wide) + |k| - Wide(k, wide));
  }

  lemma BracketFacts(m: Message, wide: char -> bool)
    requires m == Message("assistant", seq(2049, _ => '<'), [], "")
    ensures LongProse(m) && EscapeSizes(Shown(m)) == 6144
    ensures Ascii(m.content) == 2049 && Wide(m.content, wide) == Other(m.content, wide) == 0
  {
    hide Ascii, Wide, EscapeSizes, ByteLength, Excerpt;
    Brackets(2049, wide);
    BracketExcerpt(m.content, wide);
    Brackets(1024, wide);
  }

  lemma BracketSum(a: int, o: int)
    requires a >= 0 && o >= 0
    ensures DivideRoundUp(a + 6144, 3) + DivideRoundUp(o, 2) >= 2048 && DivideRoundUp(2049, 3) == 683 && DivideRoundUp(0, 2) == 0
  {
  }

  lemma CorrectedApart(a: int, b: int, correction: real)
    requires a + 2 <= b && correction >= 0.75
    ensures Corrected(a, correction) < Corrected(b, correction)
  {
    assert b as real * correction - a as real * correction >= 1.5 by { AtLeastHalf((b - a) as real, correction); }
  }

  lemma AtLeastHalf(x: real, y: real)
    requires x >= 2.0 && y >= 0.75
    ensures x * y >= 1.5
  {
  }
}
