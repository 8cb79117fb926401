/** What an estimate is made of: every text of a request, once each, and a fixed charge for every envelope. */
module EstimateContents {
  import opened ContextMessages
  import opened TokenBudget
  import opened TokenEstimator

  // ----- One text -----

  datatype Class = Plain | Broad | Rest

  function ClassOf(c: char, wide: char -> bool): Class { if c as int <= 127 then Plain else if wide(c) then Broad else Rest }

  /** The characters of one class. */
  function Only(s: string, k: Class, wide: char -> bool): string {
    if |s| == 0 then "" else Only(s[..|s| - 1], k, wide) + (if ClassOf(s[|s| - 1], wide) == k then [s[|s| - 1]] else "")
  }

  lemma OnlyNext(s: string, k: Class, wide: char -> bool)
    requires |s| > 0
    ensures var t, c := s[..|s| - 1], s[|s| - 1];
            Only(s, k, wide) == if ClassOf(c, wide) == k then Only(t, k, wide) + [c] else Only(t, k, wide)
  {
    if ClassOf(s[|s| - 1], wide) != k { assert Only(s[..|s| - 1], k, wide) + "" == Only(s[..|s| - 1], k, wide); }
  }

  lemma CountsSnoc(s: string, c: char, wide: char -> bool)
    ensures Ascii(s + [c]) == Ascii(s) + (if c as int <= 127 then 1 else 0)
    ensures Wide(s + [c], wide) == Wide(s, wide) + (if c as int > 127 && wide(c) then 1 else 0)
  {
    assert (s + [c])[..|s|] == s;
  }

  lemma {:induction false} ClassCounts(s: string, wide: char -> bool)
    ensures var a, b, r := Only(s, Plain, wide), Only(s, Broad, wide), Only(s, Rest, wide);
            && |a| == Ascii(s) == Ascii(a) && Wide(a, wide) == 0
            && |b| == Wide(s, wide) == Wide(b, wide) && Ascii(b) == 0
            && |r| == |s| - Ascii(s) - Wide(s, wide) && Ascii(r) == 0 && Wide(r, wide) == 0
  {
    if |s| > 0 {
      var t, c := s[..|s| - 1], s[|s| - 1];
      ClassCounts(t, wide);
      OnlyNext(s, Plain, wide);
      OnlyNext(s, Broad, wide);
      OnlyNext(s, Rest, wide);
      var a, b, r := Only(t, Plain, wide), Only(t, Broad, wide), Only(t, Rest, wide);
      hide Only;
      CountsSnoc(a, c, wide);
      CountsSnoc(b, c, wide);
      CountsSnoc(r, c, wide);
    }
  }

  /** A text costs what its plain, its wide and its other characters cost: a token for three, for one and for two of
      them, each rounded up. */
  lemma TextIsItsClasses(s: string, wide: char -> bool) returns (plain: nat, rest: nat)
    ensures RawTokens(s, wide) == plain + |Only(s, Broad, wide)| + rest
    ensures 3 * plain - 3 < |Only(s, Plain, wide)| <= 3 * plain && 2 * rest - 2 < |Only(s, Rest, wide)| <= 2 * rest
    ensures |Only(s, Plain, wide)| + |Only(s, Broad, wide)| + |Only(s, Rest, wide)| == |s|
  {
    ClassCounts(s, wide);
    CountsFit(s, wide);
    plain := DivideRoundUp(|Only(s, Plain, wide)|, 3);
    rest := DivideRoundUp(|Only(s, Rest, wide)|, 2);
    hide Only, Ascii, Wide;
  }

  /** The calibrated price is the raw one times the calibration, rounded up. */
  lemma CorrectedIsCeiling(raw: int, correction: real)
    ensures Corrected(raw, correction) as real - 1.0 < raw as real * correction <= Corrected(raw, correction) as real
  {
  }

  // ----- Requests -----

  function CallTexts(calls: seq<ToolCall>): seq<string> {
    if |calls| == 0 then [] else [calls[0].id, calls[0].kind, calls[0].name, calls[0].arguments] + CallTexts(calls[1..])
  }

  function MessageTexts(ms: seq<Message>): seq<string> {
    if |ms| == 0 then [] else [ms[0].role, ms[0].content, ms[0].callId] + CallTexts(ms[0].calls) + MessageTexts(ms[1..])
  }

  function ToolTexts(tools: seq<Tool>, compact: string -> string): seq<string> {
    if |tools| == 0 then []
    else [tools[0].kind, tools[0].name, tools[0].description]
         + (if tools[0].parameters == "" then [] else [compact(tools[0].parameters)]) + ToolTexts(tools[1..], compact)
  }

  function CallCount(ms: seq<Message>): nat { if |ms| == 0 then 0 else |ms[0].calls| + CallCount(ms[1..]) }

  function PriceOfAll(texts: seq<string>, price: string -> int): int {
    if |texts| == 0 then 0 else price(texts[0]) + PriceOfAll(texts[1..], price)
  }

  lemma {:induction false} PriceConcat(a: seq<string>, b: seq<string>, price: string -> int)
    ensures PriceOfAll(a + b, price) == PriceOfAll(a, price) + PriceOfAll(b, price)
  {
    if |a| == 0 {
      assert a + b == b;
    } else {
      assert (a + b)[1..] == a[1..] + b;
      PriceConcat(a[1..], b, price);
    }
  }

  lemma PriceOfFew(a: string, b: string, c: string, d: string, price: string -> int)
    ensures PriceOfAll([a, b, c, d], price) == price(a) + price(b) + price(c) + price(d)
    ensures PriceOfAll([a, b, c], price) == price(a) + price(b) + price(c)
    ensures PriceOfAll([a], price) == price(a) && PriceOfAll([], price) == 0
  {
    PriceOfFirst(a, [b, c, d], price);
    PriceOfFirst(b, [c, d], price);
    PriceOfFirst(c, [d], price);
    PriceOfFirst(d, [], price);
    PriceOfFirst(a, [b, c], price);
    PriceOfFirst(b, [c], price);
    PriceOfFirst(c, [], price);
    PriceOfFirst(a, [], price);
    assert [a] + [b, c, d] == [a, b, c, d] && [b] + [c, d] == [b, c, d] && [c] + [d] == [c, d] && [d] + [] == [d];
    assert [a] + [b, c] == [a, b, c] && [b] + [c] == [b, c] && [c] + [] == [c] && [a] + [] == [a];
  }

  lemma PriceOfFirst(a: string, rest: seq<string>, price: string -> int)
    ensures PriceOfAll([a] + rest, price) == price(a) + PriceOfAll(rest, price)
  {
    assert ([a] + rest)[1..] == rest;
  }

  lemma {:induction false} CallsFromFront(p: Pricing, calls: seq<ToolCall>)
    requires |calls| > 0
    ensures CallsTokens(p, calls) == CallTokens(p, calls[0]) + CallsTokens(p, calls[1..])
  {
    var n := |calls| - 1;
    if n > 0 {
      CallsFromFront(p, calls[..n]);
      assert calls[..n][1..] == calls[1..][..n - 1] && calls[1..][n - 1] == calls[n];
    } else {
      assert calls[..0] == [] && calls[1..] == [];
    }
  }

  lemma {:induction false} CallsAreTexts(p: Pricing, calls: seq<ToolCall>)
    ensures CallsTokens(p, calls) == 10 * |calls| + PriceOfAll(CallTexts(calls), p.text)
  {
    if |calls| > 0 {
      CallsFromFront(p, calls);
      CallsAreTexts(p, calls[1..]);
      var c := calls[0];
      PriceOfFew(c.id, c.kind, c.name, c.arguments, p.text);
      PriceConcat([c.id, c.kind, c.name, c.arguments], CallTexts(calls[1..]), p.text);
    }
  }

  lemma {:induction false} MessagesAreTexts(p: Pricing, ms: seq<Message>)
    ensures MessagesTokens(p, ms) == 6 * |ms| + 10 * CallCount(ms) + PriceOfAll(MessageTexts(ms), p.text)
  {
    if |ms| > 0 {
      var m, rest := ms[0], ms[1..];
      assert ms == [m] + rest;
      MessagesConcat(p, [m], rest);
      assert MessagesTokens(p, [m]) == MessageTokens(p, m) by { assert [m][..0] == []; }
      MessagesAreTexts(p, rest);
      CallsAreTexts(p, m.calls);
      PriceOfFew(m.role, m.content, m.callId, "", p.text);
      PriceConcat([m.role, m.content, m.callId], CallTexts(m.calls), p.text);
      PriceConcat([m.role, m.content, m.callId] + CallTexts(m.calls), MessageTexts(rest), p.text);
    }
  }

  lemma {:induction false} ToolsFromFront(p: Pricing, tools: seq<Tool>)
    requires |tools| > 0
    ensures ToolsTokens(p, tools) == ToolTokens(p, tools[0]) + ToolsTokens(p, tools[1..])
  {
    hide ToolTokens;
    var n := |tools| - 1;
    if n > 0 {
      ToolsFromFront(p, tools[..n]);
      assert tools[..n][1..] == tools[1..][..n - 1] && tools[1..][n - 1] == tools[n];
    } else {
      assert tools[..0] == [] && tools[1..] == [];
    }
  }

  lemma {:induction false} ToolsAreTexts(p: Pricing, tools: seq<Tool>)
    ensures ToolsTokens(p, tools) == 14 * |tools| + PriceOfAll(ToolTexts(tools, p.compact), p.text)
  {
    if |tools| > 0 {
      var t, rest := tools[0], tools[1..];
      ToolsFromFront(p, tools);
      ToolsAreTexts(p, rest);
      var a, b := [t.kind, t.name, t.description], if t.parameters == "" then [] else [p.compact(t.parameters)];
      PriceOfFew(t.kind, t.name, t.description, "", p.text);
      PriceOfFew(p.compact(t.parameters), "", "", "", p.text);
      PriceConcat(a, b, p.text);
      PriceConcat(a + b, ToolTexts(rest, p.compact), p.text);
    }
  }

  /** A request costs 8, 6 for every message, 10 for every call, 14 for every tool, and the price of every text in it:
      roles, contents, call identities, and of calls and tools whatever they say. The output limit is free. */
  lemma RequestIsItsTexts(p: Pricing, r: Request)
    ensures RequestTokens(p, r) == 8 + 6 * |r.messages| + 10 * CallCount(r.messages) + 14 * |r.tools|
                                   + PriceOfAll(MessageTexts(r.messages) + ToolTexts(r.tools, p.compact), p.text)
  {
    MessagesAreTexts(p, r.messages);
    ToolsAreTexts(p, r.tools);
    PriceConcat(MessageTexts(r.messages), ToolTexts(r.tools, p.compact), p.text);
  }
}
