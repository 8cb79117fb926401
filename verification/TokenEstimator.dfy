/** The conservative estimator of whole requests, and what makes its estimates add up. */
module TokenEstimator {
  import opened ContextMessages
  import opened TokenBudget

  /** How many tokens a text costs, and the compact form of a tool's parameters. */
  datatype Pricing = Pricing(text: string -> int, compact: string -> string)

  function CallTokens(p: Pricing, c: ToolCall): int {
    10 + p.text(c.id) + p.text(c.kind) + p.text(c.name) + p.text(c.arguments)
  }

  function CallsTokens(p: Pricing, calls: seq<ToolCall>): int {
    if |calls| == 0 then 0 else CallsTokens(p, calls[..|calls| - 1]) + CallTokens(p, calls[|calls| - 1])
  }

  function MessageTokens(p: Pricing, m: Message): int {
    6 + p.text(m.role) + p.text(m.content) + p.text(m.callId) + CallsTokens(p, m.calls)
  }

  function MessagesTokens(p: Pricing, ms: seq<Message>): int {
    if |ms| == 0 then 0 else MessagesTokens(p, ms[..|ms| - 1]) + MessageTokens(p, ms[|ms| - 1])
  }

  function ToolTokens(p: Pricing, t: Tool): int {
    14 + p.text(t.kind) + p.text(t.name) + p.text(t.description) + (if t.parameters != "" then p.text(p.compact(t.parameters)) else 0)
  }

  function ToolsTokens(p: Pricing, ts: seq<Tool>): int {
    if |ts| == 0 then 0 else ToolsTokens(p, ts[..|ts| - 1]) + ToolTokens(p, ts[|ts| - 1])
  }

  function RequestTokens(p: Pricing, r: Request): int { 8 + MessagesTokens(p, r.messages) + ToolsTokens(p, r.tools) }

  // ----- Additive estimates -----

  /** A request without anything in it. */
  const NO_REQUEST := Request([], [], 0)

  /** Any estimator of requests. */
  type Estimate = Request -> int

  /** What a list of messages adds to a request, never below zero: `EstimateAdditional`. */
  function Additional(e: Estimate, ms: seq<Message>): nat {
    var total := e(Request(ms, [], 0)) - e(NO_REQUEST);
    if total < 0 then 0 else total
  }

  /** More messages at the end cost what they cost on their own, and the output limit is not charged. */
  ghost predicate Additive(e: Estimate) {
    && (forall a, b, tools, n :: e(Request(a + b, tools, n)) == e(Request(a, tools, 0)) + Additional(e, b))
    && (forall b :: e(Request(b, [], 0)) >= e(NO_REQUEST))
  }

  ghost predicate NonNegative(p: Pricing) { forall s :: p.text(s) >= 0 }

  lemma {:induction false} CallsNonNegative(p: Pricing, calls: seq<ToolCall>)
    requires NonNegative(p)
    ensures CallsTokens(p, calls) >= 0
  {
    if |calls| > 0 { CallsNonNegative(p, calls[..|calls| - 1]); }
  }

  lemma {:induction false} MessagesNonNegative(p: Pricing, ms: seq<Message>)
    requires NonNegative(p)
    ensures MessagesTokens(p, ms) >= 6 * |ms|
  {
    if |ms| > 0 {
      MessagesNonNegative(p, ms[..|ms| - 1]);
      CallsNonNegative(p, ms[|ms| - 1].calls);
    }
  }

  lemma {:induction false} MessagesConcat(p: Pricing, a: seq<Message>, b: seq<Message>)
    ensures MessagesTokens(p, a + b) == MessagesTokens(p, a) + MessagesTokens(p, b)
  {
    if |b| == 0 {
      assert a + b == a;
    } else {
      var k := |b| - 1;
      MessagesConcat(p, a, b[..k]);
      assert (a + b)[..|a + b| - 1] == a + b[..k];
    }
  }

  /** What messages add to a request is their own price. */
  lemma AdditionalIsPrice(p: Pricing, ms: seq<Message>)
    requires NonNegative(p)
    ensures var e := (r: Request) => RequestTokens(p, r); Additional(e, ms) == MessagesTokens(p, ms) && e(Request(ms, [], 0)) >= e(NO_REQUEST)
  {
    MessagesNonNegative(p, ms);
    assert MessagesTokens(p, []) == 0 && ToolsTokens(p, []) == 0;
  }

  /** The conservative estimator, with whatever price of texts, is additive. */
  lemma ConservativeIsAdditive(p: Pricing)
    requires NonNegative(p)
    ensures Additive(r => RequestTokens(p, r))
  {
    var e := (r: Request) => RequestTokens(p, r);
    forall b ensures Additional(e, b) == MessagesTokens(p, b) && e(Request(b, [], 0)) >= e(NO_REQUEST) { AdditionalIsPrice(p, b); }
    forall a, b, tools, n ensures e(Request(a + b, tools, n)) == e(Request(a, tools, 0)) + Additional(e, b) {
      MessagesConcat(p, a, b);
    }
  }

  lemma CountNone(wide: char -> bool)
    ensures Ascii("") == 0 && Wide("", wide) == 0
  {
  }

  lemma CountNext(s: string, k: nat, wide: char -> bool)
    requires k < |s|
    ensures Ascii(s[..k + 1]) == Ascii(s[..k]) + (if s[k] as int <= 127 then 1 else 0)
    ensures Wide(s[..k + 1], wide) == Wide(s[..k], wide) + (if s[k] as int > 127 && wide(s[k]) then 1 else 0)
  {
    assert s[..k + 1][..k] == s[..k];
  }

  /** The prices of texts under a calibration. */
  function Prices(wide: char -> bool, correction: real, compact: string -> string): Pricing {
    Pricing(s => TextTokens(s, wide, correction), compact)
  }

  // ----- The estimator object -----

  class ConservativeTokenEstimator {
    var correction: real
    const wide: char -> bool
    const compact: string -> string

    constructor (wide: char -> bool, compact: string -> string)
      ensures correction == 1.0 && this.wide == wide && this.compact == compact
    {
      correction, this.wide, this.compact := 1.0, wide, compact;
    }

    ghost function Current(): Pricing
      reads this
    {
      Prices(wide, correction, compact)
    }

    /** `EstimateText`: one pass over the characters. */
    method EstimateText(value: string) returns (r: int)
      ensures r == Current().text(value)
    {
      hide Ascii, Wide, DivideRoundUp;
      var ascii, cjk, other := 0, 0, 0;
      CountNone(wide);
      for k := 0 to |value|
        invariant ascii == Ascii(value[..k]) && cjk == Wide(value[..k], wide) && other == k - ascii - cjk
      {
        CountNext(value, k, wide);
        var current := value[k];
        if current as int <= 127 { ascii := ascii + 1; } else if wide(current) { cjk := cjk + 1; } else { other := other + 1; }
      }
      assert value[..|value|] == value;
      var raw := DivideRoundUp(ascii, 3) + cjk + DivideRoundUp(other, 2);
      RawTokensBounds(value, wide);
      if value != "" && raw == 0 { raw := 1; }
      r := Corrected(raw, correction);
      PriceOf(value);
    }

    lemma PriceOf(value: string)
      ensures Current().text(value) == TextTokens(value, wide, correction)
    {
      hide TextTokens;
    }

    method EstimateCalls(calls: seq<ToolCall>) returns (r: int)
      ensures r == CallsTokens(Current(), calls)
    {
      hide TextTokens;
      r := 0;
      for k := 0 to |calls|
        invariant r == CallsTokens(Current(), calls[..k])
      {
        assert calls[..k + 1][..k] == calls[..k];
        var id := EstimateText(calls[k].id);
        var kind := EstimateText(calls[k].kind);
        var name := EstimateText(calls[k].name);
        var arguments := EstimateText(calls[k].arguments);
        r := r + 10 + id + kind + name + arguments;
      }
      assert calls[..|calls|] == calls;
    }

    method EstimateMessages(messages: seq<Message>) returns (r: int)
      ensures r == MessagesTokens(Current(), messages)
    {
      hide TextTokens;
      r := 0;
      for k := 0 to |messages|
        invariant r == MessagesTokens(Current(), messages[..k])
      {
        assert messages[..k + 1][..k] == messages[..k];
        var role := EstimateText(messages[k].role);
        var content := EstimateText(messages[k].content);
        var callId := EstimateText(messages[k].callId);
        var calls := EstimateCalls(messages[k].calls);
        r := r + 6 + role + content + callId + calls;
      }
      assert messages[..|messages|] == messages;
    }

    method EstimateTools(tools: seq<Tool>) returns (r: int)
      ensures r == ToolsTokens(Current(), tools)
    {
      hide TextTokens;
      r := 0;
      for k := 0 to |tools|
        invariant r == ToolsTokens(Current(), tools[..k])
      {
        assert tools[..k + 1][..k] == tools[..k];
        var kind := EstimateText(tools[k].kind);
        var name := EstimateText(tools[k].name);
        var description := EstimateText(tools[k].description);
        r := r + 14 + kind + name + description;
        if tools[k].parameters != "" {
          var parameters := EstimateText(compact(tools[k].parameters));
          r := r + parameters;
        }
      }
      assert tools[..|tools|] == tools;
    }

    /** `EstimateRequest`. */
    method EstimateRequest(request: Request) returns (r: int)
      ensures r == RequestTokens(Current(), request)
    {
      var messages := EstimateMessages(request.messages);
      var tools := EstimateTools(request.tools);
      r := 8 + messages + tools;
    }

    /** `ObserveActual`: recalibrate from the provider's count, unless it is implausible. */
    method ObserveActual(estimated: int, actual: int)
      modifies this
      ensures correction == Observed(old(correction), estimated, actual)
    {
      if estimated <= 0 || actual <= 0 { return; }
      var ratio := actual as real / estimated as real;
      if ratio < 0.5 || ratio > 2.5 { return; }
      if correction <= 0.0 { correction := 1.0; }
      correction := correction * ((1.0 - 0.2) + 0.2 * ratio);
      correction := if correction > 2.5 then 2.5 else correction;
      correction := if correction < 0.75 then 0.75 else correction;
    }
  }

  /** With any calibration in its range the prices are not negative, and only the empty text is free. */
  lemma CalibratedPrices(s: string, wide: char -> bool, correction: real)
    requires 0.75 <= correction <= 2.5
    ensures TextTokens(s, wide, correction) >= 0 && (TextTokens(s, wide, correction) == 0 <==> s == "")
  {
    RawTokensBounds(s, wide);
    var raw := RawTokens(s, wide);
    if raw > 0 { AtLeast(raw as real, correction); }
  }

  /** So the estimator with a fixed calibration in its range is one for which the planner's accounting is exact. */
  lemma CalibratedIsAdditive(wide: char -> bool, correction: real, compact: string -> string)
    requires 0.75 <= correction <= 2.5
    ensures Additive(r => RequestTokens(Prices(wide, correction, compact), r))
  {
    var p := Prices(wide, correction, compact);
    forall s ensures p.text(s) >= 0 { CalibratedPrices(s, wide, correction); }
    hide TextTokens;
    ConservativeIsAdditive(p);
  }

  lemma AtLeast(x: real, y: real)
    requires x >= 1.0 && y >= 0.75
    ensures x * y >= 0.75
  {
  }
}
