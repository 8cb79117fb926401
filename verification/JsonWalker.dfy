/** The walker that decides which argument texts are legal: one JSON object, no null and no repeated name at any
    depth. It consumes the tokens of a streaming decoder, whose token machine is modelled over lexemes. */
module JsonWalker {
  import opened Basics

  // ----- Documents -----

  /** A lexeme of the text; `Bad` is anything that is none. Names and texts are compared after unescaping. */
  datatype Lexeme = Open | Close | OpenList | CloseList | Colon | Comma | Str(value: string) | Plain(text: string) | Null | Bad

  datatype Json = Text(value: string) | Literal(text: string) | NullValue | List(items: seq<Json>) | Object(members: seq<Member>)

  datatype Member = Member(name: string, value: Json)

  function Print(j: Json): (r: seq<Lexeme>)
    ensures |r| > 0
  {
    match j
    case Text(value) => [Str(value)]
    case Literal(text) => [Plain(text)]
    case NullValue => [Null]
    case List(items) => [OpenList] + PrintItems(items) + [CloseList]
    case Object(members) => [Open] + PrintMembers(members) + [Close]
  }

  function PrintItems(items: seq<Json>): seq<Lexeme> {
    if |items| == 0 then []
    else
      var k := |items| - 1;
      PrintItems(items[..k]) + (if k == 0 then [] else [Comma]) + Print(items[k])
  }

  function PrintMembers(members: seq<Member>): seq<Lexeme> {
    if |members| == 0 then []
    else
      var k := |members| - 1;
      PrintMembers(members[..k]) + (if k == 0 then [] else [Comma]) + ([Str(members[k].name), Colon] + Print(members[k].value))
  }

  ghost predicate DistinctNames(members: seq<Member>) {
    forall i, k :: 0 <= i < k < |members| ==> members[i].name != members[k].name
  }

  /** No null and no repeated name, at any depth. */
  ghost predicate Clean(j: Json) {
    match j
    case NullValue => false
    case List(items) => forall i :: 0 <= i < |items| ==> Clean(items[i])
    case Object(members) => DistinctNames(members) && forall i :: 0 <= i < |members| ==> Clean(members[i].value)
    case _ => true
  }

  /** The value at the end of a path of indices, if the path leads anywhere. */
  function At(j: Json, path: seq<nat>): Option<Json>
    decreases |path|
  {
    if |path| == 0 then Some(j)
    else
      match j
      case List(items) => if path[0] < |items| then At(items[path[0]], path[1..]) else None
      case Object(members) => if path[0] < |members| then At(members[path[0]].value, path[1..]) else None
      case _ => None
  }

  /** Nothing is wrong with a value itself. */
  ghost predicate Sound(j: Json) {
    !j.NullValue? && (j.Object? ==> forall i, k :: 0 <= i < k < |j.members| ==> j.members[i].name != j.members[k].name)
  }

  /** Wherever a path leads in a value, there is nothing wrong. */
  ghost predicate SoundThroughout(j: Json) { forall path :: At(j, path).Some? ==> Sound(At(j, path).value) }

  lemma {:induction false} CleanBelow(j: Json, path: seq<nat>)
    requires Clean(j) && At(j, path).Some?
    ensures Sound(At(j, path).value)
    decreases |path|
  {
    if |path| > 0 {
      match j
      case List(items) => CleanBelow(items[path[0]], path[1..]);
      case Object(members) => CleanBelow(members[path[0]].value, path[1..]);
      case _ =>
    }
  }

  lemma {:induction false} SoundBelow(j: Json)
    requires SoundThroughout(j)
    ensures Clean(j)
    decreases j
  {
    assert At(j, []) == Some(j);
    match j
    case List(items) =>
      forall i | 0 <= i < |items| ensures Clean(items[i]) {
        forall path | At(items[i], path).Some? ensures Sound(At(items[i], path).value) {
          assert ([i] + path)[1..] == path;
          assert At(j, [i] + path) == At(items[i], path);
        }
        SoundBelow(items[i]);
      }
    case Object(members) =>
      forall i | 0 <= i < |members| ensures Clean(members[i].value) {
        forall path | At(members[i].value, path).Some? ensures Sound(At(members[i].value, path).value) {
          assert ([i] + path)[1..] == path;
          assert At(j, [i] + path) == At(members[i].value, path);
        }
        SoundBelow(members[i].value);
      }
    case _ =>
  }

  /** A value is clean exactly if, wherever a path leads in it, there is neither a null nor an object that repeats a name. */
  lemma CleanAtEveryDepth(j: Json)
    ensures Clean(j) <==> SoundThroughout(j)
  {
    if Clean(j) {
      forall path | At(j, path).Some? ensures Sound(At(j, path).value) { CleanBelow(j, path); }
    }
    if SoundThroughout(j) { SoundBelow(j); }
  }

  lemma {:induction false} ItemsWithoutNull(items: seq<Json>)
    requires forall i :: 0 <= i < |items| ==> Clean(items[i])
    ensures Null !in PrintItems(items)
    decreases items
  {
    if |items| > 0 {
      var k := |items| - 1;
      ItemsWithoutNull(items[..k]);
      CleanTextHasNoNull(items[k]);
    }
  }

  lemma {:induction false} MembersWithoutNull(members: seq<Member>)
    requires forall i :: 0 <= i < |members| ==> Clean(members[i].value)
    ensures Null !in PrintMembers(members)
    decreases members
  {
    if |members| > 0 {
      var k := |members| - 1;
      MembersWithoutNull(members[..k]);
      CleanTextHasNoNull(members[k].value);
    }
  }

  /** The text of a clean value has no null anywhere. */
  lemma {:induction false} CleanTextHasNoNull(j: Json)
    requires Clean(j)
    ensures Null !in Print(j)
    decreases j
  {
    match j
    case List(items) => ItemsWithoutNull(items);
    case Object(members) => MembersWithoutNull(members);
    case _ =>
  }

  // ----- The decoder -----

  datatype TokenState = TopValue | ArrayStart | ArrayValue | ArrayComma | ObjectStart | ObjectKey | ObjectColon | ObjectValue | ObjectComma

  datatype JsonToken = Delim(lexeme: Lexeme) | Name(value: string) | Other | NullToken | End | Failure

  datatype Cursor = Cursor(lexemes: seq<Lexeme>, pos: nat, state: TokenState, stack: seq<TokenState>)

  predicate ValueAllowed(s: TokenState) { s == TopValue || s == ArrayStart || s == ArrayValue || s == ObjectValue }

  /** The state after a value that began in state `s`. */
  function ValueEnd(s: TokenState): TokenState {
    match s
    case ArrayStart => ArrayComma
    case ArrayValue => ArrayComma
    case ObjectValue => ObjectComma
    case _ => s
  }

  /** The decoder between two calls. */
  class Decoder {
    const lexemes: seq<Lexeme>
    var pos: nat
    var state: TokenState
    var stack: seq<TokenState>

    constructor (lexemes: seq<Lexeme>)
      ensures Value() == Cursor(lexemes, 0, TopValue, [])
    {
      this.lexemes, pos, state, stack := lexemes, 0, TopValue, [];
    }

    ghost function Value(): Cursor
      reads this
    {
      Cursor(lexemes, pos, state, stack)
    }

    /** One turn of `Token`: deliver a token, fail, or pass over the punctuation the state calls for. */
    method Turn() returns (r: JsonToken, again: bool)
      requires pos < |lexemes|
      modifies this
      ensures (r, Value(), again) == Look(old(Value()))
      ensures old(pos) <= pos <= |lexemes| && (again ==> old(pos) < pos)
    {
      var c := lexemes[pos];
      again := false;
      match c {
        case OpenList =>
          if !ValueAllowed(state) { return Failure, false; }
          pos, stack, state := pos + 1, stack + [state], ArrayStart;
          r := Delim(c);
        case Open =>
          if !ValueAllowed(state) { return Failure, false; }
          pos, stack, state := pos + 1, stack + [state], ObjectStart;
          r := Delim(c);
        case CloseList =>
          if (state != ArrayStart && state != ArrayComma) || stack == [] { return Failure, false; }
          pos, state, stack := pos + 1, ValueEnd(stack[|stack| - 1]), stack[..|stack| - 1];
          r := Delim(c);
        case Close =>
          if (state != ObjectStart && state != ObjectComma) || stack == [] { return Failure, false; }
          pos, state, stack := pos + 1, ValueEnd(stack[|stack| - 1]), stack[..|stack| - 1];
          r := Delim(c);
        case Colon =>
          if state != ObjectColon { return Failure, false; }
          pos, state, r, again := pos + 1, ObjectValue, Failure, true;
        case Comma =>
          if state != ArrayComma && state != ObjectComma { return Failure, false; }
          pos, state, r, again := pos + 1, if state == ArrayComma then ArrayValue else ObjectKey, Failure, true;
        case Str(value) =>
          r := Name(value);
          if state == ObjectStart || state == ObjectKey {
            pos, state := pos + 1, ObjectColon;
            return;
          }
          if !ValueAllowed(state) { return Failure, false; }
          pos, state := pos + 1, ValueEnd(state);
        case Plain(_) =>
          if !ValueAllowed(state) { return Failure, false; }
          pos, state, r := pos + 1, ValueEnd(state), Other;
        case Null =>
          if !ValueAllowed(state) { return Failure, false; }
          pos, state, r := pos + 1, ValueEnd(state), NullToken;
        case Bad => r := Failure;
      }
    }

    /** `Token`. */
    method Token() returns (r: JsonToken)
      modifies this
      ensures (r, Value()) == Advance(old(Value()))
      ensures old(pos) <= pos && (old(pos) <= |lexemes| ==> pos <= |lexemes|)
    {
      hide Look;
      while pos < |lexemes|
        invariant Advance(Value()) == Advance(old(Value())) && old(pos) <= pos && (old(pos) <= |lexemes| ==> pos <= |lexemes|)
        decreases |lexemes| - pos
      {
        var again;
        r, again := Turn();
        if !again { return; }
      }
      r := End;
    }

    /** `More`: whether another element may follow, looking only at the next lexeme. */
    method More() returns (r: bool)
      ensures r == MoreAt(Value())
    {
      r := pos < |lexemes| && lexemes[pos] != Close && lexemes[pos] != CloseList;
    }
  }

  predicate MoreAt(c: Cursor) { c.pos < |c.lexemes| && c.lexemes[c.pos] != Close && c.lexemes[c.pos] != CloseList }

  /** What one turn does: the token, the decoder afterwards, and whether there is another turn. */
  function Look(c: Cursor): (r: (JsonToken, Cursor, bool))
    requires c.pos < |c.lexemes|
    ensures r.1.lexemes == c.lexemes && (r.2 ==> r.1.pos == c.pos + 1)
  {
    var x, next := c.lexemes[c.pos], c.(pos := c.pos + 1);
    match x
    case OpenList => if ValueAllowed(c.state) then (Delim(x), next.(stack := c.stack + [c.state], state := ArrayStart), false) else (Failure, c, false)
    case Open => if ValueAllowed(c.state) then (Delim(x), next.(stack := c.stack + [c.state], state := ObjectStart), false) else (Failure, c, false)
    case CloseList =>
      if (c.state == ArrayStart || c.state == ArrayComma) && c.stack != []
      then (Delim(x), next.(state := ValueEnd(c.stack[|c.stack| - 1]), stack := c.stack[..|c.stack| - 1]), false) else (Failure, c, false)
    case Close =>
      if (c.state == ObjectStart || c.state == ObjectComma) && c.stack != []
      then (Delim(x), next.(state := ValueEnd(c.stack[|c.stack| - 1]), stack := c.stack[..|c.stack| - 1]), false) else (Failure, c, false)
    case Colon => if c.state == ObjectColon then (Failure, next.(state := ObjectValue), true) else (Failure, c, false)
    case Comma =>
      if c.state == ArrayComma then (Failure, next.(state := ArrayValue), true)
      else if c.state == ObjectComma then (Failure, next.(state := ObjectKey), true)
      else (Failure, c, false)
    case Str(value) =>
      if (c.state == ObjectStart || c.state == ObjectKey) then (Name(value), next.(state := ObjectColon), false)
      else if ValueAllowed(c.state) then (Name(value), next.(state := ValueEnd(c.state)), false)
      else (Failure, c, false)
    case Plain(_) => if ValueAllowed(c.state) then (Other, next.(state := ValueEnd(c.state)), false) else (Failure, c, false)
    case Null => if ValueAllowed(c.state) then (NullToken, next.(state := ValueEnd(c.state)), false) else (Failure, c, false)
    case Bad => (Failure, c, false)
  }

  /** What `Token` does. */
  function Advance(c: Cursor): (JsonToken, Cursor)
    decreases |c.lexemes| - c.pos
  {
    if c.pos >= |c.lexemes| then (End, c)
    else
      var turn := Look(c);
      if turn.2 then Advance(turn.1) else (turn.0, turn.1)
  }

  // ----- Reading -----

  /** `text` comes next. */
  predicate Ahead(c: Cursor, text: seq<Lexeme>) {
    c.pos + |text| <= |c.lexemes| && c.lexemes[c.pos..c.pos + |text|] == text
  }

  /** From `c` to `d` exactly `text` was consumed. */
  predicate Reads(c: Cursor, d: Cursor, text: seq<Lexeme>) {
    d.lexemes == c.lexemes && Ahead(c, text) && d.pos == c.pos + |text|
  }

  lemma ReadsTwice(c: Cursor, d: Cursor, e: Cursor, a: seq<Lexeme>, b: seq<Lexeme>)
    requires Reads(c, d, a) && Reads(d, e, b)
    ensures Reads(c, e, a + b)
  {
  }

  /** If more is known to be ahead than was read, the rest is ahead now. */
  lemma StillAhead(c: Cursor, d: Cursor, a: seq<Lexeme>, b: seq<Lexeme>, all: seq<Lexeme>)
    requires Reads(c, d, a) && Ahead(c, all) && a + b <= all
    ensures Ahead(d, b)
  {
    assert all[|a|..|a| + |b|] == b by { assert all[..|a + b|] == a + b; }
    assert c.lexemes[d.pos..d.pos + |b|] == c.lexemes[c.pos..c.pos + |all|][|a|..|a| + |b|];
  }

  lemma ReadsNothing(c: Cursor)
    requires c.pos <= |c.lexemes|
    ensures Reads(c, c, [])
  {
  }

  predicate Stops(t: JsonToken) { t == Failure || t == End }

  /** What stands between a value and what came before it. */
  function Lead(s: TokenState): seq<Lexeme> {
    match s case ObjectColon => [Colon] case ArrayComma => [Comma] case _ => []
  }

  /** The state in which the value behind the lead begins. */
  function Begun(s: TokenState): TokenState {
    match s case ObjectColon => ObjectValue case ArrayComma => ArrayValue case _ => s
  }

  predicate BeforeValue(s: TokenState) { s == ObjectColon || s == ArrayStart || s == ArrayComma }

  /** What the decoder delivers for a value that begins with `x`. */
  function TokenOf(x: Lexeme): JsonToken {
    match x
    case Str(value) => Name(value)
    case Plain(_) => Other
    case Null => NullToken
    case _ => Delim(x)
  }

  predicate Starts(x: Lexeme) { x == Open || x == OpenList || x == Null || x.Str? || x.Plain? }

  function Entered(c: Cursor, x: Lexeme): Cursor {
    var n := c.(pos := c.pos + |Lead(c.state)| + 1);
    match x
    case Open => n.(state := ObjectStart, stack := c.stack + [Begun(c.state)])
    case OpenList => n.(state := ArrayStart, stack := c.stack + [Begun(c.state)])
    case _ => n.(state := ValueEnd(Begun(c.state)))
  }

  lemma AheadOne(c: Cursor, x: Lexeme)
    ensures Ahead(c, [x]) <==> c.pos < |c.lexemes| && c.lexemes[c.pos] == x
  {
    if c.pos < |c.lexemes| { assert c.lexemes[c.pos..c.pos + 1] == [c.lexemes[c.pos]]; }
  }

  lemma AheadTwo(c: Cursor, x: Lexeme, y: Lexeme)
    ensures Ahead(c, [x] + [y]) <==> c.pos + 1 < |c.lexemes| && c.lexemes[c.pos] == x && c.lexemes[c.pos + 1] == y
  {
    if c.pos + 1 < |c.lexemes| {
      var s := c.lexemes[c.pos..c.pos + 2];
      assert s == [s[0]] + [s[1]] && ([x] + [y])[0] == x && ([x] + [y])[1] == y;
    }
  }

  /** Where a value is due, the decoder either fails, or reads the lead and the first lexeme of a value. */
  lemma AdvanceValue(c: Cursor)
    requires BeforeValue(c.state) && c.pos <= |c.lexemes| && (c.state != ObjectColon ==> MoreAt(c))
    ensures var k := c.pos + |Lead(c.state)|;
            if k < |c.lexemes| && Ahead(c, Lead(c.state)) && Starts(c.lexemes[k])
            then Advance(c) == (TokenOf(c.lexemes[k]), Entered(c, c.lexemes[k])) && Reads(c, Entered(c, c.lexemes[k]), Lead(c.state) + [c.lexemes[k]])
            else Stops(Advance(c).0)
  {
    hide Advance, Look, Ahead, MoreAt, TokenOf, Starts;
    if c.pos == |c.lexemes| {
      AtEnd(c);
    } else if c.state == ArrayStart {
      AheadOne(c, c.lexemes[c.pos]);
      assert [] + [c.lexemes[c.pos]] == [c.lexemes[c.pos]];
      AheadNothing(c);
      AtStart(c);
      MoreIsNoBracket(c);
    } else {
      var mark := if c.state == ObjectColon then Colon else Comma;
      AheadOne(c, mark);
      var d := c.(pos := c.pos + 1, state := Begun(c.state));
      PastMark(c);
      if d.pos < |d.lexemes| {
        AheadTwo(c, mark, c.lexemes[d.pos]);
        AtStart(d);
      } else {
        AtEnd(d);
      }
    }
  }

  lemma MoreIsNoBracket(c: Cursor)
    requires MoreAt(c)
    ensures c.pos < |c.lexemes| && c.lexemes[c.pos] != CloseList
  {
  }

  lemma AtEnd(c: Cursor)
    requires c.pos == |c.lexemes|
    ensures Advance(c).0 == End
  {
  }

  lemma PastMark(c: Cursor)
    requires (c.state == ObjectColon || (c.state == ArrayComma && MoreAt(c))) && c.pos < |c.lexemes|
    ensures if c.lexemes[c.pos] == (if c.state == ObjectColon then Colon else Comma)
            then Advance(c) == Advance(c.(pos := c.pos + 1, state := Begun(c.state)))
            else Stops(Advance(c).0)
  {
    hide Advance;
    AdvanceOnce(c);
  }

  lemma AdvanceOnce(c: Cursor)
    requires c.pos < |c.lexemes|
    ensures !Look(c).2 ==> Advance(c) == (Look(c).0, Look(c).1)
    ensures Look(c).2 ==> Advance(c) == Advance(Look(c).1)
  {
    hide Look;
  }

  lemma AtStart(c: Cursor)
    requires (c.state == ArrayStart || c.state == ArrayValue || c.state == ObjectValue) && c.pos < |c.lexemes|
    ensures var x, n := c.lexemes[c.pos], c.(pos := c.pos + 1);
            if Starts(x) then
              Advance(c) == (TokenOf(x), match x
                                         case Open => n.(state := ObjectStart, stack := c.stack + [c.state])
                                         case OpenList => n.(state := ArrayStart, stack := c.stack + [c.state])
                                         case _ => n.(state := ValueEnd(c.state)))
            else Stops(Advance(c).0) || (c.state == ArrayStart && x == CloseList)
  {
    hide Advance;
    AdvanceOnce(c);
  }

  /** What stands before a member's name. */
  function Separator(s: TokenState): seq<Lexeme> { if s == ObjectComma then [Comma] else [] }

  lemma AdvanceName(c: Cursor)
    requires (c.state == ObjectStart || c.state == ObjectComma) && c.pos <= |c.lexemes| && MoreAt(c)
    ensures var k := c.pos + |Separator(c.state)|;
            if k < |c.lexemes| && Ahead(c, Separator(c.state)) && c.lexemes[k].Str?
            then Advance(c) == (Name(c.lexemes[k].value), c.(pos := k + 1, state := ObjectColon))
                 && Reads(c, c.(pos := k + 1, state := ObjectColon), Separator(c.state) + [c.lexemes[k]])
            else !Advance(c).0.Name?
  {
    hide Advance, Ahead;
    if c.state == ObjectStart {
      AheadOne(c, c.lexemes[c.pos]);
      assert [] + [c.lexemes[c.pos]] == [c.lexemes[c.pos]];
      AheadNothing(c);
      AtName(c);
    } else {
      AheadOne(c, Comma);
      var d := c.(pos := c.pos + 1, state := ObjectKey);
      PastComma(c);
      if d.pos < |d.lexemes| {
        AheadTwo(c, Comma, c.lexemes[d.pos]);
        AtName(d);
      }
    }
  }

  lemma AheadNothing(c: Cursor)
    requires c.pos <= |c.lexemes|
    ensures Ahead(c, [])
  {
  }

  lemma PastComma(c: Cursor)
    requires c.state == ObjectComma && c.pos < |c.lexemes| && MoreAt(c)
    ensures if c.lexemes[c.pos] == Comma then Advance(c) == Advance(c.(pos := c.pos + 1, state := ObjectKey)) else !Advance(c).0.Name?
    ensures c.pos + 1 == |c.lexemes| ==> !Advance(c).0.Name?
  {
    hide Advance;
    AdvanceOnce(c);
    if c.pos + 1 == |c.lexemes| { AtEnd(c.(pos := c.pos + 1, state := ObjectKey)); }
  }

  lemma AtName(c: Cursor)
    requires (c.state == ObjectStart || c.state == ObjectKey) && c.pos < |c.lexemes|
    ensures if c.lexemes[c.pos].Str? then Advance(c) == (Name(c.lexemes[c.pos].value), c.(pos := c.pos + 1, state := ObjectColon))
            else !Advance(c).0.Name?
  {
    hide Advance;
    AdvanceOnce(c);
  }

  /** The bracket that ends a list or an object. */
  lemma AdvanceEnd(c: Cursor, close: Lexeme)
    requires c.pos <= |c.lexemes| && c.stack != [] && !MoreAt(c)
    requires if close == Close then (c.state == ObjectStart || c.state == ObjectComma) else close == CloseList && (c.state == ArrayStart || c.state == ArrayComma)
    ensures var d := c.(pos := c.pos + 1, state := ValueEnd(c.stack[|c.stack| - 1]), stack := c.stack[..|c.stack| - 1]);
            if Ahead(c, [close]) then Advance(c) == (Delim(close), d) && Reads(c, d, [close]) else Stops(Advance(c).0)
  {
    if Ahead(c, [close]) { assert c.lexemes[c.pos..c.pos + 1][0] == close; }
  }

  // ----- Prefixes of printed lists -----

  function ItemText(items: seq<Json>, k: nat): seq<Lexeme>
    requires k < |items|
  {
    (if k == 0 then [] else [Comma]) + Print(items[k])
  }

  function MemberText(members: seq<Member>, k: nat): seq<Lexeme>
    requires k < |members|
  {
    (if k == 0 then [] else [Comma]) + ([Str(members[k].name), Colon] + Print(members[k].value))
  }

  lemma {:induction false} ItemsPrefix(items: seq<Json>, k: nat)
    requires k <= |items|
    ensures PrintItems(items[..k]) <= PrintItems(items)
    ensures k < |items| ==> PrintItems(items[..k]) + ItemText(items, k) <= PrintItems(items)
    decreases |items|
  {
    if k < |items| {
      var n := |items| - 1;
      var t := items[..n];
      assert PrintItems(t) <= PrintItems(items);
      if k < n {
        ItemsPrefix(t, k);
        assert t[..k] == items[..k] && ItemText(t, k) == ItemText(items, k);
      }
    } else {
      assert items[..k] == items;
    }
  }

  lemma {:induction false} MembersPrefix(members: seq<Member>, k: nat)
    requires k <= |members|
    ensures PrintMembers(members[..k]) <= PrintMembers(members)
    ensures k < |members| ==> PrintMembers(members[..k]) + MemberText(members, k) <= PrintMembers(members)
    decreases |members|
  {
    if k < |members| {
      var n := |members| - 1;
      var t := members[..n];
      assert PrintMembers(t) <= PrintMembers(members);
      if k < n {
        MembersPrefix(t, k);
        assert t[..k] == members[..k] && MemberText(t, k) == MemberText(members, k);
      }
    } else {
      assert members[..k] == members;
    }
  }

  // ----- The walker -----

  /** The value a walk should find, when there is one: it is clean and it comes next. */
  ghost predicate Wanted(c: Cursor, want: Option<Json>) {
    want.Some? ==> Clean(want.value) && Ahead(c, Lead(c.state) + Print(want.value))
  }

  ghost predicate WantedMembers(c: Cursor, want: Option<seq<Member>>) {
    want.Some? ==> Clean(Object(want.value)) && Ahead(c, PrintMembers(want.value) + [Close])
  }

  ghost predicate WantedItems(c: Cursor, want: Option<seq<Json>>) {
    want.Some? ==> Clean(List(want.value)) && Ahead(c, PrintItems(want.value) + [CloseList])
  }

  /** A clean value was read behind its lead, and the decoder is where a value leaves it. */
  ghost predicate Walked(c: Cursor, d: Cursor, j: Json) {
    Clean(j) && Reads(c, d, Lead(c.state) + Print(j)) && d.state == ValueEnd(Begun(c.state)) && d.stack == c.stack
  }

  /** The rest of an object or a list was read, its bracket included. */
  ghost predicate Closed(c: Cursor, d: Cursor, text: seq<Lexeme>)
    requires c.stack != []
  {
    Reads(c, d, text) && d.state == ValueEnd(c.stack[|c.stack| - 1]) && d.stack == c.stack[..|c.stack| - 1]
  }

  /** The first members of an object were read. */
  ghost predicate MembersSoFar(c: Cursor, d: Cursor, members: seq<Member>) {
    && Reads(c, d, PrintMembers(members)) && d.stack == c.stack && Clean(Object(members))
    && d.state == if members == [] then ObjectStart else ObjectComma
  }

  ghost predicate ItemsSoFar(c: Cursor, d: Cursor, items: seq<Json>) {
    && Reads(c, d, PrintItems(items)) && d.stack == c.stack && Clean(List(items))
    && d.state == if items == [] then ArrayStart else ArrayComma
  }

  function NamesOf(members: seq<Member>): set<string> { set i | 0 <= i < |members| :: members[i].name }

  ghost predicate PartOf<T>(some: seq<T>, want: Option<seq<T>>) { want.Some? ==> some <= want.value }

  // What a wanted value, member or item begins with.

  lemma WantStarts(c: Cursor, j: Json)
    requires Clean(j) && Ahead(c, Lead(c.state) + Print(j))
    ensures var k := c.pos + |Lead(c.state)|;
            && k < |c.lexemes| && Ahead(c, Lead(c.state)) && Starts(c.lexemes[k]) && c.lexemes[k] == Print(j)[0] && c.lexemes[k] != Null
  {
    var text, k := Lead(c.state) + Print(j), |Lead(c.state)|;
    assert c.lexemes[c.pos..c.pos + |text|][k] == text[k];
    assert c.lexemes[c.pos..c.pos + |text|][..k] == text[..k] == Lead(c.state);
  }

  lemma WantName(c: Cursor, d: Cursor, members: seq<Member>, want: seq<Member>)
    requires MembersSoFar(c, d, members) && members <= want && WantedMembers(c, Some(want)) && MoreAt(d)
    ensures |members| < |want|
    ensures var k := d.pos + |Separator(d.state)|;
            k < |d.lexemes| && Ahead(d, Separator(d.state)) && d.lexemes[k] == Str(want[|members|].name)
    ensures Ahead(d, MemberText(want, |members|)) && want[|members|].name !in NamesOf(members)
  {
    var n := |members|;
    assert members == want[..n];
    MembersPrefix(want, n);
    if n == |want| {
      assert want[..n] == want;
      StillAhead(c, d, PrintMembers(members), [Close], PrintMembers(want) + [Close]);
      AheadOne(d, Close);
    } else {
      StillAhead(c, d, PrintMembers(members), MemberText(want, n), PrintMembers(want) + [Close]);
      var text, k := MemberText(want, n), |Separator(d.state)|;
      assert Separator(d.state) == if n == 0 then [] else [Comma];
      assert d.lexemes[d.pos..d.pos + |text|][k] == text[k];
      assert d.lexemes[d.pos..d.pos + |text|][..k] == text[..k] == Separator(d.state);
    }
  }

  lemma WantMember(c: Cursor, d: Cursor, members: seq<Member>, k: nat)
    requires k < |members| && Ahead(c, MemberText(members, k)) && d.state == ObjectColon && Clean(Object(members))
    requires c.state == (if k == 0 then ObjectStart else ObjectComma) && Reads(c, d, Separator(c.state) + [Str(members[k].name)])
    ensures Wanted(d, Some(members[k].value))
  {
    var lead, rest := (if k == 0 then [] else [Comma]) + [Str(members[k].name)], [Colon] + Print(members[k].value);
    assert MemberText(members, k) == lead + rest;
    StillAhead(c, d, lead, rest, MemberText(members, k));
  }

  lemma MemberRead(c: Cursor, d: Cursor, e: Cursor, f: Cursor, members: seq<Member>, name: string, v: Json)
    requires MembersSoFar(c, d, members) && name !in NamesOf(members) && e.state == ObjectColon && e.stack == d.stack
    requires Reads(d, e, Separator(d.state) + [Str(name)]) && Walked(e, f, v)
    ensures MembersSoFar(c, f, members + [Member(name, v)]) && NamesOf(members + [Member(name, v)]) == NamesOf(members) + {name}
  {
    hide Reads, Print;
    var more := members + [Member(name, v)];
    assert more[..|members|] == members;
    ReadsTwice(d, e, f, Separator(d.state) + [Str(name)], [Colon] + Print(v));
    var text := Separator(d.state) + [Str(name)] + ([Colon] + Print(v));
    ReadsTwice(c, d, f, PrintMembers(members), text);
    assert text == MemberText(more, |members|);
    assert PrintMembers(more) == PrintMembers(members) + text;
    forall i, k | 0 <= i < k < |more| ensures more[i].name != more[k].name {
      if k == |members| { assert more[i].name in NamesOf(members); }
    }
  }

  lemma BetweenMembers(c: Cursor, d: Cursor, members: seq<Member>)
    requires MembersSoFar(c, d, members)
    ensures d.state == (if |members| == 0 then ObjectStart else ObjectComma) && d.stack == c.stack
  {
  }

  lemma NoMembers(c: Cursor)
    requires c.pos <= |c.lexemes| && c.state == ObjectStart
    ensures MembersSoFar(c, c, [])
  {
    ReadsNothing(c);
  }

  lemma MembersEnd(c: Cursor, d: Cursor, members: seq<Member>, want: Option<seq<Member>>)
    requires MembersSoFar(c, d, members) && c.stack != [] && PartOf(members, want) && WantedMembers(c, want) && !MoreAt(d)
    requires d.pos <= |d.lexemes|
    ensures Clean(Object(members))
    ensures Stops(Advance(d).0) || Closed(c, Advance(d).1, PrintMembers(members) + [Close])
    ensures want.Some? ==> members == want.value && !Stops(Advance(d).0)
  {
    hide Advance, Ahead, Reads, Print, PrintMembers, Clean, MoreAt, MemberText;
    AdvanceEnd(d, Close);
    if Ahead(d, [Close]) { ReadsTwice(c, d, Advance(d).1, PrintMembers(members), [Close]); }
    if want.Some? { MembersAllRead(c, d, members, want.value); }
  }

  lemma MemberTextMeansMore(d: Cursor, members: seq<Member>, k: nat)
    requires k < |members| && Ahead(d, MemberText(members, k))
    ensures MoreAt(d)
  {
    var text := MemberText(members, k);
    assert d.lexemes[d.pos..d.pos + |text|][0] == text[0];
  }

  lemma MembersAllRead(c: Cursor, d: Cursor, members: seq<Member>, want: seq<Member>)
    requires Reads(c, d, PrintMembers(members)) && members <= want && Ahead(c, PrintMembers(want) + [Close]) && !MoreAt(d)
    ensures members == want && Ahead(d, [Close])
  {
    hide Reads, Print, PrintMembers;
    var n := |members|;
    assert members == want[..n];
    MembersPrefix(want, n);
    if n < |want| {
      StillAhead(c, d, PrintMembers(members), MemberText(want, n), PrintMembers(want) + [Close]);
      MemberTextMeansMore(d, want, n);
    } else {
      assert want[..n] == want;
      StillAhead(c, d, PrintMembers(members), [Close], PrintMembers(want) + [Close]);
    }
  }

  /** `checkObjectMembers`. */
  method CheckMembers(d: Decoder, ghost want: Option<seq<Member>>) returns (ok: bool, ghost members: seq<Member>)
    requires d.pos <= |d.lexemes| && d.state == ObjectStart && d.stack != [] && WantedMembers(d.Value(), want)
    modifies d
    ensures old(d.pos) <= d.pos <= |d.lexemes|
    ensures ok ==> Clean(Object(members)) && Closed(old(d.Value()), d.Value(), PrintMembers(members) + [Close])
    ensures want.Some? ==> ok && members == want.value
    decreases |d.lexemes| - d.pos, 1
  {
    hide Advance, Ahead, Reads, Print, PrintMembers, Clean, Walked, Closed, MembersSoFar, MemberText, Separator, MoreAt;
    ghost var c := d.Value();
    members := [];
    NoMembers(c);
    var seen: set<string> := {};
    var more := d.More();
    while more
      invariant old(d.pos) <= d.pos <= |d.lexemes| && more == MoreAt(d.Value())
      invariant MembersSoFar(c, d.Value(), members) && seen == NamesOf(members) && PartOf(members, want)
      decreases |d.lexemes| - d.pos
    {
      ghost var before := d.Value();
      BetweenMembers(c, before, members);
      AdvanceName(before);
      if want.Some? { WantName(c, before, members, want.value); }
      var key := d.Token();
      if !key.Name? || key.value in seen { return false, members; }
      seen := seen + {key.value};
      ghost var named, next: Option<Json> := d.Value(), None;
      assert Reads(before, named, Separator(before.state) + [Str(key.value)]);
      if want.Some? {
        WantMember(before, named, want.value, |members|);
        next := Some(want.value[|members|].value);
      }
      ghost var v;
      var valueOk;
      valueOk, v := CheckValue(d, next);
      if !valueOk { return false, members; }
      MemberRead(c, before, named, d.Value(), members, key.value, v);
      members := members + [Member(key.value, v)];
      more := d.More();
    }
    MembersEnd(c, d.Value(), members, want);
    var last := d.Token();
    ok := last != Failure && last != End;
  }

  // The same for lists.

  lemma WantItem(c: Cursor, d: Cursor, items: seq<Json>, want: seq<Json>)
    requires ItemsSoFar(c, d, items) && items <= want && WantedItems(c, Some(want)) && MoreAt(d)
    ensures |items| < |want| && Wanted(d, Some(want[|items|]))
  {
    var n := |items|;
    assert items == want[..n];
    ItemsPrefix(want, n);
    if n == |want| {
      assert want[..n] == want;
      StillAhead(c, d, PrintItems(items), [CloseList], PrintItems(want) + [CloseList]);
      AheadOne(d, CloseList);
    } else {
      StillAhead(c, d, PrintItems(items), ItemText(want, n), PrintItems(want) + [CloseList]);
      assert Lead(d.state) == if n == 0 then [] else [Comma];
    }
  }

  lemma ItemRead(c: Cursor, d: Cursor, e: Cursor, items: seq<Json>, v: Json)
    requires ItemsSoFar(c, d, items) && Walked(d, e, v)
    ensures ItemsSoFar(c, e, items + [v])
  {
    hide Reads, Print;
    var more := items + [v];
    assert more[..|items|] == items;
    ReadsTwice(c, d, e, PrintItems(items), Lead(d.state) + Print(v));
    assert Lead(d.state) + Print(v) == ItemText(more, |items|);
    assert PrintItems(more) == PrintItems(items) + ItemText(more, |items|);
  }

  lemma BetweenItems(c: Cursor, d: Cursor, items: seq<Json>)
    requires ItemsSoFar(c, d, items)
    ensures d.state == (if |items| == 0 then ArrayStart else ArrayComma) && d.stack == c.stack
  {
  }

  lemma NoItems(c: Cursor)
    requires c.pos <= |c.lexemes| && c.state == ArrayStart
    ensures ItemsSoFar(c, c, [])
  {
    ReadsNothing(c);
  }

  lemma ItemsEnd(c: Cursor, d: Cursor, items: seq<Json>, want: Option<seq<Json>>)
    requires ItemsSoFar(c, d, items) && c.stack != [] && PartOf(items, want) && WantedItems(c, want) && !MoreAt(d)
    requires d.pos <= |d.lexemes|
    ensures Clean(List(items))
    ensures Stops(Advance(d).0) || Closed(c, Advance(d).1, PrintItems(items) + [CloseList])
    ensures want.Some? ==> items == want.value && !Stops(Advance(d).0)
  {
    hide Advance, Ahead, Reads, Print, PrintItems, Clean, MoreAt, ItemText;
    AdvanceEnd(d, CloseList);
    if Ahead(d, [CloseList]) { ReadsTwice(c, d, Advance(d).1, PrintItems(items), [CloseList]); }
    if want.Some? { ItemsAllRead(c, d, items, want.value); }
  }

  lemma ItemsAllRead(c: Cursor, d: Cursor, items: seq<Json>, want: seq<Json>)
    requires Reads(c, d, PrintItems(items)) && items <= want && Ahead(c, PrintItems(want) + [CloseList]) && !MoreAt(d)
    ensures items == want && Ahead(d, [CloseList])
  {
    hide Reads, PrintItems;
    var n := |items|;
    assert items == want[..n];
    ItemsPrefix(want, n);
    if n < |want| {
      StillAhead(c, d, PrintItems(items), ItemText(want, n), PrintItems(want) + [CloseList]);
      ItemTextMeansMore(d, want, n);
    } else {
      assert want[..n] == want;
      StillAhead(c, d, PrintItems(items), [CloseList], PrintItems(want) + [CloseList]);
    }
  }

  lemma ItemTextMeansMore(d: Cursor, items: seq<Json>, k: nat)
    requires k < |items| && Ahead(d, ItemText(items, k))
    ensures MoreAt(d)
  {
    var text := ItemText(items, k);
    assert text[0] != Close && text[0] != CloseList;
    assert d.lexemes[d.pos..d.pos + |text|][0] == text[0];
  }

  /** The list loop of `checkJSONValue`. */
  method CheckItems(d: Decoder, ghost want: Option<seq<Json>>) returns (ok: bool, ghost items: seq<Json>)
    requires d.pos <= |d.lexemes| && d.state == ArrayStart && d.stack != [] && WantedItems(d.Value(), want)
    modifies d
    ensures old(d.pos) <= d.pos <= |d.lexemes|
    ensures ok ==> Clean(List(items)) && Closed(old(d.Value()), d.Value(), PrintItems(items) + [CloseList])
    ensures want.Some? ==> ok && items == want.value
    decreases |d.lexemes| - d.pos, 1
  {
    hide Advance, Ahead, Reads, Print, PrintItems, Clean, Walked, Closed, ItemsSoFar, MoreAt;
    ghost var c := d.Value();
    items := [];
    NoItems(c);
    var more := d.More();
    while more
      invariant old(d.pos) <= d.pos <= |d.lexemes| && more == MoreAt(d.Value())
      invariant ItemsSoFar(c, d.Value(), items) && PartOf(items, want)
      decreases |d.lexemes| - d.pos
    {
      ghost var before, next: Option<Json> := d.Value(), None;
      BetweenItems(c, before, items);
      if want.Some? {
        WantItem(c, before, items, want.value);
        next := Some(want.value[|items|]);
      }
      ghost var v;
      var valueOk;
      valueOk, v := CheckValue(d, next);
      if !valueOk { return false, items; }
      ItemRead(c, before, d.Value(), items, v);
      items := items + [v];
      more := d.More();
    }
    ItemsEnd(c, d.Value(), items, want);
    var last := d.Token();
    ok := last != Failure && last != End;
  }

  // One value.

  lemma ScalarWalked(c: Cursor, j: Json)
    requires BeforeValue(c.state) && (j.Text? || j.Literal?) && Reads(c, Entered(c, Print(j)[0]), Lead(c.state) + [Print(j)[0]])
    ensures Walked(c, Entered(c, Print(j)[0]), j)
  {
  }

  /** What is wanted inside an object or a list, once its bracket is read. */
  lemma WantInside(c: Cursor, j: Json)
    requires Clean(j) && Ahead(c, Lead(c.state) + Print(j)) && (j.Object? || j.List?)
    requires Reads(c, Entered(c, Print(j)[0]), Lead(c.state) + [Print(j)[0]])
    ensures j.Object? ==> WantedMembers(Entered(c, Print(j)[0]), Some(j.members))
    ensures j.List? ==> WantedItems(Entered(c, Print(j)[0]), Some(j.items))
  {
    var e, lead := Entered(c, Print(j)[0]), Lead(c.state) + [Print(j)[0]];
    var rest := if j.Object? then PrintMembers(j.members) + [Close] else PrintItems(j.items) + [CloseList];
    assert Lead(c.state) + Print(j) == lead + rest;
    StillAhead(c, e, lead, rest, Lead(c.state) + Print(j));
  }

  lemma InsideWalked(c: Cursor, d: Cursor, j: Json)
    requires BeforeValue(c.state) && (j.Object? || j.List?) && Clean(j)
    requires Entered(c, Print(j)[0]).stack == c.stack + [Begun(c.state)]
    requires var e := Entered(c, Print(j)[0]);
             && Reads(c, e, Lead(c.state) + [Print(j)[0]])
             && Closed(e, d, if j.Object? then PrintMembers(j.members) + [Close] else PrintItems(j.items) + [CloseList])
    ensures Walked(c, d, j)
  {
    hide Reads, PrintItems, PrintMembers, Clean, Entered, Lead, Begun, ValueEnd;
    var e, lead := Entered(c, Print(j)[0]), Lead(c.state) + [Print(j)[0]];
    var rest := if j.Object? then PrintMembers(j.members) + [Close] else PrintItems(j.items) + [CloseList];
    ReadsTwice(c, e, d, lead, rest);
    assert [Print(j)[0]] + rest == Print(j);
    assert Lead(c.state) + Print(j) == lead + rest;
    assert e.stack[..|e.stack| - 1] == c.stack;
  }

  /** `checkJSONValue`: accepts whatever clean value comes next, and nothing else. */
  method CheckValue(d: Decoder, ghost want: Option<Json>) returns (ok: bool, ghost j: Json)
    requires d.pos <= |d.lexemes| && BeforeValue(d.state) && (d.state != ObjectColon ==> MoreAt(d.Value())) && Wanted(d.Value(), want)
    modifies d
    ensures old(d.pos) <= d.pos <= |d.lexemes|
    ensures ok ==> Walked(old(d.Value()), d.Value(), j) && old(d.pos) < d.pos
    ensures want.Some? ==> ok && j == want.value
    decreases |d.lexemes| - d.pos, 0
  {
    hide Advance, Ahead, Reads, PrintItems, PrintMembers, Clean, Walked, Closed, MoreAt;
    ghost var c := d.Value();
    j := NullValue;
    AdvanceValue(c);
    if want.Some? { WantStarts(c, want.value); }
    var token := d.Token();
    if token == Failure || token == End || token == NullToken { return false, j; }
    ghost var x := c.lexemes[c.pos + |Lead(c.state)|];
    if token.Delim? && token.lexeme == Open {
      ghost var inner: Option<seq<Member>>, members := None, [];
      if want.Some? {
        WantInside(c, want.value);
        inner := Some(want.value.members);
      }
      ok, members := CheckMembers(d, inner);
      j := Object(members);
      if ok { InsideWalked(c, d.Value(), j); }
    } else if token.Delim? && token.lexeme == OpenList {
      ghost var inner: Option<seq<Json>>, items := None, [];
      if want.Some? {
        WantInside(c, want.value);
        inner := Some(want.value.items);
      }
      ok, items := CheckItems(d, inner);
      j := List(items);
      if ok { InsideWalked(c, d.Value(), j); }
    } else {
      j := if x.Str? then Text(x.value) else Literal(x.text);
      ScalarWalked(c, j);
      ok := true;
    }
  }

  // ----- Whole argument texts -----

  const MAX_ARGUMENTS := 65536

  /** One object, clean, and nothing else. */
  ghost predicate LegalObject(lexemes: seq<Lexeme>, members: seq<Member>) {
    Clean(Object(members)) && lexemes == Print(Object(members))
  }

  /** At the top a document ends where the text ends. */
  lemma NothingFollows(c: Cursor)
    requires c.state == TopValue && c.pos <= |c.lexemes|
    ensures Advance(c).0 == End <==> c.pos == |c.lexemes|
  {
    hide Advance;
    if c.pos == |c.lexemes| { AtEnd(c); } else { AdvanceOnce(c); }
  }

  lemma FirstToken(c: Cursor)
    requires c.state == TopValue && c.pos == 0 && c.stack == []
    ensures if c.lexemes != [] && c.lexemes[0] == Open
            then Advance(c) == (Delim(Open), c.(pos := 1, state := ObjectStart, stack := [TopValue]))
            else Advance(c).0 != Delim(Open)
  {
    hide Advance;
    assert c.stack + [TopValue] == [TopValue];
    if c.lexemes == [] { AtEnd(c); } else { AdvanceOnce(c); }
  }

  lemma WantAll(c: Cursor, d: Cursor, members: seq<Member>)
    requires c.pos == 0 && LegalObject(c.lexemes, members) && d == c.(pos := 1, state := ObjectStart, stack := [TopValue])
    ensures c.lexemes != [] && c.lexemes[0] == Open && WantedMembers(d, Some(members))
    ensures |c.lexemes| == 1 + |PrintMembers(members) + [Close]|
  {
    var rest := PrintMembers(members) + [Close];
    assert c.lexemes == [Open] + rest;
    assert d.lexemes[1..1 + |rest|] == rest;
  }

  lemma AllRead(c: Cursor, d: Cursor, e: Cursor, members: seq<Member>)
    requires c.pos == 0 && c.lexemes != [] && c.lexemes[0] == Open && d == c.(pos := 1, state := ObjectStart, stack := [TopValue])
    requires Clean(Object(members)) && Closed(d, e, PrintMembers(members) + [Close])
    ensures e.state == TopValue && e.pos <= |e.lexemes| && e.lexemes == c.lexemes && e.pos == 1 + |PrintMembers(members) + [Close]|
    ensures e.pos == |e.lexemes| ==> LegalObject(c.lexemes, members)
  {
    var rest := PrintMembers(members) + [Close];
    if e.pos == |e.lexemes| {
      assert c.lexemes == [c.lexemes[0]] + c.lexemes[1..1 + |rest|];
      assert Print(Object(members)) == [Open] + rest;
    }
  }

  /** The first pass of `DecodeArguments`: the text is accepted if and only if it is within its limit, valid UTF-8,
      and the text of exactly one object without null or repeated names at any depth. */
  method LegalArguments(lexemes: seq<Lexeme>, byteLength: nat, utf8: bool) returns (ok: bool)
    ensures ok <==> byteLength <= MAX_ARGUMENTS && utf8 && exists members :: LegalObject(lexemes, members)
  {
    hide Advance, Clean, Print, Closed, WantedMembers, LegalObject;
    if byteLength > MAX_ARGUMENTS || !utf8 { return false; }
    var d := new Decoder(lexemes);
    ghost var c := d.Value();
    ghost var want: Option<seq<Member>> := None;
    ghost var inside := c.(pos := 1, state := ObjectStart, stack := [TopValue]);
    if exists members :: LegalObject(lexemes, members) {
      ghost var m :| LegalObject(lexemes, m);
      want := Some(m);
      WantAll(c, inside, m);
    }
    FirstToken(c);
    var first := d.Token();
    if first != Delim(Open) { return false; }
    NoneWanted(inside);
    ghost var members;
    ok, members := CheckMembers(d, want);
    if !ok { return false; }
    AllRead(c, inside, d.Value(), members);
    NothingFollows(d.Value());
    var trailing := d.Token();
    ok := trailing == End;
  }

  lemma NoneWanted(c: Cursor)
    ensures WantedMembers(c, None)
  {
  }
}
