/**
 * The generic tree parser: `ParseJson(string)`, `ParseJsonObject`, `ParseJsonValue` and
 * `ParseJsonArray`, recursive descent over a lexer with one token of lookahead.
 *
 * The ghost functions give the meaning of each procedure on a token sequence and a cursor
 * position; the methods, which drive a `Lexer` the way the source does, are proved to agree
 * with them. The object loop's check after a comma is a parameter `guard`: the source compares
 * with `RightBracket` (`WrittenGuard`); `IntendedGuard` is the comparison with `RightBrace`.
 */
module TreeParser {
  import opened Tokens
  import opened Types
  import opened Lexing
  import opened JsonTree

  const WrittenGuard: TokenKind := RightBracket
  const IntendedGuard: TokenKind := RightBrace

  /** `ParseJsonValue` at position `p`. */
  ghost function ValueAt(toks: seq<Token>, p: nat, guard: TokenKind): (r: Result<Parsed<JsonValue>>)
    requires p <= |toks|
    ensures r.Ok? ==> p < r.value.next <= |toks|
    decreases |toks| - p, 1
  {
    match KindAt(toks, p)
    case Null => Ok(Parsed(JNull, p + 1))
    case True => Ok(Parsed(JBool(true), p + 1))
    case False => Ok(Parsed(JBool(false), p + 1))
    case Number => Ok(Parsed(JNumber(toks[p].text), p + 1))
    case String => Ok(Parsed(JString(toks[p].text), p + 1))
    case LeftBracket =>
      (match ArrayAt(toks, p, guard)
       case Ok(Parsed(items, q)) => Ok(Parsed(JArray(items), q))
       case Err(e) => Err(e))
    case LeftBrace =>
      (match ObjectAt(toks, p, guard)
       case Ok(Parsed(obj, q)) => Ok(Parsed(JObject(obj), q))
       case Err(e) => Err(e))
    case _ => Err(NotAValue(KindAt(toks, p)))
  }

  /** `ParseJsonArray` at position `p`: demand `[`, then the element loop. */
  ghost function ArrayAt(toks: seq<Token>, p: nat, guard: TokenKind): (r: Result<Parsed<seq<JsonValue>>>)
    requires p <= |toks|
    ensures r.Ok? ==> p < r.value.next <= |toks|
    decreases |toks| - p, 0
  {
    if KindAt(toks, p) != LeftBracket then Err(Unexpected(LeftBracket, KindAt(toks, p)))
    else ElementsFrom(toks, p + 1, guard, [])
  }

  /** The array loop at its head, with the elements `acc` read so far. */
  ghost function ElementsFrom(toks: seq<Token>, p: nat, guard: TokenKind, acc: seq<JsonValue>)
    : (r: Result<Parsed<seq<JsonValue>>>)
    requires p <= |toks|
    ensures r.Ok? ==> p < r.value.next <= |toks|
    decreases |toks| - p, 2
  {
    if KindAt(toks, p) == RightBracket then Ok(Parsed(acc, p + 1))
    else
      match ValueAt(toks, p, guard)
      case Err(e) => Err(e)
      case Ok(Parsed(v, q)) => AfterElement(toks, q, guard, acc + [v])
  }

  /** The array loop after an element: a comma continues (unless `]` follows), else `]` ends it. */
  ghost function AfterElement(toks: seq<Token>, q: nat, guard: TokenKind, acc: seq<JsonValue>)
    : (r: Result<Parsed<seq<JsonValue>>>)
    requires q <= |toks|
    ensures r.Ok? ==> q < r.value.next <= |toks|
    decreases |toks| - q, 3
  {
    if KindAt(toks, q) == Comma then
      if KindAt(toks, q + 1) == RightBracket then Err(ArrayTrailingComma)
      else ElementsFrom(toks, q + 1, guard, acc)
    else if KindAt(toks, q) == RightBracket then Ok(Parsed(acc, q + 1))
    else Err(Unexpected(RightBracket, KindAt(toks, q)))
  }

  /** `ParseJsonObject` at position `p`: demand `{`, then the member loop. */
  ghost function ObjectAt(toks: seq<Token>, p: nat, guard: TokenKind): (r: Result<Parsed<ObjData>>)
    requires p <= |toks|
    ensures r.Ok? ==> p < r.value.next <= |toks|
    decreases |toks| - p, 0
  {
    if KindAt(toks, p) != LeftBrace then Err(Unexpected(LeftBrace, KindAt(toks, p)))
    else MembersFrom(toks, p + 1, guard, Unwritten)
  }

  /** The object loop at its head, with the object `acc` built so far. */
  ghost function MembersFrom(toks: seq<Token>, p: nat, guard: TokenKind, acc: ObjData)
    : (r: Result<Parsed<ObjData>>)
    requires p <= |toks|
    ensures r.Ok? ==> p < r.value.next <= |toks|
    decreases |toks| - p, 2
  {
    if KindAt(toks, p) == RightBrace then Ok(Parsed(acc, p + 1))
    else
      match MemberAt(toks, p, guard)
      case Err(e) => Err(e)
      case Ok(Parsed(e, q)) => AfterMember(toks, q, guard, Put(acc, e.key, e.value))
  }

  /** One member of an object: a string key, a colon, a value. */
  ghost function MemberAt(toks: seq<Token>, p: nat, guard: TokenKind): (r: Result<Parsed<Entry>>)
    requires p <= |toks|
    ensures r.Ok? ==> p < r.value.next <= |toks|
    decreases |toks| - p, 1
  {
    if KindAt(toks, p) != String then Err(Unexpected(String, KindAt(toks, p)))
    else if KindAt(toks, p + 1) != Colon then Err(Unexpected(Colon, KindAt(toks, p + 1)))
    else
      match ValueAt(toks, p + 2, guard)
      case Err(e) => Err(e)
      case Ok(Parsed(v, q)) => Ok(Parsed(Entry(toks[p].text, v), q))
  }

  /** The object loop after a member: a comma continues unless `guard` follows, else `}` ends it. */
  ghost function AfterMember(toks: seq<Token>, q: nat, guard: TokenKind, acc: ObjData)
    : (r: Result<Parsed<ObjData>>)
    requires q <= |toks|
    ensures r.Ok? ==> q < r.value.next <= |toks|
    decreases |toks| - q, 3
  {
    if KindAt(toks, q) == Comma then
      if KindAt(toks, q + 1) == guard then Err(ObjectTrailingComma)
      else MembersFrom(toks, q + 1, guard, acc)
    else if KindAt(toks, q) == RightBrace then Ok(Parsed(acc, q + 1))
    else Err(Unexpected(RightBrace, KindAt(toks, q)))
  }

  /** A method's result `r` and final cursor `pos` are those the function result `spec` gives. */
  ghost predicate Agrees<T>(r: Result<T>, spec: Result<Parsed<T>>, pos: nat)
  {
    match spec
    case Ok(Parsed(v, q)) => r == Ok(v) && pos == q
    case Err(e) => r == Err(e)
  }

  /** `ParseJson(string)`: the text must be one object. */
  method ParseJson(lexer: Lexer, toks: seq<Token>) returns (r: Result<JsonObject>)
    modifies lexer
    ensures lexer.Valid() && lexer.tokens == toks
    ensures var spec := ObjectAt(toks, 0, WrittenGuard);
      && (r.Ok? <==> spec.Ok?)
      && (r.Err? ==> r.error == spec.error)
      && (r.Ok? ==> fresh(r.value) && r.value.Data() == spec.value.value && lexer.pos == spec.value.next)
  {
    lexer.SetJsonText(toks);
    r := ParseJsonObject(lexer);
  }

  method ParseJsonObject(lexer: Lexer) returns (r: Result<JsonObject>)
    requires lexer.Valid()
    modifies lexer`pos
    ensures lexer.Valid()
    ensures var spec := ObjectAt(lexer.tokens, old(lexer.pos), WrittenGuard);
      && (r.Ok? <==> spec.Ok?)
      && (r.Err? ==> r.error == spec.error)
      && (r.Ok? ==> fresh(r.value) && r.value.Data() == spec.value.value && lexer.pos == spec.value.next)
    decreases |lexer.tokens| - lexer.pos, 0
  {
    var open := lexer.GetNextTokenOfType(LeftBrace);
    if open.Err? {
      return Err(open.error);
    }
    var obj := new JsonObject();
    var filled := ParseEntries(lexer, obj);
    r := if filled.Ok? then Ok(obj) else Err(filled.error);
  }

  /** The member loop of `ParseJsonObject`, writing into `obj`, and the closing `}`. */
  method ParseEntries(lexer: Lexer, obj: JsonObject) returns (r: Result<ObjData>)
    requires lexer.Valid()
    modifies lexer`pos, obj, obj.valueDict
    ensures lexer.Valid()
    ensures old(obj.valueDict) == null ==> obj.valueDict == null || fresh(obj.valueDict)
    ensures old(obj.valueDict) != null ==> obj.valueDict == old(obj.valueDict)
    ensures Agrees(r, MembersFrom(lexer.tokens, old(lexer.pos), WrittenGuard, old(obj.Data())), lexer.pos)
    ensures r.Ok? ==> r.value == obj.Data()
    decreases |lexer.tokens| - lexer.pos, 2
  {
    ghost var toks, start := lexer.tokens, lexer.pos;
    ghost var total := MembersFrom(toks, start, WrittenGuard, obj.Data());
    while lexer.LookNextTokenType() != RightBrace
      invariant lexer.Valid() && lexer.tokens == toks && start <= lexer.pos
      invariant old(obj.valueDict) == null ==> obj.valueDict == null || fresh(obj.valueDict)
      invariant old(obj.valueDict) != null ==> obj.valueDict == old(obj.valueDict)
      invariant MembersFrom(toks, lexer.pos, WrittenGuard, obj.Data()) == total
      decreases |lexer.tokens| - lexer.pos
    {
      var step := ParseObjectEntry(lexer, obj);
      if step.Failed? {
        return Err(step.error);
      } else if step.Done? {
        break;
      }
    }
    assert total == ClosingBrace(toks, lexer.pos, obj.Data());
    var close := lexer.GetNextTokenOfType(RightBrace);
    r := if close.Err? then Err(close.error) else Ok(obj.Data());
  }

  /** How one turn of the object loop ends. */
  datatype Step = Continue | Done | Failed(error: Error)

  /**
   * The body of the object loop: a string key, a colon and a value, stored in `obj`; then a
   * comma continues the loop and anything else ends it.
   */
  method ParseObjectEntry(lexer: Lexer, obj: JsonObject) returns (step: Step)
    requires lexer.Valid() && KindAt(lexer.tokens, lexer.pos) != RightBrace
    modifies lexer`pos, obj, obj.valueDict
    ensures lexer.Valid()
    ensures old(obj.valueDict) == null ==> obj.valueDict == null || fresh(obj.valueDict)
    ensures old(obj.valueDict) != null ==> obj.valueDict == old(obj.valueDict)
    ensures step.Continue? ==> old(lexer.pos) < lexer.pos
    ensures MembersFrom(lexer.tokens, old(lexer.pos), WrittenGuard, old(obj.Data())) ==
      match step
      case Continue => MembersFrom(lexer.tokens, lexer.pos, WrittenGuard, obj.Data())
      case Done => ClosingBrace(lexer.tokens, lexer.pos, obj.Data())
      case Failed(e) => Err(e)
    decreases |lexer.tokens| - lexer.pos, 1
  {
    var key := lexer.GetNextTokenOfType(String);
    if key.Err? {
      return Failed(key.error);
    }
    var colon := lexer.GetNextTokenOfType(Colon);
    if colon.Err? {
      return Failed(colon.error);
    }
    var next := lexer.LookNextTokenType();
    var value := ParseJsonValue(lexer, next);
    if value.Err? {
      return Failed(value.error);
    }
    obj.Set(key.value.text, value.value);
    if lexer.LookNextTokenType() == Comma {
      var _ := lexer.GetNextToken();  // the comma just seen
      if lexer.LookNextTokenType() == RightBracket {
        return Failed(ObjectTrailingComma);
      }
      step := Continue;
    } else {
      step := Done;
    }
  }

  /** What is left of an object once its loop has ended: the closing `}`. */
  ghost function ClosingBrace(toks: seq<Token>, q: nat, acc: ObjData): Result<Parsed<ObjData>>
  {
    if KindAt(toks, q) == RightBrace then Ok(Parsed(acc, q + 1))
    else Err(Unexpected(RightBrace, KindAt(toks, q)))
  }

  /** `ParseJsonValue`; the caller passes the kind it has just peeked. */
  method ParseJsonValue(lexer: Lexer, next: TokenKind) returns (r: Result<JsonValue>)
    requires lexer.Valid() && next == lexer.LookNextTokenType()
    modifies lexer`pos
    ensures lexer.Valid()
    ensures Agrees(r, ValueAt(lexer.tokens, old(lexer.pos), WrittenGuard), lexer.pos)
    decreases |lexer.tokens| - lexer.pos, 1
  {
    match next
    case Null =>
      var _ := lexer.GetNextToken();
      r := Ok(JNull);
    case True =>
      var _ := lexer.GetNextToken();
      r := Ok(JBool(true));
    case False =>
      var _ := lexer.GetNextToken();
      r := Ok(JBool(false));
    case Number =>
      var t := lexer.GetNextToken();
      r := Ok(JNumber(t.text));
    case String =>
      var t := lexer.GetNextToken();
      r := Ok(JString(t.text));
    case LeftBracket =>
      var items := ParseJsonArray(lexer);
      r := if items.Ok? then Ok(JArray(items.value)) else Err(items.error);
    case LeftBrace =>
      var obj := ParseJsonObject(lexer);
      r := if obj.Ok? then Ok(JObject(obj.value.Data())) else Err(obj.error);
    case _ =>
      r := Err(NotAValue(next));
  }

  method ParseJsonArray(lexer: Lexer) returns (r: Result<seq<JsonValue>>)
    requires lexer.Valid()
    modifies lexer`pos
    ensures lexer.Valid()
    ensures Agrees(r, ArrayAt(lexer.tokens, old(lexer.pos), WrittenGuard), lexer.pos)
    decreases |lexer.tokens| - lexer.pos, 0
  {
    var open := lexer.GetNextTokenOfType(LeftBracket);
    if open.Err? {
      return Err(open.error);
    }
    r := ParseElements(lexer);
  }

  /** The element loop of `ParseJsonArray` and the closing `]`. */
  method ParseElements(lexer: Lexer) returns (r: Result<seq<JsonValue>>)
    requires lexer.Valid()
    modifies lexer`pos
    ensures lexer.Valid()
    ensures Agrees(r, ElementsFrom(lexer.tokens, old(lexer.pos), WrittenGuard, []), lexer.pos)
    decreases |lexer.tokens| - lexer.pos, 2
  {
    var list: seq<JsonValue> := [];
    ghost var toks, start := lexer.tokens, lexer.pos;
    while lexer.LookNextTokenType() != RightBracket
      invariant lexer.Valid() && lexer.tokens == toks && start <= lexer.pos
      invariant ElementsFrom(toks, lexer.pos, WrittenGuard, list) == ElementsFrom(toks, start, WrittenGuard, [])
      decreases |lexer.tokens| - lexer.pos
    {
      var next := lexer.LookNextTokenType();
      var value := ParseJsonValue(lexer, next);
      if value.Err? {
        return Err(value.error);
      }
      list := list + [value.value];
      if lexer.LookNextTokenType() == Comma {
        var _ := lexer.GetNextToken();  // the comma just seen
        if lexer.LookNextTokenType() == RightBracket {
          return Err(ArrayTrailingComma);
        }
      } else {
        break;
      }
    }
    var close := lexer.GetNextTokenOfType(RightBracket);
    r := if close.Err? then Err(close.error) else Ok(list);
  }
}
