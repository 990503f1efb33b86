/**
 * The typed decoder: `ParseJson(json, type, reflection)`, `ParseJsonValueByType`,
 * `ParseJsonObjectByType`, `ParseJsonArrayByType` and `ParseJsonObjectByDict`, which read a
 * token stream straight into objects of a requested shape.
 *
 * The ghost functions give the meaning of each procedure on a token sequence and a cursor
 * position; the methods, which drive a `Lexer` and a reflection cache the way the source does,
 * are proved to agree with them. The object and array loops (`ParseJsonObjectProcedure`,
 * `ParseJsonArrayProcedure`) are those of the tree parser, including its check after an object's
 * comma, which compares the next token with `]` (`TreeParser.WrittenGuard`).
 */
module TypedDecoder {
  import opened Tokens
  import opened Numbers
  import opened Types
  import opened Lexing
  import TreeParser

  /** The token the object loop refuses after a comma, as in the tree parser's loop. */
  const Guard: TokenKind := TreeParser.WrittenGuard

  /** A decoder never moves the cursor backwards nor past the end. */
  ghost predicate Reads(f: (seq<Token>, nat) -> Result<Parsed<Obj>>)
  {
    forall toks: seq<Token>, p: nat {:trigger f(toks, p)} ::
      p <= |toks| && f(toks, p).Ok? ==> p <= f(toks, p).value.next <= |toks|
  }

  /** A custom decoder from `ExtensionParseFuncDict`: it reads from the cursor on. */
  type CustomDecoder = f: (seq<Token>, nat) -> Result<Parsed<Obj>> | Reads(f)
    witness (toks: seq<Token>, p: nat) => Err(NotAValue(EndOfInput))

  /**
   * The tables a decoding runs against: record descriptions (what reflection reveals), the
   * custom decoders by shape, and the generated decoders (`GenJsonCodes`) by shape.
   */
  datatype Env = Env(
    types: TypeTable,
    extensions: map<Shape, CustomDecoder>,
    precompiled: map<Shape, seq<Token> -> Result<Obj>>)

  /** A number token's text decoded to shape `s`. */
  function NumberAs(text: string, s: Shape): (r: Result<Obj>)
    ensures r.Ok? ==> s.Integer? || s.Floating? || s.Enum?
  {
    match s
    case Integer(k) =>
      (match ParseAs(k, text)
       case Value(n) => Ok(Obj.Int(k, n))
       case FormatError => Err(Error.FormatError(text))
       case OverflowError => Err(Overflow(k, text)))
    case Floating(f) => Ok(Real(f, text))
    case Enum(e, k) =>
      (match ParseAs(IntKind.Int, text)
       case Value(n) => Ok(EnumVal(e, Truncate(k, n)))
       case FormatError => Err(Error.FormatError(text))
       case OverflowError => Err(Overflow(IntKind.Int, text)))
    case _ => Err(Mismatch(Number, s))
  }

  /**
   * The length .NET gives a string: its UTF-16 code units, two for a character outside the
   * Basic Multilingual Plane.
   */
  function Utf16Length(text: string): (n: nat)
    ensures |text| <= n <= 2 * |text|
  {
    if text == [] then 0 else (if text[0] as int < 0x1_0000 then 1 else 2) + Utf16Length(text[1..])
  }

  /**
   * A string token's text decoded to shape `s`: a `string`, or a `char` by `char.Parse`, which
   * wants exactly one UTF-16 code unit.
   */
  function StringAs(text: string, s: Shape): (r: Result<Obj>)
    ensures r.Ok? <==> s == Str || (s == Char && |text| == 1 && text[0] as int < 0x1_0000)
    ensures r.Ok? && s == Char ==> r.value == Character(text[0])
  {
    if s == Str then Ok(Text(text))
    else if s == Char then
      if Utf16Length(text) == 1 then Ok(Character(text[0])) else Err(Error.FormatError(text))
    else Err(Mismatch(String, s))
  }

  /**
   * The state an object literal is read into: an instance with its property and field tables,
   * or a dictionary.
   */
  datatype Sink =
    | RecordSink(obj: Obj, props: map<string, Member>, fields: map<string, Member>)
    | DictSink(key: KeyKind, val: Shape, entries: seq<DictEntry>)

  /**
   * The key a dictionary stores for a member name: `int.Parse` for `int` keys, the name itself
   * for any other key type, which `IDictionary.Add` accepts only when a `string` is a key.
   */
  function DictKeyOf(kind: KeyKind, text: string): (r: Result<DictKey>)
    ensures r.Ok? && kind != IntKey ==> r.value == SKey(text)
    ensures r.Ok? <==> kind == StringKey || kind == ObjectKey || (kind == IntKey && ParseAs(IntKind.Int, text).Value?)
    ensures r.Ok? && kind == IntKey ==> r.value == IKey(ParseInteger(text).value)
  {
    match kind
    case StringKey => Ok(SKey(text))
    case ObjectKey => Ok(SKey(text))
    case IntKey =>
      (match ParseAs(IntKind.Int, text)
       case Value(n) => Ok(IKey(n))
       case FormatError => Err(Error.FormatError(text))
       case OverflowError => Err(Overflow(IntKind.Int, text)))
    case OtherKey => Err(KeyTypeMismatch(text))
  }

  /** Whether a dictionary already holds `k`. */
  predicate HasKey(es: seq<DictEntry>, k: DictKey)
  {
    exists i :: 0 <= i < |es| && es[i].key == k
  }

  /** `IDictionary.Add`: a present key is refused. */
  function DictAdd(es: seq<DictEntry>, k: DictKey, v: Obj): (r: Result<seq<DictEntry>>)
    ensures r.Ok? <==> !HasKey(es, k)
    ensures r.Ok? ==> r.value == es + [DictEntry(k, v)]
  {
    if HasKey(es, k) then Err(DuplicateKey(k)) else Ok(es + [DictEntry(k, v)])
  }

  /** `PropertyInfo.SetValue` on an instance. */
  function SetProp(obj: Obj, name: string, v: Obj): Obj
  {
    if obj.RecordVal? then obj.(props := obj.props[name := v]) else obj
  }

  /** `FieldInfo.SetValue` on an instance. */
  function SetField(obj: Obj, name: string, v: Obj): Obj
  {
    if obj.RecordVal? then obj.(fields := obj.fields[name := v]) else obj
  }

  /** `ParseJsonValueByType` at position `p`. */
  ghost function ValueByType(toks: seq<Token>, p: nat, s: Shape, env: Env): (r: Result<Parsed<Obj>>)
    requires p <= |toks|
    ensures r.Ok? ==> p <= r.value.next <= |toks|
    decreases |toks| - p, 2
  {
    if s in env.extensions then env.extensions[s](toks, p)
    else
      var k := KindAt(toks, p);
      match k
      case Null =>
        if !IsValueType(s, env.types) then Ok(Parsed(Obj.Null, p + 1)) else Err(Mismatch(k, s))
      case True => if s == Bool then Ok(Parsed(Boolean(true), p + 1)) else Err(Mismatch(k, s))
      case False => if s == Bool then Ok(Parsed(Boolean(false), p + 1)) else Err(Mismatch(k, s))
      case Number =>
        (match NumberAs(toks[p].text, s)
         case Ok(v) => Ok(Parsed(v, p + 1))
         case Err(e) => Err(e))
      case String =>
        (match StringAs(toks[p].text, s)
         case Ok(v) => Ok(Parsed(v, p + 1))
         case Err(e) => Err(e))
      case LeftBracket =>
        if s.Arr? || s.Lst? then ArrayByType(toks, p, s, env) else Err(Mismatch(k, s))
      case LeftBrace =>
        if s.Dict? then ObjectByDict(toks, p, s, env) else ObjectByType(toks, p, s, env)
      case _ => Err(Mismatch(k, s))
  }

  /** `ParseJsonArrayByType`: the elements of an array literal, as an array or a list. */
  ghost function ArrayByType(toks: seq<Token>, p: nat, s: Shape, env: Env): (r: Result<Parsed<Obj>>)
    requires p <= |toks| && (s.Arr? || s.Lst?)
    ensures r.Ok? ==> p < r.value.next <= |toks|
    decreases |toks| - p, 1
  {
    match ElementsAt(toks, p, s.elem, env)
    case Err(e) => Err(e)
    case Ok(Parsed(items, q)) =>
      Ok(Parsed(if s.Arr? then ArrayVal(s.elem, items) else ListVal(s.elem, items), q))
  }

  /** `ParseJsonArrayProcedure` at position `p`: demand `[`, then the element loop. */
  ghost function ElementsAt(toks: seq<Token>, p: nat, elem: Shape, env: Env): (r: Result<Parsed<seq<Obj>>>)
    requires p <= |toks|
    ensures r.Ok? ==> p < r.value.next <= |toks|
    decreases |toks| - p, 0
  {
    if KindAt(toks, p) != LeftBracket then Err(Unexpected(LeftBracket, KindAt(toks, p)))
    else ElementsFrom(toks, p + 1, elem, env, [])
  }

  /** The array loop at its head, with the elements `acc` added so far. */
  ghost function ElementsFrom(toks: seq<Token>, p: nat, elem: Shape, env: Env, acc: seq<Obj>)
    : (r: Result<Parsed<seq<Obj>>>)
    requires p <= |toks|
    ensures r.Ok? ==> p < r.value.next <= |toks|
    decreases |toks| - p, 3
  {
    if KindAt(toks, p) == RightBracket then Ok(Parsed(acc, p + 1))
    else
      match ValueByType(toks, p, elem, env)
      case Err(e) => Err(e)
      case Ok(Parsed(v, q)) => AfterElement(toks, q, elem, env, acc + [v])
  }

  /** The array loop after an element: a comma continues (unless `]` follows), else `]` ends it. */
  ghost function AfterElement(toks: seq<Token>, q: nat, elem: Shape, env: Env, acc: seq<Obj>)
    : (r: Result<Parsed<seq<Obj>>>)
    requires q <= |toks|
    ensures r.Ok? ==> q < r.value.next <= |toks|
    decreases |toks| - q, 2
  {
    if KindAt(toks, q) == Comma then
      if KindAt(toks, q + 1) == RightBracket then Err(ArrayTrailingComma)
      else ElementsFrom(toks, q + 1, elem, env, acc)
    else if KindAt(toks, q) == RightBracket then Ok(Parsed(acc, q + 1))
    else Err(Unexpected(RightBracket, KindAt(toks, q)))
  }

  /**
   * `ParseJsonObjectByType`: create the instance, then read the members into it. A value type
   * without public members of its own is its default; a type the table does not describe, and a
   * reference type that is not a record, cannot be instantiated.
   */
  ghost function ObjectByType(toks: seq<Token>, p: nat, s: Shape, env: Env): (r: Result<Parsed<Obj>>)
    requires p <= |toks|
    ensures r.Ok? ==> p < r.value.next <= |toks|
    decreases |toks| - p, 1
  {
    match NewInstance(s, env.types)
    case Err(e) => Err(e)
    case Ok(sink) =>
      match MembersAt(toks, p, env, sink)
      case Err(e) => Err(e)
      case Ok(Parsed(filled, q)) => Ok(Parsed(filled.obj, q))
  }

  /**
   * `CreateInstance` with the member tables reflection gives for the type: a described record's
   * properties and fields, and none for any other type.
   */
  function NewInstance(s: Shape, types: TypeTable): (r: Result<Sink>)
    ensures r.Ok? <==> CreateInstance(s, types).Ok?
    ensures r.Ok? ==> r.value.RecordSink? && r.value.obj == CreateInstance(s, types).value
    ensures r.Err? ==> CreateInstance(s, types) == Err(r.error)
  {
    match CreateInstance(s, types)
    case Err(e) => Err(e)
    case Ok(obj) =>
      if s.Record? then Ok(RecordSink(obj, MemberMap(types[s.id].props), MemberMap(types[s.id].fields)))
      else Ok(RecordSink(obj, map[], map[]))
  }

  /** `ParseJsonObjectByDict`: a fresh dictionary, then the members added to it. */
  ghost function ObjectByDict(toks: seq<Token>, p: nat, s: Shape, env: Env): (r: Result<Parsed<Obj>>)
    requires p <= |toks| && s.Dict?
    ensures r.Ok? ==> p < r.value.next <= |toks|
    decreases |toks| - p, 1
  {
    match MembersAt(toks, p, env, DictSink(s.key, s.val, []))
    case Err(e) => Err(e)
    case Ok(Parsed(filled, q)) =>
      Ok(Parsed(DictVal(s.key, s.val, filled.entries), q))
  }

  /** `ParseJsonObjectProcedure` at position `p`: demand `{`, then the member loop. */
  ghost function MembersAt(toks: seq<Token>, p: nat, env: Env, sink: Sink): (r: Result<Parsed<Sink>>)
    requires p <= |toks|
    ensures r.Ok? ==> p < r.value.next <= |toks|
    ensures r.Ok? ==> r.value.value.RecordSink? == sink.RecordSink?
    decreases |toks| - p, 0
  {
    if KindAt(toks, p) != LeftBrace then Err(Unexpected(LeftBrace, KindAt(toks, p)))
    else MembersFrom(toks, p + 1, env, sink)
  }

  /** The object loop at its head: `}` ends it, else a key, a colon and the member's action. */
  ghost function MembersFrom(toks: seq<Token>, p: nat, env: Env, sink: Sink): (r: Result<Parsed<Sink>>)
    requires p <= |toks|
    ensures r.Ok? ==> p < r.value.next <= |toks|
    ensures r.Ok? ==> r.value.value.RecordSink? == sink.RecordSink?
    decreases |toks| - p, 3
  {
    if KindAt(toks, p) == RightBrace then Ok(Parsed(sink, p + 1))
    else if KindAt(toks, p) != String then Err(Unexpected(String, KindAt(toks, p)))
    else if KindAt(toks, p + 1) != Colon then Err(Unexpected(Colon, KindAt(toks, p + 1)))
    else
      match Action(toks, p + 2, toks[p].text, env, sink)
      case Err(e) => Err(e)
      case Ok(Parsed(next, q)) => AfterMember(toks, q, env, next)
  }

  /** What is left of an object once its loop has ended: the closing `}`. */
  ghost function Closing(toks: seq<Token>, q: nat, sink: Sink): Result<Parsed<Sink>>
  {
    if KindAt(toks, q) == RightBrace then Ok(Parsed(sink, q + 1))
    else Err(Unexpected(RightBrace, KindAt(toks, q)))
  }

  /** The object loop after a member: a comma continues unless `Guard` follows, else `}` ends it. */
  ghost function AfterMember(toks: seq<Token>, q: nat, env: Env, sink: Sink): (r: Result<Parsed<Sink>>)
    requires q <= |toks|
    ensures r.Ok? ==> q < r.value.next <= |toks|
    ensures r.Ok? ==> r.value.value.RecordSink? == sink.RecordSink?
    decreases |toks| - q, 2
  {
    if KindAt(toks, q) == Comma then
      if KindAt(toks, q + 1) == Guard then Err(ObjectTrailingComma)
      else MembersFrom(toks, q + 1, env, sink)
    else if KindAt(toks, q) == RightBrace then Ok(Parsed(sink, q + 1))
    else Err(Unexpected(RightBrace, KindAt(toks, q)))
  }

  /**
   * The callback for one member `key` whose value starts at `q`. An instance: a property of that
   * name first, else a field, else the value is read and dropped. A dictionary: the value, then
   * the key converted and added.
   */
  ghost function Action(toks: seq<Token>, q: nat, key: string, env: Env, sink: Sink): (r: Result<Parsed<Sink>>)
    requires q <= |toks|
    ensures r.Ok? ==> q <= r.value.next <= |toks|
    ensures r.Ok? ==> r.value.value.RecordSink? == sink.RecordSink?
    decreases |toks| - q, 3
  {
    match sink
    case RecordSink(obj, props, fields) =>
      if key in props then
        (match ValueByType(toks, q, props[key].shape, env)
         case Err(e) => Err(e)
         case Ok(Parsed(v, q')) =>
           if !props[key].settable then Err(NotSettable(key))
           else Ok(Parsed(sink.(obj := SetProp(obj, key, v)), q')))
      else if key in fields then
        (match ValueByType(toks, q, fields[key].shape, env)
         case Err(e) => Err(e)
         case Ok(Parsed(v, q')) =>
           if !fields[key].settable then Err(NotSettable(key))
           else Ok(Parsed(sink.(obj := SetField(obj, key, v)), q')))
      else
        (match TreeParser.ValueAt(toks, q, TreeParser.WrittenGuard)
         case Err(e) => Err(e)
         case Ok(Parsed(_, q')) => Ok(Parsed(sink, q')))
    case DictSink(kind, val, es) =>
      match ValueByType(toks, q, val, env)
      case Err(e) => Err(e)
      case Ok(Parsed(v, q')) =>
        match DictKeyOf(kind, key)
        case Err(e) => Err(e)
        case Ok(k) =>
          match DictAdd(es, k, v)
          case Err(e) => Err(e)
          case Ok(es') => Ok(Parsed(DictSink(kind, val, es'), q'))
  }

  /** `IsArrayOrListType(type) || IsDictionaryType(type)`. */
  predicate IsCollection(s: Shape)
  {
    s.Arr? || s.Lst? || s.Dict?
  }

  /**
   * `ParseJson(json, type, reflection)`: with reflection, a collection is read as a value and
   * anything else as an object literal; without, the generated decoder for the type, if any.
   */
  ghost function Decode(toks: seq<Token>, s: Shape, env: Env, reflection: bool): Result<Obj>
  {
    if reflection then
      var r := if IsCollection(s) then ValueByType(toks, 0, s, env) else ObjectByType(toks, 0, s, env);
      if r.Ok? then Ok(r.value.value) else Err(r.error)
    else if s in env.precompiled then env.precompiled[s](toks)
    else Err(NoPrecompiled(s))
  }

  /** The result implements `IJsonParserCallbackReceiver`: `OnParseJsonEnd` is due. */
  predicate Notified(r: Result<Obj>, types: TypeTable)
  {
    r.Ok? && r.value.RecordVal? && r.value.id in types && types[r.value.id].endCallback
  }

  // ---------------------------------------------------------------------------------------------
  // The methods.

  /** The reflection caches `propertyInfoDict` and `fieldInfoDict`, by record type. */
  class ReflectionCache {
    var propertyInfoDict: map<RecordId, map<string, Member>>
    var fieldInfoDict: map<RecordId, map<string, Member>>

    /** Both caches hold the same types, each with the member tables reflection gives. */
    ghost predicate Valid(types: TypeTable)
      reads this
    {
      && propertyInfoDict.Keys == fieldInfoDict.Keys
      && forall id :: id in propertyInfoDict ==>
           && id in types
           && propertyInfoDict[id] == MemberMap(types[id].props)
           && fieldInfoDict[id] == MemberMap(types[id].fields)
    }

    constructor ()
      ensures propertyInfoDict == map[] && fieldInfoDict == map[]
    {
      propertyInfoDict, fieldInfoDict := map[], map[];
    }

    /** Build the tables of record `id` unless either cache already holds the type. */
    method Prepare(id: RecordId, types: TypeTable)
      requires Valid(types) && id in types
      modifies this
      ensures Valid(types)
      ensures id in propertyInfoDict && id in fieldInfoDict
      ensures propertyInfoDict[id] == MemberMap(types[id].props)
      ensures fieldInfoDict[id] == MemberMap(types[id].fields)
      ensures old(id in propertyInfoDict || id in fieldInfoDict) ==>
        propertyInfoDict == old(propertyInfoDict) && fieldInfoDict == old(fieldInfoDict)
      ensures old(id !in propertyInfoDict && id !in fieldInfoDict) ==>
        propertyInfoDict == old(propertyInfoDict)[id := MemberMap(types[id].props)] &&
        fieldInfoDict == old(fieldInfoDict)[id := MemberMap(types[id].fields)]
    {
      if id !in propertyInfoDict && id !in fieldInfoDict {
        AddToReflectionMap(id, types[id]);
      }
    }

    /** `AddToReflectionMap`: record the type's properties and fields by name. */
    method AddToReflectionMap(id: RecordId, info: RecordInfo)
      modifies this
      ensures propertyInfoDict == old(propertyInfoDict)[id := MemberMap(info.props)]
      ensures fieldInfoDict == old(fieldInfoDict)[id := MemberMap(info.fields)]
    {
      propertyInfoDict := propertyInfoDict[id := MemberMap(info.props)];
      fieldInfoDict := fieldInfoDict[id := MemberMap(info.fields)];
    }
  }

  /**
   * `ParseJson(json, type, reflection)`; `notified` tells whether `OnParseJsonEnd` was called on
   * the result.
   */
  method ParseJson(lexer: Lexer, cache: ReflectionCache, env: Env, toks: seq<Token>, s: Shape, reflection: bool)
    returns (r: Result<Obj>, notified: bool)
    requires cache.Valid(env.types)
    modifies lexer, cache
    ensures cache.Valid(env.types)
    ensures r == Decode(toks, s, env, reflection)
    ensures notified == Notified(r, env.types)
  {
    lexer.SetJsonText(toks);
    if reflection {
      if IsCollection(s) {
        var next := lexer.LookNextTokenType();
        r := ParseJsonValueByType(lexer, cache, env, next, s);
      } else {
        r := ParseJsonObjectByType(lexer, cache, env, s);
      }
    } else if s in env.precompiled {
      r := env.precompiled[s](toks);
    } else {
      r := Err(NoPrecompiled(s));
    }
    notified := r.Ok? && r.value.RecordVal? && r.value.id in env.types && env.types[r.value.id].endCallback;
  }

  /** `ParseJsonValueByType`; the caller passes the kind it has just peeked. */
  method ParseJsonValueByType(lexer: Lexer, cache: ReflectionCache, env: Env, next: TokenKind, s: Shape)
    returns (r: Result<Obj>)
    requires lexer.Valid() && cache.Valid(env.types) && next == lexer.LookNextTokenType()
    modifies lexer`pos, cache
    ensures lexer.Valid() && cache.Valid(env.types)
    ensures TreeParser.Agrees(r, ValueByType(lexer.tokens, old(lexer.pos), s, env), lexer.pos)
    decreases |lexer.tokens| - lexer.pos, 2
  {
    if s in env.extensions {
      var custom := env.extensions[s](lexer.tokens, lexer.pos);
      if custom.Err? {
        return Err(custom.error);
      }
      lexer.SkipTo(custom.value.next);
      return Ok(custom.value.value);
    }
    match next
    case Null =>
      var _ := lexer.GetNextToken();
      r := if !IsValueType(s, env.types) then Ok(Obj.Null) else Err(Mismatch(next, s));
    case True =>
      var _ := lexer.GetNextToken();
      r := if s == Bool then Ok(Boolean(true)) else Err(Mismatch(next, s));
    case False =>
      var _ := lexer.GetNextToken();
      r := if s == Bool then Ok(Boolean(false)) else Err(Mismatch(next, s));
    case Number =>
      var token := lexer.GetNextToken();
      r := NumberAs(token.text, s);
    case String =>
      var token := lexer.GetNextToken();
      r := StringAs(token.text, s);
    case LeftBracket =>
      if s.Arr? || s.Lst? {
        r := ParseJsonArrayByType(lexer, cache, env, s);
      } else {
        r := Err(Mismatch(next, s));
      }
    case LeftBrace =>
      if s.Dict? {
        r := ParseJsonObjectByDict(lexer, cache, env, s);
      } else {
        r := ParseJsonObjectByType(lexer, cache, env, s);
      }
    case _ =>
      r := Err(Mismatch(next, s));
  }

  /** `ParseJsonObjectByType`: create the instance, make sure reflection knows the type, fill it. */
  method ParseJsonObjectByType(lexer: Lexer, cache: ReflectionCache, env: Env, s: Shape) returns (r: Result<Obj>)
    requires lexer.Valid() && cache.Valid(env.types)
    modifies lexer`pos, cache
    ensures lexer.Valid() && cache.Valid(env.types)
    ensures TreeParser.Agrees(r, ObjectByType(lexer.tokens, old(lexer.pos), s, env), lexer.pos)
    decreases |lexer.tokens| - lexer.pos, 1
  {
    var created := NewInstance(s, env.types);
    if created.Err? {
      return Err(created.error);
    }
    var sink := created.value;
    if s.Record? {
      cache.Prepare(s.id, env.types);
      sink := RecordSink(sink.obj, cache.propertyInfoDict[s.id], cache.fieldInfoDict[s.id]);
    }
    var filled := ParseJsonObjectProcedure(lexer, cache, env, sink);
    if filled.Err? {
      return Err(filled.error);
    }
    return Ok(filled.value.obj);
  }

  /** `ParseJsonObjectByDict`: a fresh dictionary, filled by the object loop. */
  method ParseJsonObjectByDict(lexer: Lexer, cache: ReflectionCache, env: Env, s: Shape) returns (r: Result<Obj>)
    requires lexer.Valid() && cache.Valid(env.types) && s.Dict?
    modifies lexer`pos, cache
    ensures lexer.Valid() && cache.Valid(env.types)
    ensures TreeParser.Agrees(r, ObjectByDict(lexer.tokens, old(lexer.pos), s, env), lexer.pos)
    decreases |lexer.tokens| - lexer.pos, 1
  {
    var filled := ParseJsonObjectProcedure(lexer, cache, env, DictSink(s.key, s.val, []));
    if filled.Err? {
      return Err(filled.error);
    }
    return Ok(DictVal(s.key, s.val, filled.value.entries));
  }

  /** `ParseJsonObjectProcedure`: `{`, the members, `}`. */
  method ParseJsonObjectProcedure(lexer: Lexer, cache: ReflectionCache, env: Env, sink: Sink)
    returns (r: Result<Sink>)
    requires lexer.Valid() && cache.Valid(env.types)
    modifies lexer`pos, cache
    ensures lexer.Valid() && cache.Valid(env.types)
    ensures TreeParser.Agrees(r, MembersAt(lexer.tokens, old(lexer.pos), env, sink), lexer.pos)
    decreases |lexer.tokens| - lexer.pos, 0
  {
    var open := lexer.GetNextTokenOfType(LeftBrace);
    if open.Err? {
      return Err(open.error);
    }
    r := ParseMembers(lexer, cache, env, sink);
  }

  /** The member loop of `ParseJsonObjectProcedure` and the closing `}`. */
  method ParseMembers(lexer: Lexer, cache: ReflectionCache, env: Env, sink: Sink)
    returns (r: Result<Sink>)
    requires lexer.Valid() && cache.Valid(env.types)
    modifies lexer`pos, cache
    ensures lexer.Valid() && cache.Valid(env.types)
    ensures TreeParser.Agrees(r, MembersFrom(lexer.tokens, old(lexer.pos), env, sink), lexer.pos)
    decreases |lexer.tokens| - lexer.pos, 5
  {
    ghost var toks, start := lexer.tokens, lexer.pos;
    ghost var total := MembersFrom(toks, start, env, sink);
    var acc := sink;
    while lexer.LookNextTokenType() != RightBrace
      invariant lexer.Valid() && cache.Valid(env.types) && lexer.tokens == toks && start <= lexer.pos
      invariant MembersFrom(toks, lexer.pos, env, acc) == total
      decreases |lexer.tokens| - lexer.pos
    {
      var step := ParseMember(lexer, cache, env, acc);
      if step.Failed? {
        return Err(step.error);
      }
      acc := step.sink;
      if step.Done? {
        break;
      }
    }
    assert total == Closing(toks, lexer.pos, acc);
    r := CloseObject(lexer, acc);
  }

  /** The closing `}` of an object read into `sink`. */
  method CloseObject(lexer: Lexer, sink: Sink) returns (r: Result<Sink>)
    requires lexer.Valid()
    modifies lexer`pos
    ensures lexer.Valid()
    ensures TreeParser.Agrees(r, Closing(lexer.tokens, old(lexer.pos), sink), lexer.pos)
  {
    var close := lexer.GetNextTokenOfType(RightBrace);
    r := if close.Err? then Err(close.error) else Ok(sink);
  }

  /** How one turn of the object loop ends, with the object or dictionary as it then is. */
  datatype Step = Continue(sink: Sink) | Done(sink: Sink) | Failed(error: Error)

  /**
   * The body of the object loop: a string key, a colon, the member's callback; then a comma
   * continues the loop and anything else ends it.
   */
  method ParseMember(lexer: Lexer, cache: ReflectionCache, env: Env, sink: Sink) returns (step: Step)
    requires lexer.Valid() && cache.Valid(env.types) && KindAt(lexer.tokens, lexer.pos) != RightBrace
    modifies lexer`pos, cache
    ensures lexer.Valid() && cache.Valid(env.types)
    ensures step.Continue? ==> old(lexer.pos) < lexer.pos
    ensures MembersFrom(lexer.tokens, old(lexer.pos), env, sink) ==
      match step
      case Continue(next) => MembersFrom(lexer.tokens, lexer.pos, env, next)
      case Done(next) => Closing(lexer.tokens, lexer.pos, next)
      case Failed(e) => Err(e)
    decreases |lexer.tokens| - lexer.pos, 4
  {
    var key := lexer.GetNextTokenOfType(String);
    if key.Err? {
      return Failed(key.error);
    }
    var colon := lexer.GetNextTokenOfType(Colon);
    if colon.Err? {
      return Failed(colon.error);
    }
    var next := lexer.LookNextTokenType();
    var acted := MemberCallback(lexer, cache, env, key.value.text, next, sink);
    if acted.Err? {
      return Failed(acted.error);
    }
    step := NextMember(lexer, env, acted.value);
  }

  /** After a member: a comma continues the loop unless `Guard` follows; anything else ends it. */
  method NextMember(lexer: Lexer, env: Env, sink: Sink) returns (step: Step)
    requires lexer.Valid()
    modifies lexer`pos
    ensures lexer.Valid()
    ensures step.Continue? ==> old(lexer.pos) < lexer.pos
    ensures AfterMember(lexer.tokens, old(lexer.pos), env, sink) ==
      match step
      case Continue(next) => MembersFrom(lexer.tokens, lexer.pos, env, next)
      case Done(next) => Closing(lexer.tokens, lexer.pos, next)
      case Failed(e) => Err(e)
  {
    if lexer.LookNextTokenType() == Comma {
      var _ := lexer.GetNextToken();  // the comma just seen
      if lexer.LookNextTokenType() == Guard {
        return Failed(ObjectTrailingComma);
      }
      step := Continue(sink);
    } else {
      step := Done(sink);
    }
  }

  /**
   * The callback `ParseJsonObjectByType` and `ParseJsonObjectByDict` hand the object loop, for
   * the member `key` whose value starts with a token of kind `next`.
   */
  method MemberCallback(lexer: Lexer, cache: ReflectionCache, env: Env, key: string, next: TokenKind, sink: Sink)
    returns (r: Result<Sink>)
    requires lexer.Valid() && cache.Valid(env.types) && next == lexer.LookNextTokenType()
    modifies lexer`pos, cache
    ensures lexer.Valid() && cache.Valid(env.types)
    ensures TreeParser.Agrees(r, Action(lexer.tokens, old(lexer.pos), key, env, sink), lexer.pos)
    decreases |lexer.tokens| - lexer.pos, 3
  {
    match sink
    case RecordSink(obj, props, fields) =>
      if key in props {
        var value := ParseJsonValueByType(lexer, cache, env, next, props[key].shape);
        r := if value.Err? then Err(value.error)
             else if !props[key].settable then Err(NotSettable(key))
             else Ok(sink.(obj := SetProp(obj, key, value.value)));
      } else if key in fields {
        var value := ParseJsonValueByType(lexer, cache, env, next, fields[key].shape);
        r := if value.Err? then Err(value.error)
             else if !fields[key].settable then Err(NotSettable(key))
             else Ok(sink.(obj := SetField(obj, key, value.value)));
      } else {
        var skipped := TreeParser.ParseJsonValue(lexer, next);
        r := if skipped.Ok? then Ok(sink) else Err(skipped.error);
      }
    case DictSink(kind, val, es) =>
      var value := ParseJsonValueByType(lexer, cache, env, next, val);
      if value.Err? {
        return Err(value.error);
      }
      var k := DictKeyOf(kind, key);
      if k.Err? {
        return Err(k.error);
      }
      var added := DictAdd(es, k.value, value.value);
      r := if added.Ok? then Ok(DictSink(kind, val, added.value)) else Err(added.error);
  }

  /** `ParseJsonArrayByType`: read the elements into a list; an array gets a copy of it. */
  method ParseJsonArrayByType(lexer: Lexer, cache: ReflectionCache, env: Env, s: Shape) returns (r: Result<Obj>)
    requires lexer.Valid() && cache.Valid(env.types) && (s.Arr? || s.Lst?)
    modifies lexer`pos, cache
    ensures lexer.Valid() && cache.Valid(env.types)
    ensures TreeParser.Agrees(r, ArrayByType(lexer.tokens, old(lexer.pos), s, env), lexer.pos)
    decreases |lexer.tokens| - lexer.pos, 1
  {
    var list := ParseJsonArrayProcedure(lexer, cache, env, s.elem);
    if list.Err? {
      return Err(list.error);
    }
    if s.Lst? {
      return Ok(ListVal(s.elem, list.value));
    }
    var items := CopyToArray(list.value);
    return Ok(ArrayVal(s.elem, items));
  }

  /** `Array.CreateInstance(elementType, list.Count)` and the copy loop. */
  method CopyToArray(list: seq<Obj>) returns (items: seq<Obj>)
    ensures items == list
  {
    var arr := new Obj[|list|];
    for i := 0 to |list|
      invariant arr[..i] == list[..i]
    {
      arr[i] := list[i];
    }
    return arr[..];
  }

  /** `ParseJsonArrayProcedure`: `[`, the elements each decoded and added, `]`. */
  method ParseJsonArrayProcedure(lexer: Lexer, cache: ReflectionCache, env: Env, elem: Shape)
    returns (r: Result<seq<Obj>>)
    requires lexer.Valid() && cache.Valid(env.types)
    modifies lexer`pos, cache
    ensures lexer.Valid() && cache.Valid(env.types)
    ensures TreeParser.Agrees(r, ElementsAt(lexer.tokens, old(lexer.pos), elem, env), lexer.pos)
    decreases |lexer.tokens| - lexer.pos, 0
  {
    var open := lexer.GetNextTokenOfType(LeftBracket);
    if open.Err? {
      return Err(open.error);
    }
    r := ParseElements(lexer, cache, env, elem);
  }

  /** The element loop of `ParseJsonArrayProcedure` and the closing `]`. */
  method ParseElements(lexer: Lexer, cache: ReflectionCache, env: Env, elem: Shape)
    returns (r: Result<seq<Obj>>)
    requires lexer.Valid() && cache.Valid(env.types)
    modifies lexer`pos, cache
    ensures lexer.Valid() && cache.Valid(env.types)
    ensures TreeParser.Agrees(r, ElementsFrom(lexer.tokens, old(lexer.pos), elem, env, []), lexer.pos)
    decreases |lexer.tokens| - lexer.pos, 5
  {
    var list: seq<Obj> := [];
    ghost var toks, start := lexer.tokens, lexer.pos;
    ghost var total := ElementsFrom(toks, start, elem, env, []);
    while lexer.LookNextTokenType() != RightBracket
      invariant lexer.Valid() && cache.Valid(env.types) && lexer.tokens == toks && start <= lexer.pos
      invariant ElementsFrom(toks, lexer.pos, elem, env, list) == total
      decreases |lexer.tokens| - lexer.pos
    {
      var step := ParseElement(lexer, cache, env, elem, list);
      if step.ElementFailed? {
        return Err(step.error);
      }
      list := step.items;
      if step.LastElement? {
        break;
      }
    }
    assert total == ClosingBracket(toks, lexer.pos, list);
    r := CloseArray(lexer, list);
  }

  /** The closing `]` of an array whose elements are `list`. */
  method CloseArray(lexer: Lexer, list: seq<Obj>) returns (r: Result<seq<Obj>>)
    requires lexer.Valid()
    modifies lexer`pos
    ensures lexer.Valid()
    ensures TreeParser.Agrees(r, ClosingBracket(lexer.tokens, old(lexer.pos), list), lexer.pos)
  {
    var close := lexer.GetNextTokenOfType(RightBracket);
    r := if close.Err? then Err(close.error) else Ok(list);
  }

  /** How one turn of the array loop ends, with the elements added so far. */
  datatype ElementStep = MoreElements(items: seq<Obj>) | LastElement(items: seq<Obj>) | ElementFailed(error: Error)

  /** What is left of an array once its loop has ended: the closing `]`. */
  ghost function ClosingBracket(toks: seq<Token>, q: nat, items: seq<Obj>): Result<Parsed<seq<Obj>>>
  {
    if KindAt(toks, q) == RightBracket then Ok(Parsed(items, q + 1))
    else Err(Unexpected(RightBracket, KindAt(toks, q)))
  }

  /**
   * The body of the array loop: decode one element and add it; then a comma continues the loop
   * (unless `]` follows) and anything else ends it.
   */
  method ParseElement(lexer: Lexer, cache: ReflectionCache, env: Env, elem: Shape, list: seq<Obj>)
    returns (step: ElementStep)
    requires lexer.Valid() && cache.Valid(env.types) && KindAt(lexer.tokens, lexer.pos) != RightBracket
    modifies lexer`pos, cache
    ensures lexer.Valid() && cache.Valid(env.types)
    ensures step.MoreElements? ==> old(lexer.pos) < lexer.pos
    ensures ElementsFrom(lexer.tokens, old(lexer.pos), elem, env, list) ==
      match step
      case MoreElements(items) => ElementsFrom(lexer.tokens, lexer.pos, elem, env, items)
      case LastElement(items) => ClosingBracket(lexer.tokens, lexer.pos, items)
      case ElementFailed(e) => Err(e)
    decreases |lexer.tokens| - lexer.pos, 4
  {
    var next := lexer.LookNextTokenType();
    var value := ParseJsonValueByType(lexer, cache, env, next, elem);
    if value.Err? {
      return ElementFailed(value.error);
    }
    if lexer.LookNextTokenType() == Comma {
      var _ := lexer.GetNextToken();  // the comma just seen
      if lexer.LookNextTokenType() == RightBracket {
        return ElementFailed(ArrayTrailingComma);
      }
      step := MoreElements(list + [value.value]);
    } else {
      step := LastElement(list + [value.value]);
    }
  }
}
