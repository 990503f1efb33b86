/**
 * What the typed decoder promises: the decoding rule for each scalar token, the precedence of
 * custom decoders, arrays and lists holding the same elements, members of a record that the
 * text does not mention keeping their initial values, and dictionaries never holding a key twice.
 */
module DecoderProperties {
  import opened Tokens
  import opened Numbers
  import opened Types
  import opened TypedDecoder
  import TreeParser

  // ---------------------------------------------------------------------------------------------
  // Scalars.

  /** A custom decoder registered for the shape is used whatever the token. */
  lemma ExtensionFirst(toks: seq<Token>, p: nat, s: Shape, env: Env)
    requires p <= |toks| && s in env.extensions
    ensures ValueByType(toks, p, s, env) == env.extensions[s](toks, p)
  {
  }

  /** `null` decodes to null exactly for the shapes that are not value types, consuming one token. */
  lemma NullToken(toks: seq<Token>, p: nat, s: Shape, env: Env)
    requires p < |toks| && toks[p].kind == TokenKind.Null && s !in env.extensions
    ensures ValueByType(toks, p, s, env).Ok? <==> !IsValueType(s, env.types)
    ensures ValueByType(toks, p, s, env).Ok? ==> ValueByType(toks, p, s, env).value == Parsed(Obj.Null, p + 1)
  {
  }

  /** `true` and `false` decode only to `bool`. */
  lemma BoolToken(toks: seq<Token>, p: nat, s: Shape, env: Env)
    requires p < |toks| && (toks[p].kind == True || toks[p].kind == False) && s !in env.extensions
    ensures ValueByType(toks, p, s, env).Ok? <==> s == Bool
    ensures s == Bool ==>
      ValueByType(toks, p, s, env) == Ok(Parsed(Boolean(toks[p].kind == True), p + 1))
  {
  }

  /**
   * A number decodes to an integer kind exactly when its text is an integer within the kind's
   * range; an integer outside the range overflows, any other text is a format error.
   */
  lemma IntegerToken(toks: seq<Token>, p: nat, k: IntKind, env: Env)
    requires p < |toks| && toks[p].kind == Number && Integer(k) !in env.extensions
    ensures var r := ValueByType(toks, p, Integer(k), env);
      var n := ParseInteger(toks[p].text);
      && (r.Ok? <==> n.Some? && InRange(k, n.value))
      && (r.Ok? ==> r.value == Parsed(Obj.Int(k, n.value), p + 1))
      && (n.None? ==> r == Err(Error.FormatError(toks[p].text)))
      && (n.Some? && !InRange(k, n.value) ==> r == Err(Overflow(k, toks[p].text)))
  {
  }

  /** The canonical text of any integer decodes back to it when the kind can hold it. */
  lemma IntegerRoundTrip(k: IntKind, n: int, env: Env)
    requires Integer(k) !in env.extensions
    ensures ValueByType([Token(Number, IntToText(n))], 0, Integer(k), env) ==
      if InRange(k, n) then Ok(Parsed(Obj.Int(k, n), 1)) else Err(Overflow(k, IntToText(n)))
  {
    ParseAsText(k, n);
  }

  /** `200` fits a `byte`; `300` overflows it. */
  lemma ByteExample(env: Env)
    requires Integer(Byte) !in env.extensions
    ensures ValueByType([Token(Number, "200")], 0, Integer(Byte), env) == Ok(Parsed(Obj.Int(Byte, 200), 1))
    ensures ValueByType([Token(Number, "300")], 0, Integer(Byte), env) == Err(Overflow(Byte, "300"))
  {
    ByteRange();
  }

  /**
   * An enum takes any `int`, kept to the low bits of its underlying type; nothing checks that
   * the value is one the enum declares. An `int` outside `int`'s range overflows.
   */
  lemma EnumAnyInt(e: nat, k: IntKind, n: int, env: Env)
    requires Enum(e, k) !in env.extensions
    ensures ValueByType([Token(Number, IntToText(n))], 0, Enum(e, k), env)
      == if InRange(IntKind.Int, n) then Ok(Parsed(EnumVal(e, Truncate(k, n)), 1))
         else Err(Overflow(IntKind.Int, IntToText(n)))
  {
    ParseAsText(IntKind.Int, n);
  }

  /** `300` into a `byte`-backed enum is 44, and `-1` into a `uint`-backed one is 4294967295. */
  lemma EnumUnderlyingExample(e: nat, env: Env)
    requires Enum(e, Byte) !in env.extensions && Enum(e, UInt) !in env.extensions
    ensures ValueByType([Token(Number, "300")], 0, Enum(e, Byte), env) == Ok(Parsed(EnumVal(e, 44), 1))
    ensures ValueByType([Token(Number, "-1")], 0, Enum(e, UInt), env) == Ok(Parsed(EnumVal(e, 0xFFFF_FFFF), 1))
  {
    assert IntToText(300) == "300";
    assert IntToText(-1) == "-1";
    EnumAnyInt(e, Byte, 300, env);
    EnumAnyInt(e, UInt, -1, env);
  }

  /**
   * A string decodes to a `char` exactly when it is one UTF-16 code unit: one character of the
   * Basic Multilingual Plane.
   */
  lemma CharToken(toks: seq<Token>, p: nat, env: Env)
    requires p < |toks| && toks[p].kind == String && Char !in env.extensions
    ensures var text := toks[p].text;
      ValueByType(toks, p, Char, env).Ok? <==> |text| == 1 && text[0] as int < 0x1_0000
    ensures var text := toks[p].text;
      |text| == 1 && text[0] as int < 0x1_0000 ==>
        ValueByType(toks, p, Char, env) == Ok(Parsed(Character(text[0]), p + 1))
    ensures var text := toks[p].text;
      !(|text| == 1 && text[0] as int < 0x1_0000) ==>
        ValueByType(toks, p, Char, env) == Err(Error.FormatError(text))
  {
  }

  /** A character outside the Basic Multilingual Plane is a surrogate pair, which `char.Parse` refuses. */
  lemma SurrogatePairExample(env: Env)
    requires Char !in env.extensions
    ensures ValueByType([Token(String, "\U{1F600}")], 0, Char, env) == Err(Error.FormatError("\U{1F600}"))
    ensures ValueByType([Token(String, "\U{E9}")], 0, Char, env) == Ok(Parsed(Character('\U{E9}'), 1))
  {
  }

  /** A string decodes only to `string` and `char`. */
  lemma StringToken(toks: seq<Token>, p: nat, s: Shape, env: Env)
    requires p < |toks| && toks[p].kind == String && s !in env.extensions
    ensures ValueByType(toks, p, s, env).Ok? ==> s == Str || s == Char
    ensures s == Str ==> ValueByType(toks, p, s, env) == Ok(Parsed(Text(toks[p].text), p + 1))
  {
  }

  /** No value starts with a colon, a comma, a closing bracket or the end of the input. */
  lemma StructuralToken(toks: seq<Token>, p: nat, s: Shape, env: Env)
    requires p <= |toks| && s !in env.extensions
    requires KindAt(toks, p) in {Colon, Comma, RightBrace, RightBracket, EndOfInput}
    ensures ValueByType(toks, p, s, env) == Err(Mismatch(KindAt(toks, p), s))
  {
  }

  /** `[` decodes only to an array or a list. */
  lemma BracketNeedsCollection(toks: seq<Token>, p: nat, s: Shape, env: Env)
    requires p < |toks| && toks[p].kind == LeftBracket && s !in env.extensions
    ensures !(s.Arr? || s.Lst?) ==> ValueByType(toks, p, s, env) == Err(Mismatch(LeftBracket, s))
  {
  }

  // ---------------------------------------------------------------------------------------------
  // Arrays and lists.

  /** An array and a list of the same element shape read the same elements, in the same order. */
  lemma ArrayListAgree(toks: seq<Token>, p: nat, elem: Shape, env: Env)
    requires p <= |toks|
    ensures ArrayByType(toks, p, Arr(elem), env).Ok? <==> ArrayByType(toks, p, Lst(elem), env).Ok?
    ensures ArrayByType(toks, p, Arr(elem), env).Ok? ==>
      && ArrayByType(toks, p, Arr(elem), env).value.value.items == ArrayByType(toks, p, Lst(elem), env).value.value.items
      && ArrayByType(toks, p, Arr(elem), env).value.next == ArrayByType(toks, p, Lst(elem), env).value.next
  {
  }

  /** The array loop appends one element per value, to the elements read before it. */
  lemma {:induction false} ElementsExtend(toks: seq<Token>, p: nat, elem: Shape, env: Env, acc: seq<Obj>)
    requires p <= |toks|
    ensures var r := ElementsFrom(toks, p, elem, env, acc);
      r.Ok? ==> |acc| <= |r.value.value| && r.value.value[..|acc|] == acc
    decreases |toks| - p
  {
    if KindAt(toks, p) != RightBracket {
      match ValueByType(toks, p, elem, env)
      case Err(_) =>
      case Ok(Parsed(v, q)) =>
        if KindAt(toks, q) == Comma && KindAt(toks, q + 1) != RightBracket {
          ElementsExtend(toks, q + 1, elem, env, acc + [v]);
          var r := ElementsFrom(toks, q + 1, elem, env, acc + [v]);
          if r.Ok? {
            assert r.value.value[..|acc|] == r.value.value[..|acc| + 1][..|acc|];
          }
        }
    }
  }

  // ---------------------------------------------------------------------------------------------
  // Records.

  /** The value a sink's instance holds in property `name`, if it has one. */
  function PropOf(sink: Sink, name: string): Option<Obj>
  {
    if sink.RecordSink? && sink.obj.RecordVal? && name in sink.obj.props then Some(sink.obj.props[name])
    else None
  }

  /** The value a sink's instance holds in field `name`, if it has one. */
  function FieldOf(sink: Sink, name: string): Option<Obj>
  {
    if sink.RecordSink? && sink.obj.RecordVal? && name in sink.obj.fields then Some(sink.obj.fields[name])
    else None
  }

  /** Member `name` holds the same value in both sinks. */
  predicate Keeps(a: Sink, b: Sink, name: string)
  {
    PropOf(a, name) == PropOf(b, name) && FieldOf(a, name) == FieldOf(b, name)
  }

  /**
   * The keys the member loop at `p` reads for its own object, in any order: each member's key,
   * not the keys of nested objects nor string values.
   */
  ghost function KeysFrom(toks: seq<Token>, p: nat, env: Env, sink: Sink): set<string>
    requires p <= |toks|
    decreases |toks| - p, 1
  {
    if KindAt(toks, p) == RightBrace || KindAt(toks, p) != String || KindAt(toks, p + 1) != Colon then {}
    else
      match Action(toks, p + 2, toks[p].text, env, sink)
      case Err(_) => {toks[p].text}
      case Ok(Parsed(next, q)) => {toks[p].text} + KeysAfter(toks, q, env, next)
  }

  /** The keys the member loop reads after a member that ends at `q`. */
  ghost function KeysAfter(toks: seq<Token>, q: nat, env: Env, sink: Sink): set<string>
    requires q <= |toks|
    decreases |toks| - q, 0
  {
    if KindAt(toks, q) == Comma && KindAt(toks, q + 1) != Guard then KeysFrom(toks, q + 1, env, sink) else {}
  }

  /** The keys of the object literal at `p` that `ParseJsonObjectByType` reads into shape `s`. */
  ghost function ObjectKeys(toks: seq<Token>, p: nat, s: Shape, env: Env): set<string>
    requires p <= |toks|
  {
    match NewInstance(s, env.types)
    case Err(_) => {}
    case Ok(sink) => if KindAt(toks, p) == LeftBrace then KeysFrom(toks, p + 1, env, sink) else {}
  }

  /**
   * A member's callback writes only the member of its key: the property when there is one (even
   * if a field has the same name), else the field, and nothing when the type has neither. A
   * member reflection cannot write fails once its value has been read.
   */
  lemma ActionTargets(toks: seq<Token>, q: nat, key: string, env: Env, sink: Sink, name: string)
    requires q <= |toks| && sink.RecordSink? && sink.obj.RecordVal?
    ensures var r := Action(toks, q, key, env, sink);
      && (r.Ok? && name != key ==> Keeps(sink, r.value.value, name))
      && (r.Ok? && key in sink.props ==>
            FieldOf(r.value.value, key) == FieldOf(sink, key) &&
            ValueByType(toks, q, sink.props[key].shape, env) == Ok(Parsed(r.value.value.obj.props[key], r.value.next)))
      && (r.Ok? && key !in sink.props && key in sink.fields ==>
            PropOf(r.value.value, key) == PropOf(sink, key) &&
            ValueByType(toks, q, sink.fields[key].shape, env) == Ok(Parsed(r.value.value.obj.fields[key], r.value.next)))
      && (r.Ok? && key !in sink.props && key !in sink.fields ==> r.value.value == sink)
      && (r.Ok? && key in sink.props ==> sink.props[key].settable)
      && (r.Ok? && key !in sink.props && key in sink.fields ==> sink.fields[key].settable)
      && (key in sink.props && !sink.props[key].settable && ValueByType(toks, q, sink.props[key].shape, env).Ok? ==>
            r == Err(NotSettable(key)))
  {
  }

  /** A sink's member that no key of the object names survives the member loop. */
  lemma {:induction false} MembersKeep(toks: seq<Token>, p: nat, env: Env, sink: Sink, name: string)
    requires p <= |toks| && name !in KeysFrom(toks, p, env, sink)
    ensures var r := MembersFrom(toks, p, env, sink);
      r.Ok? ==> Keeps(sink, r.value.value, name)
    decreases |toks| - p, 1
  {
    if KindAt(toks, p) != RightBrace && KindAt(toks, p) == String && KindAt(toks, p + 1) == Colon {
      var key := toks[p].text;
      match Action(toks, p + 2, key, env, sink)
      case Err(_) =>
      case Ok(Parsed(next, q)) =>
        assert key != name && name !in KeysAfter(toks, q, env, next);
        ActionKeeps(toks, p + 2, key, env, sink, name);
        AfterKeep(toks, q, env, next, name);
    }
  }

  lemma {:induction false} AfterKeep(toks: seq<Token>, q: nat, env: Env, sink: Sink, name: string)
    requires q <= |toks| && name !in KeysAfter(toks, q, env, sink)
    ensures var r := AfterMember(toks, q, env, sink);
      r.Ok? ==> Keeps(sink, r.value.value, name)
    decreases |toks| - q, 0
  {
    if KindAt(toks, q) == Comma && KindAt(toks, q + 1) != Guard {
      MembersKeep(toks, q + 1, env, sink, name);
    }
  }

  /** The callback of a member with another name leaves `name` alone, whatever the sink. */
  lemma ActionKeeps(toks: seq<Token>, q: nat, key: string, env: Env, sink: Sink, name: string)
    requires q <= |toks| && key != name
    ensures var r := Action(toks, q, key, env, sink);
      r.Ok? ==> Keeps(sink, r.value.value, name)
  {
  }

  /**
   * A property or field whose name is not a key of the object literal keeps the value a fresh
   * instance gives it.
   */
  lemma UnmentionedKeepsInit(toks: seq<Token>, p: nat, id: RecordId, env: Env, name: string)
    requires p <= |toks| && id in env.types && name !in ObjectKeys(toks, p, Record(id), env)
    ensures var r := ObjectByType(toks, p, Record(id), env);
      var init := Instance(id, env.types[id]);
      r.Ok? ==>
        && (name in init.props ==>
              r.value.value.RecordVal? && name in r.value.value.props && r.value.value.props[name] == init.props[name])
        && (name in init.fields ==>
              r.value.value.RecordVal? && name in r.value.value.fields && r.value.value.fields[name] == init.fields[name])
  {
    var info := env.types[id];
    var sink := RecordSink(Instance(id, info), MemberMap(info.props), MemberMap(info.fields));
    assert NewInstance(Record(id), env.types) == Ok(sink);
    if KindAt(toks, p) == LeftBrace {
      MembersKeep(toks, p + 1, env, sink, name);
    }
  }

  /** Only the object's own keys count: a string value or a nested object's key is not one. */
  lemma ObjectKeysExample(env: Env, sink: Sink)
    ensures KeysFrom([Token(LeftBrace, "{"), Token(String, "a"), Token(Colon, ":"), Token(String, "b"),
                      Token(RightBrace, "}")], 1, env, sink) == {"a"}
    ensures KeysFrom([Token(LeftBrace, "{"), Token(String, "x"), Token(Colon, ":"), Token(LeftBrace, "{"),
                      Token(String, "b"), Token(Colon, ":"), Token(Number, "1"), Token(RightBrace, "}"),
                      Token(RightBrace, "}")], 1, env, sink) == {"x"}
  {
    var toks := [Token(LeftBrace, "{"), Token(String, "a"), Token(Colon, ":"), Token(String, "b"),
                 Token(RightBrace, "}")];
    forall q: nat, next: Sink | 3 <= q <= |toks|
      ensures KeysAfter(toks, q, env, next) == {}
    {
      assert KindAt(toks, q) != Comma;
    }
    var nested := [Token(LeftBrace, "{"), Token(String, "x"), Token(Colon, ":"), Token(LeftBrace, "{"),
                   Token(String, "b"), Token(Colon, ":"), Token(Number, "1"), Token(RightBrace, "}"),
                   Token(RightBrace, "}")];
    forall q: nat, next: Sink | 3 <= q <= |nested|
      ensures KeysAfter(nested, q, env, next) == {}
    {
      assert KindAt(nested, q) != Comma;
    }
  }

  // ---------------------------------------------------------------------------------------------
  // Dictionaries.

  predicate DistinctDictKeys(es: seq<DictEntry>)
  {
    forall i, j :: 0 <= i < j < |es| ==> es[i].key != es[j].key
  }

  /** A dictionary sink whose keys are distinct. */
  predicate DistinctSink(sink: Sink)
  {
    sink.DictSink? ==> DistinctDictKeys(sink.entries)
  }

  lemma AddKeepsDistinct(es: seq<DictEntry>, k: DictKey, v: Obj)
    requires DistinctDictKeys(es)
    ensures DictAdd(es, k, v).Ok? ==> DistinctDictKeys(DictAdd(es, k, v).value)
  {
  }

  lemma {:induction false} MembersDistinct(toks: seq<Token>, p: nat, env: Env, sink: Sink)
    requires p <= |toks| && DistinctSink(sink)
    ensures var r := MembersFrom(toks, p, env, sink);
      r.Ok? ==> DistinctSink(r.value.value)
    decreases |toks| - p, 1
  {
    if KindAt(toks, p) != RightBrace && KindAt(toks, p) == String && KindAt(toks, p + 1) == Colon {
      match Action(toks, p + 2, toks[p].text, env, sink)
      case Err(_) =>
      case Ok(Parsed(next, q)) =>
        if sink.DictSink? {
          var v := ValueByType(toks, p + 2, sink.val, env).value.value;
          var k := DictKeyOf(sink.key, toks[p].text).value;
          AddKeepsDistinct(sink.entries, k, v);
        }
        AfterDistinct(toks, q, env, next);
    }
  }

  lemma {:induction false} AfterDistinct(toks: seq<Token>, q: nat, env: Env, sink: Sink)
    requires q <= |toks| && DistinctSink(sink)
    ensures var r := AfterMember(toks, q, env, sink);
      r.Ok? ==> DistinctSink(r.value.value)
    decreases |toks| - q, 0
  {
    if KindAt(toks, q) == Comma && KindAt(toks, q + 1) != Guard {
      MembersDistinct(toks, q + 1, env, sink);
    }
  }

  /** A decoded dictionary never holds a key twice: `Add` refuses a repeated key. */
  lemma DictResultDistinct(toks: seq<Token>, p: nat, s: Shape, env: Env)
    requires p <= |toks| && s.Dict?
    ensures var r := ObjectByDict(toks, p, s, env);
      r.Ok? ==> r.value.value.DictVal? && DistinctDictKeys(r.value.value.entries)
  {
    if KindAt(toks, p) == LeftBrace {
      MembersDistinct(toks, p + 1, env, DictSink(s.key, s.val, []));
    }
  }

  /** `{"a":1,"a":2}` into a dictionary with `string` keys: the second `Add` fails. */
  lemma DuplicateStringKeyExample(env: Env)
    requires Integer(IntKind.Int) !in env.extensions
    ensures ObjectByDict([Token(LeftBrace, "{"), Token(String, "a"), Token(Colon, ":"), Token(Number, "1"),
                          Token(Comma, ","), Token(String, "a"), Token(Colon, ":"), Token(Number, "2"),
                          Token(RightBrace, "}")], 0, Dict(StringKey, Integer(IntKind.Int)), env)
      == Err(DuplicateKey(SKey("a")))
  {
    var toks := [Token(LeftBrace, "{"), Token(String, "a"), Token(Colon, ":"), Token(Number, "1"),
                 Token(Comma, ","), Token(String, "a"), Token(Colon, ":"), Token(Number, "2"),
                 Token(RightBrace, "}")];
    DuplicateKeySteps(toks, "a", "a", SKey("a"), StringKey, env);
  }

  /** `{"01":1,"1":2}` into a dictionary with `int` keys: both names parse to 1, so `Add` fails. */
  lemma DuplicateIntKeyExample(env: Env)
    requires Integer(IntKind.Int) !in env.extensions
    ensures ObjectByDict([Token(LeftBrace, "{"), Token(String, "01"), Token(Colon, ":"), Token(Number, "1"),
                          Token(Comma, ","), Token(String, "1"), Token(Colon, ":"), Token(Number, "2"),
                          Token(RightBrace, "}")], 0, Dict(IntKey, Integer(IntKind.Int)), env)
      == Err(DuplicateKey(IKey(1)))
  {
    var toks := [Token(LeftBrace, "{"), Token(String, "01"), Token(Colon, ":"), Token(Number, "1"),
                 Token(Comma, ","), Token(String, "1"), Token(Colon, ":"), Token(Number, "2"),
                 Token(RightBrace, "}")];
    assert IntToText(1) == "1";
    ParseAsText(IntKind.Int, 1);
    assert ParseInteger("01") == Some(1);
    DuplicateKeySteps(toks, "01", "1", IKey(1), IntKey, env);
  }

  /** `{k1:1,k2:2}` where both names give the dictionary key `k`: the second `Add` fails. */
  lemma DuplicateKeySteps(toks: seq<Token>, k1: string, k2: string, k: DictKey, kind: KeyKind, env: Env)
    requires Integer(IntKind.Int) !in env.extensions
    requires toks == [Token(LeftBrace, "{"), Token(String, k1), Token(Colon, ":"), Token(Number, "1"),
                      Token(Comma, ","), Token(String, k2), Token(Colon, ":"), Token(Number, "2"),
                      Token(RightBrace, "}")]
    requires DictKeyOf(kind, k1) == Ok(k) && DictKeyOf(kind, k2) == Ok(k)
    ensures ObjectByDict(toks, 0, Dict(kind, Integer(IntKind.Int)), env) == Err(DuplicateKey(k))
  {
    var sink1 := DictSink(kind, Integer(IntKind.Int), [DictEntry(k, Obj.Int(IntKind.Int, 1))]);
    FirstEntry(toks, k1, k2, k, kind, env);
    SecondEntry(toks, k1, k2, k, kind, env);
    var sink0 := DictSink(kind, Integer(IntKind.Int), []);
    assert toks[1] == Token(String, k1) && toks[5] == Token(String, k2);
    assert KindAt(toks, 2) == Colon && KindAt(toks, 4) == Comma;
    assert AfterMember(toks, 4, env, sink1) == Err(DuplicateKey(k));
    assert MembersFrom(toks, 1, env, sink0) == Err(DuplicateKey(k));
    assert MembersAt(toks, 0, env, sink0) == Err(DuplicateKey(k));
  }

  /** The first member of `{k1:1,k2:2}` adds `k`. */
  lemma FirstEntry(toks: seq<Token>, k1: string, k2: string, k: DictKey, kind: KeyKind, env: Env)
    requires Integer(IntKind.Int) !in env.extensions
    requires toks == [Token(LeftBrace, "{"), Token(String, k1), Token(Colon, ":"), Token(Number, "1"),
                      Token(Comma, ","), Token(String, k2), Token(Colon, ":"), Token(Number, "2"),
                      Token(RightBrace, "}")]
    requires DictKeyOf(kind, k1) == Ok(k)
    ensures Action(toks, 3, k1, env, DictSink(kind, Integer(IntKind.Int), [])) ==
      Ok(Parsed(DictSink(kind, Integer(IntKind.Int), [DictEntry(k, Obj.Int(IntKind.Int, 1))]), 4))
  {
    assert IntToText(1) == "1";
    ParseAsText(IntKind.Int, 1);
    var es1 := [DictEntry(k, Obj.Int(IntKind.Int, 1))];
    assert NumberAs("1", Integer(IntKind.Int)) == Ok(Obj.Int(IntKind.Int, 1));
    assert toks[3] == Token(Number, "1");
    assert ValueByType(toks, 3, Integer(IntKind.Int), env) == Ok(Parsed(Obj.Int(IntKind.Int, 1), 4));
    assert [] + es1 == es1;
    assert DictAdd([], k, Obj.Int(IntKind.Int, 1)) == Ok(es1);
  }

  /** The second member of `{k1:1,k2:2}` finds `k` already there. */
  lemma SecondEntry(toks: seq<Token>, k1: string, k2: string, k: DictKey, kind: KeyKind, env: Env)
    requires Integer(IntKind.Int) !in env.extensions
    requires toks == [Token(LeftBrace, "{"), Token(String, k1), Token(Colon, ":"), Token(Number, "1"),
                      Token(Comma, ","), Token(String, k2), Token(Colon, ":"), Token(Number, "2"),
                      Token(RightBrace, "}")]
    requires DictKeyOf(kind, k2) == Ok(k)
    ensures MembersFrom(toks, 5, env, DictSink(kind, Integer(IntKind.Int), [DictEntry(k, Obj.Int(IntKind.Int, 1))]))
      == Err(DuplicateKey(k))
  {
    assert IntToText(2) == "2";
    ParseAsText(IntKind.Int, 2);
    var es1 := [DictEntry(k, Obj.Int(IntKind.Int, 1))];
    assert NumberAs("2", Integer(IntKind.Int)) == Ok(Obj.Int(IntKind.Int, 2));
    assert toks[7] == Token(Number, "2") && toks[5] == Token(String, k2);
    assert ValueByType(toks, 7, Integer(IntKind.Int), env) == Ok(Parsed(Obj.Int(IntKind.Int, 2), 8));
    assert HasKey(es1, k) by { assert es1[0].key == k; }
  }

  /** `{"x":true}` into a dictionary with `int` keys: `int.Parse("x")` fails. */
  lemma IntKeyFormatExample(env: Env)
    requires Bool !in env.extensions
    ensures ObjectByDict([Token(LeftBrace, "{"), Token(String, "x"), Token(Colon, ":"), Token(True, "true"),
                          Token(RightBrace, "}")], 0, Dict(IntKey, Bool), env)
      == Err(Error.FormatError("x"))
  {
  }

  /**
   * `{"x":true}` into a dictionary keyed by `object`: the name is added as a `string` key. Into
   * a dictionary whose key type a `string` is not, `Add` refuses it.
   */
  lemma ObjectKeyExample(env: Env)
    requires Bool !in env.extensions
    ensures var toks := [Token(LeftBrace, "{"), Token(String, "x"), Token(Colon, ":"), Token(True, "true"),
                         Token(RightBrace, "}")];
      && ObjectByDict(toks, 0, Dict(ObjectKey, Bool), env)
         == Ok(Parsed(DictVal(ObjectKey, Bool, [DictEntry(SKey("x"), Boolean(true))]), 5))
      && ObjectByDict(toks, 0, Dict(OtherKey, Bool), env) == Err(KeyTypeMismatch("x"))
  {
    assert [] + [DictEntry(SKey("x"), Boolean(true))] == [DictEntry(SKey("x"), Boolean(true))];
  }

  // ---------------------------------------------------------------------------------------------
  // The entry point.

  /** Without reflection only a generated decoder can read the text. */
  lemma NoReflectionUsesPrecompiled(toks: seq<Token>, s: Shape, env: Env)
    ensures s in env.precompiled ==> Decode(toks, s, env, false) == env.precompiled[s](toks)
    ensures s !in env.precompiled ==> Decode(toks, s, env, false) == Err(NoPrecompiled(s))
  {
  }

  /** With reflection, a record type is read as an object literal from the first token. */
  lemma ReflectionRecord(toks: seq<Token>, id: RecordId, env: Env)
    ensures Decode(toks, Record(id), env, true).Ok? <==> ObjectByType(toks, 0, Record(id), env).Ok?
    ensures Decode(toks, Record(id), env, true).Ok? ==>
      Decode(toks, Record(id), env, true).value == ObjectByType(toks, 0, Record(id), env).value.value
  {
  }
}
