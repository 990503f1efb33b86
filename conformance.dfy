/**
 * Both decoders hand back values of the type they were asked for: with a well-formed type table,
 * and custom decoders that do so themselves, every successful decoding of a shape is a value of
 * that shape (`Conforms`).
 */
module Conformance {
  import opened Tokens
  import opened Numbers
  import opened Types
  import opened TypedDecoder
  import opened JsonTree
  import TreeParser
  import TreeConverter

  /** A dictionary key the key type can hold. */
  predicate KeyConforms(k: DictKey, kind: KeyKind)
  {
    match kind
    case StringKey => k.SKey?
    case IntKey => k.IKey? && InRange(IntKind.Int, k.i)
    case ObjectKey => true
    case OtherKey => false
  }

  /**
   * `o` is a value of type `s`: null only where `s` is not a value type, integers within their
   * kind's range, collections whose elements are of the element type, and instances holding
   * exactly their type's members, each of that member's type.
   */
  predicate Conforms(o: Obj, s: Shape, types: TypeTable)
  {
    match o
    case Null => !IsValueType(s, types)
    case Boolean(_) => s == Bool
    case Int(k, n) => s == Integer(k) && InRange(k, n)
    case Real(f, _) => s == Floating(f)
    case CastInt(_) => s == Integer(IntKind.Int)
    case EnumVal(e, n) => s.Enum? && s.enumId == e && InRange(s.under, n)
    case Text(_) => s == Str
    case Character(_) => s == Char
    case ArrayVal(elem, items) =>
      s == Arr(elem) && forall i :: 0 <= i < |items| ==> Conforms(items[i], elem, types)
    case ListVal(elem, items) =>
      s == Lst(elem) && forall i :: 0 <= i < |items| ==> Conforms(items[i], elem, types)
    case DictVal(key, val, es) =>
      s == Dict(key, val) &&
      forall i :: 0 <= i < |es| ==> KeyConforms(es[i].key, key) && Conforms(es[i].value, val, types)
    case RecordVal(id, props, fields) =>
      && s == Record(id) && id in types
      && props.Keys == MemberMap(types[id].props).Keys
      && fields.Keys == MemberMap(types[id].fields).Keys
      && (forall name :: name in props ==> Conforms(props[name], MemberMap(types[id].props)[name].shape, types))
      && (forall name :: name in fields ==> Conforms(fields[name], MemberMap(types[id].fields)[name].shape, types))
    case PlainObject => s == Object
  }

  /** Every record's members start out holding values of their own types. */
  predicate WellFormedTable(types: TypeTable)
  {
    forall id :: id in types ==>
      && (forall name :: name in MemberMap(types[id].props) ==>
            Conforms(MemberMap(types[id].props)[name].init, MemberMap(types[id].props)[name].shape, types))
      && (forall name :: name in MemberMap(types[id].fields) ==>
            Conforms(MemberMap(types[id].fields)[name].init, MemberMap(types[id].fields)[name].shape, types))
  }

  /** Whatever `CreateInstance` makes is a value of the type it was asked for. */
  lemma CreateInstanceConforms(s: Shape, types: TypeTable)
    requires WellFormedTable(types)
    ensures CreateInstance(s, types).Ok? ==> Conforms(CreateInstance(s, types).value, s, types)
  {
    if s.Record? && s.id in types {
      InstanceConforms(s.id, types);
    } else if IsValueType(s, types) {
      DefaultConforms(s, types);
    }
  }

  /** A fresh instance of a described record is a value of its type. */
  lemma InstanceConforms(id: RecordId, types: TypeTable)
    requires id in types && WellFormedTable(types)
    ensures Conforms(Instance(id, types[id]), Record(id), types)
  {
  }

  /** The default of a value type is a value of that type. */
  lemma DefaultConforms(s: Shape, types: TypeTable)
    requires IsValueType(s, types) && WellFormedTable(types)
    ensures Conforms(Default(s, types), s, types)
  {
    if s.Record? {
      InstanceConforms(s.id, types);
    }
  }

  /** Every custom decoder produces values of the shape it is registered for. */
  ghost predicate ExtensionsConform(env: Env)
  {
    forall s: Shape, toks: seq<Token>, p: nat :: s in env.extensions && p <= |toks| && env.extensions[s](toks, p).Ok? ==>
      Conforms(env.extensions[s](toks, p).value.value, s, env.types)
  }

  ghost predicate Sound(env: Env)
  {
    WellFormedTable(env.types) && ExtensionsConform(env)
  }

  predicate AllConform(items: seq<Obj>, elem: Shape, types: TypeTable)
  {
    forall i :: 0 <= i < |items| ==> Conforms(items[i], elem, types)
  }

  /**
   * A sink filled towards shape `s`: an instance of `s` whose member tables are its type's, or a
   * dictionary of `s` whose entries have keys and values of its key and value types.
   */
  predicate SinkConforms(sink: Sink, s: Shape, types: TypeTable)
  {
    match sink
    case RecordSink(obj, props, fields) =>
      && Conforms(obj, s, types)
      && (obj.RecordVal? ==>
            obj.id in types && props == MemberMap(types[obj.id].props) && fields == MemberMap(types[obj.id].fields))
    case DictSink(key, val, es) =>
      s == Dict(key, val) &&
      forall i :: 0 <= i < |es| ==> KeyConforms(es[i].key, key) && Conforms(es[i].value, val, types)
  }

  /** `ParseJsonValueByType` yields a value of the shape asked for. */
  lemma {:induction false} ValueConforms(toks: seq<Token>, p: nat, s: Shape, env: Env)
    requires p <= |toks| && Sound(env)
    ensures var r := ValueByType(toks, p, s, env);
      r.Ok? ==> Conforms(r.value.value, s, env.types)
    decreases |toks| - p, 2
  {
    if s !in env.extensions {
      match KindAt(toks, p)
      case LeftBracket =>
        if s.Arr? || s.Lst? {
          ArrayConforms(toks, p, s, env);
        }
      case LeftBrace =>
        if s.Dict? {
          DictConforms(toks, p, s, env);
        } else {
          ObjectConforms(toks, p, s, env);
        }
      case _ =>
    }
  }

  lemma {:induction false} ArrayConforms(toks: seq<Token>, p: nat, s: Shape, env: Env)
    requires p <= |toks| && (s.Arr? || s.Lst?) && Sound(env)
    ensures var r := ArrayByType(toks, p, s, env);
      r.Ok? ==> Conforms(r.value.value, s, env.types)
    decreases |toks| - p, 1
  {
    if KindAt(toks, p) == LeftBracket {
      ElementsConform(toks, p + 1, s.elem, env, []);
    }
  }

  lemma {:induction false} ElementsConform(toks: seq<Token>, p: nat, elem: Shape, env: Env, acc: seq<Obj>)
    requires p <= |toks| && Sound(env) && AllConform(acc, elem, env.types)
    ensures var r := ElementsFrom(toks, p, elem, env, acc);
      r.Ok? ==> AllConform(r.value.value, elem, env.types)
    decreases |toks| - p, 3
  {
    if KindAt(toks, p) != RightBracket {
      match ValueByType(toks, p, elem, env)
      case Err(_) =>
      case Ok(Parsed(v, q)) =>
        ValueConforms(toks, p, elem, env);
        AfterElementConforms(toks, q, elem, env, acc + [v]);
    }
  }

  lemma {:induction false} AfterElementConforms(toks: seq<Token>, q: nat, elem: Shape, env: Env, acc: seq<Obj>)
    requires q <= |toks| && Sound(env) && AllConform(acc, elem, env.types)
    ensures var r := AfterElement(toks, q, elem, env, acc);
      r.Ok? ==> AllConform(r.value.value, elem, env.types)
    decreases |toks| - q, 2
  {
    if KindAt(toks, q) == Comma && KindAt(toks, q + 1) != RightBracket {
      ElementsConform(toks, q + 1, elem, env, acc);
    }
  }

  /** `ParseJsonObjectByType` yields an instance of the shape asked for. */
  lemma {:induction false} ObjectConforms(toks: seq<Token>, p: nat, s: Shape, env: Env)
    requires p <= |toks| && Sound(env)
    ensures var r := ObjectByType(toks, p, s, env);
      r.Ok? ==> Conforms(r.value.value, s, env.types)
    decreases |toks| - p, 1
  {
    match NewInstance(s, env.types)
    case Err(_) =>
    case Ok(sink) =>
      CreateInstanceConforms(s, env.types);
      MembersAtConform(toks, p, env, sink, s);
  }

  /** `ParseJsonObjectByDict` yields a dictionary of the key and value types asked for. */
  lemma {:induction false} DictConforms(toks: seq<Token>, p: nat, s: Shape, env: Env)
    requires p <= |toks| && s.Dict? && Sound(env)
    ensures var r := ObjectByDict(toks, p, s, env);
      r.Ok? ==> Conforms(r.value.value, s, env.types)
    decreases |toks| - p, 1
  {
    MembersAtConform(toks, p, env, DictSink(s.key, s.val, []), s);
  }

  lemma {:induction false} MembersAtConform(toks: seq<Token>, p: nat, env: Env, sink: Sink, s: Shape)
    requires p <= |toks| && Sound(env) && SinkConforms(sink, s, env.types)
    ensures var r := MembersAt(toks, p, env, sink);
      r.Ok? ==> SinkConforms(r.value.value, s, env.types)
    decreases |toks| - p, 0
  {
    if KindAt(toks, p) == LeftBrace {
      MembersConform(toks, p + 1, env, sink, s);
    }
  }

  lemma {:induction false} MembersConform(toks: seq<Token>, p: nat, env: Env, sink: Sink, s: Shape)
    requires p <= |toks| && Sound(env) && SinkConforms(sink, s, env.types)
    ensures var r := MembersFrom(toks, p, env, sink);
      r.Ok? ==> SinkConforms(r.value.value, s, env.types)
    decreases |toks| - p, 3
  {
    if KindAt(toks, p) != RightBrace && KindAt(toks, p) == String && KindAt(toks, p + 1) == Colon {
      match Action(toks, p + 2, toks[p].text, env, sink)
      case Err(_) =>
      case Ok(Parsed(next, q)) =>
        ActionConforms(toks, p + 2, toks[p].text, env, sink, s);
        AfterMemberConforms(toks, q, env, next, s);
    }
  }

  lemma {:induction false} AfterMemberConforms(toks: seq<Token>, q: nat, env: Env, sink: Sink, s: Shape)
    requires q <= |toks| && Sound(env) && SinkConforms(sink, s, env.types)
    ensures var r := AfterMember(toks, q, env, sink);
      r.Ok? ==> SinkConforms(r.value.value, s, env.types)
    decreases |toks| - q, 2
  {
    if KindAt(toks, q) == Comma && KindAt(toks, q + 1) != Guard {
      MembersConform(toks, q + 1, env, sink, s);
    }
  }

  /** A member's callback stores a value of the member's type, or a key and value of the dictionary's. */
  lemma {:induction false} ActionConforms(toks: seq<Token>, q: nat, key: string, env: Env, sink: Sink, s: Shape)
    requires q <= |toks| && Sound(env) && SinkConforms(sink, s, env.types)
    ensures var r := Action(toks, q, key, env, sink);
      r.Ok? ==> SinkConforms(r.value.value, s, env.types)
    decreases |toks| - q, 3
  {
    match sink
    case RecordSink(obj, props, fields) =>
      if key in props {
        ValueConforms(toks, q, props[key].shape, env);
        match ValueByType(toks, q, props[key].shape, env)
        case Err(_) =>
        case Ok(Parsed(v, _)) => StoreConforms(sink, key, v, s, env.types, true);
      } else if key in fields {
        ValueConforms(toks, q, fields[key].shape, env);
        match ValueByType(toks, q, fields[key].shape, env)
        case Err(_) =>
        case Ok(Parsed(v, _)) => StoreConforms(sink, key, v, s, env.types, false);
      }
    case DictSink(kind, val, es) =>
      ValueConforms(toks, q, val, env);
  }

  /** Setting a property (or field) of an instance to a value of its type keeps the instance of its type. */
  lemma StoreConforms(sink: Sink, key: string, v: Obj, s: Shape, types: TypeTable, prop: bool)
    requires sink.RecordSink? && SinkConforms(sink, s, types)
    requires prop ==> key in sink.props && Conforms(v, sink.props[key].shape, types)
    requires !prop ==> key in sink.fields && Conforms(v, sink.fields[key].shape, types)
    ensures SinkConforms(sink.(obj := if prop then SetProp(sink.obj, key, v) else SetField(sink.obj, key, v)), s, types)
  {
  }

  /** `ParseJson(json, type, true)` yields a value of the type asked for. */
  lemma DecodeConforms(toks: seq<Token>, s: Shape, env: Env)
    requires Sound(env)
    ensures Decode(toks, s, env, true).Ok? ==> Conforms(Decode(toks, s, env, true).value, s, env.types)
  {
    if IsCollection(s) {
      ValueConforms(toks, 0, s, env);
    } else {
      ObjectConforms(toks, 0, s, env);
    }
  }

  // ---------------------------------------------------------------------------------------------
  // The tree converter.

  /** No record has two properties, or two fields, of the same name. */
  predicate DistinctMembers(types: TypeTable)
  {
    forall id :: id in types ==> TreeConverter.UniqueNames(types[id].props) && TreeConverter.UniqueNames(types[id].fields)
  }

  /** With distinct names, the member table finds each member under its own name. */
  lemma {:induction false} MemberMapFinds(ms: seq<Member>, k: nat)
    requires TreeConverter.UniqueNames(ms) && k < |ms|
    ensures ms[k].name in MemberMap(ms) && MemberMap(ms)[ms[k].name] == ms[k]
    decreases |ms|
  {
    var n := |ms| - 1;
    if k < n {
      var init := ms[..n];
      assert init[k] == ms[k];
      MemberMapFinds(init, k);
    }
  }

  /** The member values `acc` are exactly those of table `all`, each of its member's type. */
  predicate ValuesConform(acc: map<string, Obj>, all: seq<Member>, types: TypeTable)
  {
    && acc.Keys == MemberMap(all).Keys
    && forall name :: name in acc ==> Conforms(acc[name], MemberMap(all)[name].shape, types)
  }

  /** What a reflective store leaves in a slot of type `s` is a value of that type. */
  lemma StoredConforms(x: Obj, s: Shape, types: TypeTable)
    requires WellFormedTable(types)
    requires x == Obj.Null || Conforms(x, s, types)
    ensures Conforms(TreeConverter.Stored(x, s, types), s, types)
  {
    if x == Obj.Null && IsValueType(s, types) {
      DefaultConforms(s, types);
    }
  }

  /**
   * `GetValueByType` yields a value of the type asked for, or a null that storing it turns into
   * one.
   */
  lemma {:induction false} ConvertConforms(v: JsonValue, s: Shape, types: TypeTable)
    requires WellFormedTable(types) && DistinctMembers(types)
    ensures var r := TreeConverter.Convert(v, s, types);
      r.Ok? ==> r.value == Obj.Null || Conforms(r.value, s, types)
    decreases v, 0, 0
  {
    if v.JArray? && (s.Arr? || s.Lst?) {
      ConvertAllConforms(v.items, s.elem, types);
    } else if v.JObject? {
      ConvertObjectConforms(v.obj, s, types);
    }
  }

  lemma {:induction false} ConvertAllConforms(items: seq<JsonValue>, elem: Shape, types: TypeTable)
    requires WellFormedTable(types) && DistinctMembers(types)
    ensures var r := TreeConverter.ConvertAll(items, elem, types);
      r.Ok? ==> AllConform(r.value, elem, types)
    decreases items, 0, 0
  {
    if items != [] {
      var last := items[|items| - 1];
      ConvertAllConforms(items[..|items| - 1], elem, types);
      ConvertConforms(last, elem, types);
      var x := TreeConverter.Convert(last, elem, types);
      if x.Ok? {
        StoredConforms(x.value, elem, types);
      }
    }
  }

  /** `ConvertObjectByType` yields an instance of the type asked for. */
  lemma {:induction false} ConvertObjectConforms(d: ObjData, s: Shape, types: TypeTable)
    requires WellFormedTable(types) && DistinctMembers(types)
    ensures var r := TreeConverter.ConvertObject(d, s, types);
      r.Ok? ==> Conforms(r.value, s, types)
    decreases d, 0, 0
  {
    if s.Record? && s.id in types && d.Written? {
      ConvertRecordConforms(d.entries, s.id, types);
    } else {
      CreateInstanceConforms(s, types);
    }
  }

  lemma {:induction false} ConvertRecordConforms(es: seq<Entry>, id: RecordId, types: TypeTable)
    requires id in types && WellFormedTable(types) && DistinctMembers(types)
    ensures var r := TreeConverter.ConvertRecord(es, id, types);
      r.Ok? ==> Conforms(r.value, Record(id), types)
    decreases es, 1, 0
  {
    var info := types[id];
    InitialConform(id, types);
    assert info.fields[0..] == info.fields && info.props[0..] == info.props;
    SetMembersConform(es, info.fields, 0, InitialValues(info.fields), types);
    SetMembersConform(es, info.props, 0, InitialValues(info.props), types);
  }

  /** A fresh instance's member values are of their members' types. */
  lemma InitialConform(id: RecordId, types: TypeTable)
    requires id in types && WellFormedTable(types)
    ensures ValuesConform(InitialValues(types[id].props), types[id].props, types)
    ensures ValuesConform(InitialValues(types[id].fields), types[id].fields, types)
  {
  }

  /** Setting one member to a value of its type keeps all member values of their types. */
  lemma UpdateConforms(acc: map<string, Obj>, all: seq<Member>, name: string, v: Obj, types: TypeTable)
    requires ValuesConform(acc, all, types) && name in MemberMap(all)
    requires Conforms(v, MemberMap(all)[name].shape, types)
    ensures ValuesConform(acc[name := v], all, types)
  {
  }

  /** Assigning the members `all[j..]` keeps every member value of its member's type. */
  lemma {:induction false} SetMembersConform(es: seq<Entry>, all: seq<Member>, j: nat,
                                             acc: map<string, Obj>, types: TypeTable)
    requires WellFormedTable(types) && DistinctMembers(types)
    requires TreeConverter.UniqueNames(all) && ValuesConform(acc, all, types) && j <= |all|
    ensures var r := TreeConverter.SetMembers(es, all[j..], acc, types);
      r.Ok? ==> ValuesConform(r.value, all, types)
    decreases es, 0, |all| - j
  {
    var ms := all[j..];
    if ms != [] {
      assert ms[0] == all[j] && ms[1..] == all[j + 1..];
      var i := IndexOf(es, ms[0].name);
      if i < 0 {
        SetMembersConform(es, all, j + 1, acc, types);
      } else {
        assert es[i] in es;
        ConvertConforms(es[i].value, ms[0].shape, types);
        var x := TreeConverter.Convert(es[i].value, ms[0].shape, types);
        if x.Ok? {
          var stored := TreeConverter.Stored(x.value, ms[0].shape, types);
          MemberMapFinds(all, j);
          StoredConforms(x.value, ms[0].shape, types);
          UpdateConforms(acc, all, ms[0].name, stored, types);
          SetMembersConform(es, all, j + 1, acc[ms[0].name := stored], types);
        }
      }
    }
  }

  /** `ParseJson(json, type)` yields a value of the type asked for. */
  lemma ParseAsConforms(toks: seq<Token>, s: Shape, types: TypeTable)
    requires WellFormedTable(types) && DistinctMembers(types)
    ensures TreeConverter.ParseAs(toks, s, types).Ok? ==> Conforms(TreeConverter.ParseAs(toks, s, types).value, s, types)
  {
    match TreeParser.ObjectAt(toks, 0, TreeParser.WrittenGuard)
    case Err(_) =>
    case Ok(Parsed(d, _)) => ConvertObjectConforms(d, s, types);
  }
}
