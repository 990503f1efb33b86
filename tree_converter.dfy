/**
 * The generic tree's conversion to typed objects: `ParseJson(json, type)`,
 * `ConvertObjectByType` and `GetValueByType`.
 *
 * `Convert`, `ConvertAll`, `ConvertObject` and `SetMembers` give the meaning of a conversion;
 * the methods, which fill arrays, lists and instances element by element and member by member
 * as the source's loops do, are proved to compute them.
 */
module TreeConverter {
  import opened Tokens
  import opened Numbers
  import opened Types
  import opened Lexing
  import opened JsonTree
  import TreeParser

  /**
   * What a reflective store (`FieldInfo.SetValue`, `PropertyInfo.SetValue`, `Array.SetValue`,
   * `List.Add` through `Invoke`) of `v` into a slot of type `s` leaves there: a null becomes the
   * default of a value type.
   */
  function Stored(v: Obj, s: Shape, types: TypeTable): (r: Obj)
    ensures v != Obj.Null ==> r == v
    ensures r == Obj.Null <==> v == Obj.Null && !IsValueType(s, types)
  {
    if v == Obj.Null && IsValueType(s, types) then Default(s, types) else v
  }

  /** `GetValueByType(jsonValue, type)`. */
  function Convert(v: JsonValue, s: Shape, types: TypeTable): (r: Result<Obj>)
    decreases v, 0, 0
  {
    if v.JNull? && s != Object then Ok(Obj.Null)
    else if v.JBool? && s == Bool then Ok(Boolean(v.b))
    else if v.JNumber? && s == Floating(Double) then Ok(Real(Double, v.text))
    else if v.JNumber? && s == Floating(Single) then Ok(Real(Single, v.text))
    else if v.JNumber? && s == Integer(IntKind.Int) then Ok(CastInt(v.text))
    else if v.JString? && s == Str then Ok(Text(v.s))
    else if v.JArray? && s.Arr? then
      match ConvertAll(v.items, s.elem, types)
      case Ok(xs) => Ok(ArrayVal(s.elem, xs))
      case Err(e) => Err(e)
    else if v.JArray? && s.Lst? then
      match ConvertAll(v.items, s.elem, types)
      case Ok(xs) => Ok(ListVal(s.elem, xs))
      case Err(e) => Err(e)
    else if v.JObject? then ConvertObject(v.obj, s, types)
    else Err(ConvertMismatch(TypeOf(v), s))
  }

  /** The elements of an array or list, each converted to `elem` and stored, in order. */
  function ConvertAll(items: seq<JsonValue>, elem: Shape, types: TypeTable): (r: Result<seq<Obj>>)
    ensures r.Ok? ==> |r.value| == |items|
    decreases items, 0, 0
  {
    if items == [] then Ok([])
    else
      match ConvertAll(items[..|items| - 1], elem, types)
      case Err(e) => Err(e)
      case Ok(xs) =>
        match Convert(items[|items| - 1], elem, types)
        case Err(e) => Err(e)
        case Ok(x) => Ok(xs + [Stored(x, elem, types)])
  }

  /**
   * `ConvertObjectByType`: create an instance, then set its fields and then its properties from
   * the object's members of the same name. Only a described record has members to set; any other
   * type comes back as `CreateInstance` makes it, or fails as it does.
   */
  function ConvertObject(d: ObjData, s: Shape, types: TypeTable): (r: Result<Obj>)
    decreases d, 0, 0
  {
    if s.Record? && s.id in types && d.Written? then ConvertRecord(d.entries, s.id, types)
    else CreateInstance(s, types)
  }

  /** A fresh instance of record `id`, its fields and then its properties set from `es`. */
  function ConvertRecord(es: seq<Entry>, id: RecordId, types: TypeTable): (r: Result<Obj>)
    requires id in types
    decreases es, 1, 0
  {
    var info := types[id];
    match SetMembers(es, info.fields, InitialValues(info.fields), types)
    case Err(e) => Err(e)
    case Ok(fs) =>
      match SetMembers(es, info.props, InitialValues(info.props), types)
      case Err(e) => Err(e)
      case Ok(ps) => Ok(RecordVal(id, ps, fs))
  }

  /**
   * The `foreach` over members: each member whose name the object holds receives that value,
   * converted to the member's type; the others are passed over.
   */
  function SetMembers(es: seq<Entry>, ms: seq<Member>, acc: map<string, Obj>, types: TypeTable)
    : (r: Result<map<string, Obj>>)
    decreases es, 0, |ms|
  {
    if ms == [] then Ok(acc)
    else
      var i := IndexOf(es, ms[0].name);
      if i < 0 then SetMembers(es, ms[1..], acc, types)
      else
        assert es[i] in es;
        match Convert(es[i].value, ms[0].shape, types)
        case Err(e) => Err(e)
        case Ok(x) =>
          if !ms[0].settable then Err(NotSettable(ms[0].name))
          else SetMembers(es, ms[1..], acc[ms[0].name := Stored(x, ms[0].shape, types)], types)
  }

  /** `ParseJson(json, type)`: the tree of the text, converted. */
  ghost function ParseAs(toks: seq<Token>, s: Shape, types: TypeTable): Result<Obj>
  {
    match TreeParser.ObjectAt(toks, 0, TreeParser.WrittenGuard)
    case Err(e) => Err(e)
    case Ok(Parsed(d, _)) => ConvertObject(d, s, types)
  }

  // ---------------------------------------------------------------------------------------------
  // Arrays and lists: same length, element by element, first failure wins.

  /** A conversion that fails on a prefix fails the same way on the whole sequence. */
  lemma {:induction false} ConvertAllPrefixErr(items: seq<JsonValue>, j: nat, elem: Shape, types: TypeTable)
    requires j <= |items| && ConvertAll(items[..j], elem, types).Err?
    ensures ConvertAll(items, elem, types) == ConvertAll(items[..j], elem, types)
    decreases |items|
  {
    if j < |items| {
      var init := items[..|items| - 1];
      assert init[..j] == items[..j];
      ConvertAllPrefixErr(init, j, elem, types);
    } else {
      assert items[..j] == items;
    }
  }

  /**
   * The conversion succeeds exactly when every element converts, and then the result holds, at
   * each index, that element's converted and stored value.
   */
  lemma {:induction false} ConvertAllElementwise(items: seq<JsonValue>, elem: Shape, types: TypeTable)
    ensures ConvertAll(items, elem, types).Ok? <==>
      forall i :: 0 <= i < |items| ==> Convert(items[i], elem, types).Ok?
    ensures ConvertAll(items, elem, types).Ok? ==>
      forall i :: 0 <= i < |items| ==>
        ConvertAll(items, elem, types).value[i] == Stored(Convert(items[i], elem, types).value, elem, types)
    decreases |items|
  {
    if items != [] {
      var n := |items| - 1;
      ConvertAllElementwise(items[..n], elem, types);
      ConvertAllStep(items, n, elem, types);
      assert items[..n + 1] == items;
    }
  }

  /** One more element: the prefix's conversion extended by that element's, or the first error. */
  lemma ConvertAllStep(items: seq<JsonValue>, i: nat, elem: Shape, types: TypeTable)
    requires i < |items|
    ensures var pre, x := ConvertAll(items[..i], elem, types), Convert(items[i], elem, types);
      ConvertAll(items[..i + 1], elem, types) ==
        if pre.Err? then pre else if x.Err? then Err(x.error) else Ok(pre.value + [Stored(x.value, elem, types)])
  {
    assert items[..i + 1][..i] == items[..i];
  }

  /** The error is that of the first element that fails to convert. */
  lemma ConvertAllFirstError(items: seq<JsonValue>, j: nat, elem: Shape, types: TypeTable)
    requires j < |items| && Convert(items[j], elem, types).Err?
    requires forall i :: 0 <= i < j ==> Convert(items[i], elem, types).Ok?
    ensures ConvertAll(items, elem, types) == Err(Convert(items[j], elem, types).error)
  {
    var pre := items[..j];
    ConvertAllElementwise(pre, elem, types);
    assert forall i :: 0 <= i < j ==> pre[i] == items[i];
    var upto := items[..j + 1];
    assert upto[..j] == pre && upto[j] == items[j];
    ConvertAllPrefixErr(items, j + 1, elem, types);
  }

  // ---------------------------------------------------------------------------------------------
  // Members: present keys are assigned, absent ones keep their value, other keys are ignored.

  /** No two members share a name (public members of one kind have distinct names). */
  predicate UniqueNames(ms: seq<Member>)
  {
    forall i, j :: 0 <= i < j < |ms| ==> ms[i].name != ms[j].name
  }

  /** A name the object does not hold keeps whatever value it had. */
  lemma {:induction false} SetMembersAbsent(es: seq<Entry>, ms: seq<Member>, acc: map<string, Obj>,
                                            types: TypeTable, name: string)
    requires IndexOf(es, name) < 0
    ensures SetMembers(es, ms, acc, types).Ok? ==>
      var m := SetMembers(es, ms, acc, types).value;
      (name in m <==> name in acc) && (name in acc ==> m[name] == acc[name])
    decreases |ms|
  {
    if ms != [] {
      SetMembersAbsent(es, ms[1..], acc, types, name);
      var i := IndexOf(es, ms[0].name);
      if i >= 0 {
        var x := Convert(es[i].value, ms[0].shape, types);
        if x.Ok? {
          SetMembersAbsent(es, ms[1..], acc[ms[0].name := Stored(x.value, ms[0].shape, types)], types, name);
        }
      }
    }
  }

  /** A name that no member bears is never set. */
  lemma {:induction false} SetMembersOthers(es: seq<Entry>, ms: seq<Member>, acc: map<string, Obj>,
                                            types: TypeTable, name: string)
    requires forall k :: 0 <= k < |ms| ==> ms[k].name != name
    ensures SetMembers(es, ms, acc, types).Ok? ==>
      var m := SetMembers(es, ms, acc, types).value;
      (name in m <==> name in acc) && (name in acc ==> m[name] == acc[name])
    decreases |ms|
  {
    if ms != [] {
      SetMembersOthers(es, ms[1..], acc, types, name);
      var i := IndexOf(es, ms[0].name);
      if i >= 0 {
        var x := Convert(es[i].value, ms[0].shape, types);
        if x.Ok? {
          SetMembersOthers(es, ms[1..], acc[ms[0].name := Stored(x.value, ms[0].shape, types)], types, name);
        }
      }
    }
  }

  /**
   * A member whose name the object holds receives that value, converted to its type; the
   * member is then one reflection can write.
   */
  lemma {:induction false} SetMembersPresent(es: seq<Entry>, ms: seq<Member>, acc: map<string, Obj>,
                                             types: TypeTable, k: nat)
    requires UniqueNames(ms) && k < |ms|
    requires SetMembers(es, ms, acc, types).Ok?
    requires ValueOf(es, ms[k].name).Some?
    ensures Convert(ValueOf(es, ms[k].name).value, ms[k].shape, types).Ok? && ms[k].settable
    ensures var m := SetMembers(es, ms, acc, types).value;
      ms[k].name in m && m[ms[k].name] ==
      Stored(Convert(ValueOf(es, ms[k].name).value, ms[k].shape, types).value, ms[k].shape, types)
    decreases |ms|
  {
    var i := IndexOf(es, ms[0].name);
    if k == 0 {
      var x := Convert(es[i].value, ms[0].shape, types);
      var acc' := acc[ms[0].name := Stored(x.value, ms[0].shape, types)];
      SetMembersOthers(es, ms[1..], acc', types, ms[0].name);
    } else {
      var rest := ms[1..];
      assert rest[k - 1] == ms[k];
      if i < 0 {
        SetMembersPresent(es, rest, acc, types, k - 1);
      } else {
        var x := Convert(es[i].value, ms[0].shape, types);
        SetMembersPresent(es, rest, acc[ms[0].name := Stored(x.value, ms[0].shape, types)], types, k - 1);
      }
    }
  }

  /** A member reflection cannot write, named by the object, makes the whole assignment fail. */
  lemma {:induction false} SetMembersNotSettable(es: seq<Entry>, ms: seq<Member>, acc: map<string, Obj>,
                                                 types: TypeTable, k: nat)
    requires k < |ms| && ValueOf(es, ms[k].name).Some? && !ms[k].settable
    ensures SetMembers(es, ms, acc, types).Err?
    decreases |ms|
  {
    var i := IndexOf(es, ms[0].name);
    if k > 0 {
      var rest := ms[1..];
      assert rest[k - 1] == ms[k];
      if i < 0 {
        SetMembersNotSettable(es, rest, acc, types, k - 1);
      } else {
        var x := Convert(es[i].value, ms[0].shape, types);
        if x.Ok? && ms[0].settable {
          SetMembersNotSettable(es, rest, acc[ms[0].name := Stored(x.value, ms[0].shape, types)], types, k - 1);
        }
      }
    }
  }

  /** `public int Total => a + b;` and `{"Total":3}`: `SetValue` on the get-only property fails. */
  lemma GetOnlyExample()
    ensures var total := Member("Total", Integer(IntKind.Int), Obj.Int(IntKind.Int, 0), false);
      var types := map[0 := RecordInfo(false, false, [total], [])];
      ConvertObject(Written([Entry("Total", JNumber("3"))]), Record(0), types) == Err(NotSettable("Total"))
  {
    var total := Member("Total", Integer(IntKind.Int), Obj.Int(IntKind.Int, 0), false);
    var es := [Entry("Total", JNumber("3"))];
    assert IndexOf(es, "Total") == 0;
    assert SetMembers(es, [total], InitialValues([total]), map[0 := RecordInfo(false, false, [total], [])])
      == Err(NotSettable("Total"));
  }

  /**
   * Keys that name no member do not matter: two objects that hold the same values under the
   * members' names give the same result.
   */
  lemma {:induction false} SetMembersIgnoresOthers(es: seq<Entry>, es': seq<Entry>, ms: seq<Member>,
                                                   acc: map<string, Obj>, types: TypeTable)
    requires forall k :: 0 <= k < |ms| ==> ValueOf(es, ms[k].name) == ValueOf(es', ms[k].name)
    ensures SetMembers(es, ms, acc, types) == SetMembers(es', ms, acc, types)
    decreases |ms|
  {
    if ms != [] {
      assert ValueOf(es, ms[0].name) == ValueOf(es', ms[0].name);
      var i := IndexOf(es, ms[0].name);
      if i >= 0 {
        var x := Convert(es[i].value, ms[0].shape, types);
        if x.Ok? {
          SetMembersIgnoresOthers(es, es', ms[1..], acc[ms[0].name := Stored(x.value, ms[0].shape, types)], types);
        }
      } else {
        SetMembersIgnoresOthers(es, es', ms[1..], acc, types);
      }
    }
  }

  /**
   * An object literal converted to a type that is not a record comes back as `CreateInstance`
   * makes it: an empty dictionary or list, a bare `object`; an array type has no parameterless
   * constructor.
   */
  lemma ObjectToCollectionExample(types: TypeTable)
    ensures var obj := JObject(Written([Entry("a", JNumber("1"))]));
      && Convert(obj, Dict(StringKey, Integer(IntKind.Int)), types) == Ok(DictVal(StringKey, Integer(IntKind.Int), []))
      && Convert(obj, Lst(Str), types) == Ok(ListVal(Str, []))
      && Convert(obj, Object, types) == Ok(PlainObject)
      && Convert(obj, Arr(Str), types) == Err(NoConstructor(Arr(Str)))
  {
  }

  // ---------------------------------------------------------------------------------------------
  // The methods.

  /** `GetValueByType`, with the array and list loops of the source. */
  method GetValueByType(v: JsonValue, s: Shape, types: TypeTable) returns (r: Result<Obj>)
    ensures r == Convert(v, s, types)
    decreases v, 0, 0
  {
    if v.JNull? && s != Object {
      return Ok(Obj.Null);
    }
    if v.JBool? && s == Bool {
      return Ok(Boolean(v.b));
    }
    if v.JNumber? {
      if s == Floating(Double) {
        return Ok(Real(Double, v.text));
      }
      if s == Floating(Single) {
        return Ok(Real(Single, v.text));
      }
      if s == Integer(IntKind.Int) {
        return Ok(CastInt(v.text));
      }
    }
    if v.JString? && s == Str {
      return Ok(Text(v.s));
    }
    if v.JArray? {
      if s.Arr? {
        var xs := ConvertArray(v.items, s.elem, types);
        return if xs.Ok? then Ok(ArrayVal(s.elem, xs.value)) else Err(xs.error);
      }
      if s.Lst? {
        var xs := ConvertList(v.items, s.elem, types);
        return if xs.Ok? then Ok(ListVal(s.elem, xs.value)) else Err(xs.error);
      }
    }
    if v.JObject? {
      r := ConvertObjectByType(v.obj, s, types);
      return;
    }
    return Err(ConvertMismatch(TypeOf(v), s));
  }

  /** `Array.CreateInstance(elementType, length)` filled by index. */
  method ConvertArray(items: seq<JsonValue>, elem: Shape, types: TypeTable) returns (r: Result<seq<Obj>>)
    ensures r == ConvertAll(items, elem, types)
    decreases items, 0, 1
  {
    var arr := new Obj[|items|];
    for i := 0 to |items|
      invariant ConvertAll(items[..i], elem, types) == Ok(arr[..i])
    {
      var failure := SetElement(arr, items, i, elem, types);
      if failure.Some? {
        return Err(failure.value);
      }
    }
    assert items[..|items|] == items && arr[..|items|] == arr[..];
    return Ok(arr[..]);
  }

  /** One turn of the array loop: `array.SetValue(GetValueByType(items[i], elementType), i)`. */
  method SetElement(arr: array<Obj>, items: seq<JsonValue>, i: nat, elem: Shape, types: TypeTable)
    returns (failure: Option<Error>)
    requires arr.Length == |items| && i < |items|
    requires ConvertAll(items[..i], elem, types) == Ok(arr[..i])
    modifies arr
    ensures failure.None? ==> ConvertAll(items[..i + 1], elem, types) == Ok(arr[..i + 1])
    ensures failure.Some? ==> ConvertAll(items, elem, types) == Err(failure.value)
    decreases items, 0, 0
  {
    var element := GetValueByType(items[i], elem, types);
    ConvertAllStep(items, i, elem, types);
    if element.Err? {
      ConvertAllPrefixErr(items, i + 1, elem, types);
      return Some(element.error);
    }
    arr[i] := Stored(element.value, elem, types);
    assert arr[..i + 1] == arr[..i] + [arr[i]];
    return None;
  }

  /** A `List<T>` created with the length as capacity and filled by `Add`. */
  method ConvertList(items: seq<JsonValue>, elem: Shape, types: TypeTable) returns (r: Result<seq<Obj>>)
    ensures r == ConvertAll(items, elem, types)
    decreases items, 0, 0
  {
    var list: seq<Obj> := [];
    for i := 0 to |items|
      invariant ConvertAll(items[..i], elem, types) == Ok(list)
    {
      var element := GetValueByType(items[i], elem, types);
      ConvertAllStep(items, i, elem, types);
      if element.Err? {
        ConvertAllPrefixErr(items, i + 1, elem, types);
        return Err(element.error);
      }
      list := list + [Stored(element.value, elem, types)];
    }
    assert items[..|items|] == items;
    return Ok(list);
  }

  /** `ConvertObjectByType`. */
  method ConvertObjectByType(d: ObjData, s: Shape, types: TypeTable) returns (r: Result<Obj>)
    ensures r == ConvertObject(d, s, types)
    decreases d, 0, 0
  {
    var created := CreateInstance(s, types);
    if created.Err? || !s.Record? || d.Unwritten? {
      return created;
    }
    var info := types[s.id];
    var es := d.entries;
    var fields := AssignMembers(es, info.fields, InitialValues(info.fields), types);
    if fields.Err? {
      return Err(fields.error);
    }
    var props := AssignMembers(es, info.props, InitialValues(info.props), types);
    if props.Err? {
      return Err(props.error);
    }
    return Ok(RecordVal(s.id, props.value, fields.value));
  }

  /** One of the two `foreach` loops: `TryGetValue` by name, convert, store. */
  method AssignMembers(es: seq<Entry>, ms: seq<Member>, init: map<string, Obj>, types: TypeTable)
    returns (r: Result<map<string, Obj>>)
    ensures r == SetMembers(es, ms, init, types)
    decreases es, 0, |ms|
  {
    var obj := init;
    for k := 0 to |ms|
      invariant SetMembers(es, ms[k..], obj, types) == SetMembers(es, ms, init, types)
    {
      var member := ms[k];
      var i := IndexOf(es, member.name);
      if i >= 0 {
        assert es[i] in es;
        var value := GetValueByType(es[i].value, member.shape, types);
        if value.Err? {
          return Err(value.error);
        }
        if !member.settable {
          return Err(NotSettable(member.name));
        }
        obj := obj[member.name := Stored(value.value, member.shape, types)];
      }
      assert ms[k..][1..] == ms[k + 1..];
    }
    return Ok(obj);
  }

  /** `ParseJson(json, type)`. */
  method ParseJsonAs(lexer: Lexer, toks: seq<Token>, s: Shape, types: TypeTable) returns (r: Result<Obj>)
    modifies lexer
    ensures r == ParseAs(toks, s, types)
  {
    var tree := TreeParser.ParseJson(lexer, toks);
    if tree.Err? {
      return Err(tree.error);
    }
    r := ConvertObjectByType(tree.value.Data(), s, types);
  }
}
