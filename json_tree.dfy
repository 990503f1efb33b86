/**
 * The generic value tree: a tagged JSON value, and the keyed container `JsonObject` whose
 * dictionary is created by the first write and then updated in place by the indexer.
 */
module JsonTree {
  import opened Tokens
  import opened Types

  datatype JsonValue =
    | JNull
    | JBool(b: bool)
    | JNumber(text: string)
    | JString(s: string)
    | JArray(items: seq<JsonValue>)
    | JObject(obj: ObjData)

  /** The contents of a `JsonObject`: no dictionary yet, or its entries in enumeration order. */
  datatype ObjData = Unwritten | Written(entries: seq<Entry>)

  datatype Entry = Entry(key: string, value: JsonValue)

  /** The tag the tree records for a value. */
  function TypeOf(v: JsonValue): ValueType
  {
    match v
    case JNull => NullType
    case JBool(_) => BooleanType
    case JNumber(_) => NumberType
    case JString(_) => StringType
    case JArray(_) => ArrayType
    case JObject(_) => ObjectType
  }

  /** The slot of `key` among the entries, or -1. */
  function IndexOf(es: seq<Entry>, key: string): (i: int)
    ensures -1 <= i < |es|
    ensures 0 <= i ==> es[i].key == key && forall j :: 0 <= j < i ==> es[j].key != key
    ensures i == -1 <==> forall j :: 0 <= j < |es| ==> es[j].key != key
  {
    if es == [] then -1
    else if es[0].key == key then 0
    else
      var k := IndexOf(es[1..], key);
      if k < 0 then -1 else k + 1
  }

  predicate DistinctKeys(es: seq<Entry>)
  {
    forall i, j :: 0 <= i < j < |es| ==> es[i].key != es[j].key
  }

  /** The value a dictionary holds under `key`. */
  function ValueOf(es: seq<Entry>, key: string): Option<JsonValue>
  {
    var i := IndexOf(es, key);
    if i < 0 then None else Some(es[i].value)
  }

  /** Dictionary `d[key] = v`: an existing key keeps its slot, a new key goes last. */
  function Assign(es: seq<Entry>, key: string, v: JsonValue): seq<Entry>
  {
    if es == [] then [Entry(key, v)]
    else if es[0].key == key then [Entry(key, v)] + es[1..]
    else [es[0]] + Assign(es[1..], key, v)
  }

  /** The write lands in the slot `IndexOf` finds, or after the last entry. */
  lemma AssignSlot(es: seq<Entry>, key: string, v: JsonValue)
    ensures var i := IndexOf(es, key);
      Assign(es, key, v) == if i < 0 then es + [Entry(key, v)] else es[i := Entry(key, v)]
  {
    if IndexOf(es, key) < 0 {
      AssignAppends(es, key, v);
    } else {
      AssignReplaces(es, key, v);
    }
  }

  /** A key not yet present is appended. */
  lemma {:induction false} AssignAppends(es: seq<Entry>, key: string, v: JsonValue)
    requires IndexOf(es, key) == -1
    ensures Assign(es, key, v) == es + [Entry(key, v)]
  {
    if es != [] {
      assert es[0].key != key && IndexOf(es[1..], key) == -1;
      AssignAppends(es[1..], key, v);
      assert [es[0]] + (es[1..] + [Entry(key, v)]) == es + [Entry(key, v)];
    }
  }

  /** A key already present keeps its slot. */
  lemma {:induction false} AssignReplaces(es: seq<Entry>, key: string, v: JsonValue)
    requires IndexOf(es, key) >= 0
    ensures Assign(es, key, v) == es[IndexOf(es, key) := Entry(key, v)]
  {
    if es[0].key == key {
      assert [Entry(key, v)] + es[1..] == es[0 := Entry(key, v)];
    } else {
      var i := IndexOf(es[1..], key);
      assert IndexOf(es, key) == i + 1;
      AssignReplaces(es[1..], key, v);
      assert [es[0]] + es[1..][i := Entry(key, v)] == es[i + 1 := Entry(key, v)];
    }
  }

  lemma AssignFinds(es: seq<Entry>, key: string, v: JsonValue)
    ensures ValueOf(Assign(es, key, v), key) == Some(v)
  {
    AssignSlot(es, key, v);
    var i := IndexOf(es, key);
    var r := Assign(es, key, v);
    if i < 0 {
      assert r[|es|].key == key;
    } else {
      assert r[i].key == key;
    }
  }

  /** Past a first entry with another key, a lookup reads the rest. */
  lemma ValueOfTail(es: seq<Entry>, key: string)
    requires es != [] && es[0].key != key
    ensures ValueOf(es, key) == ValueOf(es[1..], key)
  {
  }

  lemma {:induction false} AssignKeepsOthers(es: seq<Entry>, key: string, v: JsonValue, other: string)
    requires other != key
    ensures ValueOf(Assign(es, key, v), other) == ValueOf(es, other)
  {
    var r := Assign(es, key, v);
    if es == [] {
      ValueOfTail(r, other);
    } else if es[0].key == key {
      assert r[1..] == es[1..];
      ValueOfTail(r, other);
      ValueOfTail(es, other);
    } else if es[0].key != other {
      assert r[1..] == Assign(es[1..], key, v);
      ValueOfTail(r, other);
      ValueOfTail(es, other);
      AssignKeepsOthers(es[1..], key, v, other);
    }
  }

  /** Overwriting a present key changes neither the number of entries nor any key's slot. */
  lemma AssignExisting(es: seq<Entry>, key: string, v: JsonValue)
    requires ValueOf(es, key).Some?
    ensures |Assign(es, key, v)| == |es|
    ensures forall j :: 0 <= j < |es| ==> Assign(es, key, v)[j].key == es[j].key
  {
    AssignSlot(es, key, v);
  }

  lemma AssignKeepsDistinct(es: seq<Entry>, key: string, v: JsonValue)
    requires DistinctKeys(es)
    ensures DistinctKeys(Assign(es, key, v))
  {
    AssignSlot(es, key, v);
  }

  function EntriesOf(d: ObjData): seq<Entry>
  {
    if d.Unwritten? then [] else d.entries
  }

  /** The object after `obj[key] = v`. */
  function Put(d: ObjData, key: string, v: JsonValue): ObjData
  {
    Written(Assign(EntriesOf(d), key, v))
  }

  /**
   * Reading `obj[key]`: `Ok(None)` is the `null` of an object never written to; a written
   * object without the key fails as the dictionary indexer does.
   */
  function ObjGet(d: ObjData, key: string): Result<Option<JsonValue>>
  {
    match d
    case Unwritten => Ok(None)
    case Written(es) =>
      match ValueOf(es, key)
      case Some(v) => Ok(Some(v))
      case None => Err(KeyNotFound(key))
  }

  /** `TryGetValue`: the value under `key`, if any. */
  function TryGet(d: ObjData, key: string): Option<JsonValue>
  {
    ValueOf(EntriesOf(d), key)
  }

  lemma GetAfterPut(d: ObjData, key: string, v: JsonValue)
    ensures ObjGet(Put(d, key, v), key) == Ok(Some(v))
    ensures TryGet(Put(d, key, v), key) == Some(v)
  {
    AssignFinds(EntriesOf(d), key, v);
  }

  lemma GetAfterPutOther(d: ObjData, key: string, v: JsonValue, other: string)
    requires d.Written? && other != key
    ensures ObjGet(Put(d, key, v), other) == ObjGet(d, other)
  {
    AssignKeepsOthers(d.entries, key, v, other);
  }

  /** The text `ToString` gives one entry, with the value's own rendering. */
  function EntryText(e: Entry, render: JsonValue -> string): string
  {
    "\"" + e.key + "\"" + " : " + render(e.value)
  }

  /** The entries as `ToString` joins them: a `, ` between neighbours, none after the last. */
  function EntriesText(es: seq<Entry>, render: JsonValue -> string): string
  {
    if es == [] then ""
    else if |es| == 1 then EntryText(es[0], render)
    else EntriesText(es[..|es| - 1], render) + ", " + EntryText(es[|es| - 1], render)
  }

  /** `ToString` of an object. */
  function Render(d: ObjData, render: JsonValue -> string): string
  {
    match d
    case Unwritten => "{} "
    case Written(es) => "{" + EntriesText(es, render) + "} "
  }

  /** Read from the front, the text is the first entry, then `, ` and the text of the rest. */
  lemma {:induction false} EntriesTextFront(es: seq<Entry>, render: JsonValue -> string)
    requires |es| >= 2
    ensures EntriesText(es, render) == EntryText(es[0], render) + ", " + EntriesText(es[1..], render)
  {
    if |es| > 2 {
      EntriesTextFront(es[..|es| - 1], render);
      assert es[..|es| - 1][1..] == es[1..][..|es| - 2];
    } else {
      assert es[1..] == [es[1]];
    }
  }

  /** The rendering is `{`, then every entry in order, then `} `. */
  lemma RenderShape(es: seq<Entry>, render: JsonValue -> string)
    requires |es| > 0
    ensures Render(Written(es), render) ==
      "{" + EntryText(es[0], render) +
      (if |es| == 1 then "" else ", " + EntriesText(es[1..], render)) + "} "
  {
    if |es| >= 2 {
      EntriesTextFront(es, render);
    }
  }

  /** .NET's `Dictionary<string, JsonValue>`, enumerated in insertion order. */
  class Dictionary {
    var entries: seq<Entry>

    constructor ()
      ensures entries == []
    {
      entries := [];
    }

    method SetItem(key: string, v: JsonValue)
      modifies this
      ensures entries == Assign(old(entries), key, v)
    {
      AssignSlot(entries, key, v);
      var i := IndexOf(entries, key);
      if i < 0 {
        entries := entries + [Entry(key, v)];
      } else {
        entries := entries[i := Entry(key, v)];
      }
    }
  }

  /** `JsonObject`: a dictionary that does not exist until the first write. */
  class JsonObject {
    var valueDict: Dictionary?

    function Data(): ObjData
      reads this, valueDict
    {
      if valueDict == null then Unwritten else Written(valueDict.entries)
    }

    constructor ()
      ensures valueDict == null && Data() == Unwritten
    {
      valueDict := null;
    }

    /** The indexer's getter. */
    method Get(key: string) returns (r: Result<Option<JsonValue>>)
      ensures r == ObjGet(Data(), key)
    {
      if valueDict == null {
        return Ok(None);
      }
      var i := IndexOf(valueDict.entries, key);
      if i < 0 {
        r := Err(KeyNotFound(key));
      } else {
        r := Ok(Some(valueDict.entries[i].value));
      }
    }

    /** The indexer's setter. */
    method Set(key: string, v: JsonValue)
      modifies this, valueDict
      ensures old(valueDict) == null ==> fresh(valueDict)
      ensures old(valueDict) != null ==> valueDict == old(valueDict)
      ensures Data() == Put(old(Data()), key, v)
    {
      if valueDict == null {
        valueDict := new Dictionary();
      }
      valueDict.SetItem(key, v);
    }

    method TryGetValue(key: string) returns (found: bool, v: JsonValue)
      ensures found <==> TryGet(Data(), key).Some?
      ensures found ==> v == TryGet(Data(), key).value
    {
      found, v := false, JNull;
      if valueDict != null {
        var i := IndexOf(valueDict.entries, key);
        if i >= 0 {
          found, v := true, valueDict.entries[i].value;
        }
      }
    }

    /** `ToString`, with `render` standing for `JsonValue.ToString`. */
    method ToString(render: JsonValue -> string) returns (s: string)
      ensures s == Render(Data(), render)
    {
      if valueDict == null {
        return "{} ";
      }
      var es := valueDict.entries;
      s := "{";
      var count := 0;
      while count < |es|
        invariant 0 <= count <= |es|
        invariant s == "{" + EntriesText(es[..count], render) + (if 0 < count < |es| then ", " else "")
      {
        count := count + 1;
        assert es[..count][..count - 1] == es[..count - 1];
        s := s + EntryText(es[count - 1], render);
        if count < |es| {
          s := s + ", ";
        }
      }
      assert es[..count] == es;
      s := s + "} ";
    }
  }
}
