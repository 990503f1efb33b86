/**
 * Target shapes, decoded values and errors shared by both decoders.
 *
 * A `Shape` stands for the .NET `Type` a caller asks for. Record shapes (data classes and
 * structs) are named by an id into a `TypeTable` that lists each record's public properties and
 * fields in declaration order; the table plays the part of reflection.
 */
module Types {
  import opened Tokens
  import opened Numbers

  datatype FloatKind = Single | Double | Decimal

  /**
   * The key type of a dictionary shape: `string`, `int`, a type a `string` converts to by
   * reference (`object`, or an interface `string` implements), or any other type.
   */
  datatype KeyKind = StringKey | IntKey | ObjectKey | OtherKey

  type RecordId = nat

  datatype Shape =
    | Bool
    | Integer(ikind: IntKind)
    | Floating(fkind: FloatKind)
    | Enum(enumId: nat, under: IntKind)   // an enum and its underlying integer type
    | Str
    | Char
    | Arr(elem: Shape)
    | Lst(elem: Shape)
    | Dict(key: KeyKind, val: Shape)
    | Record(id: RecordId)
    | Object      // System.Object

  /** A dictionary key as stored: the key text, or the `int` it was parsed to. */
  datatype DictKey = SKey(s: string) | IKey(i: int)

  /**
   * A decoded .NET value. Floating-point values keep the number text they were parsed from
   * (their rounding is not modelled); `CastInt` is `(int)double.Parse(text)`.
   */
  datatype Obj =
    | Null
    | Boolean(b: bool)
    | Int(ikind: IntKind, n: int)
    | Real(fkind: FloatKind, text: string)
    | CastInt(text: string)
    | EnumVal(enumId: nat, n: int)
    | Text(s: string)
    | Character(c: char)
    | ArrayVal(elem: Shape, items: seq<Obj>)
    | ListVal(elem: Shape, items: seq<Obj>)
    | DictVal(key: KeyKind, val: Shape, entries: seq<DictEntry>)
    | RecordVal(id: RecordId, props: map<string, Obj>, fields: map<string, Obj>)
    | PlainObject                                   // a bare `new object()`

  /** One entry of a dictionary, in insertion order. */
  datatype DictEntry = DictEntry(key: DictKey, value: Obj)

  /**
   * A public property or field: its name, its type, the value a fresh instance holds, and
   * whether reflection's `SetValue` can write it. A property without a setter, or an indexer,
   * cannot be written; reflection writes any instance field, `readonly` ones included.
   */
  datatype Member = Member(name: string, shape: Shape, init: Obj, settable: bool)

  /** What reflection reveals about a record type. */
  datatype RecordInfo = RecordInfo(
    isValueType: bool,     // a struct rather than a class
    endCallback: bool,     // implements IJsonParserCallbackReceiver
    props: seq<Member>,    // public instance properties, declaration order
    fields: seq<Member>)   // public instance fields, declaration order

  type TypeTable = map<RecordId, RecordInfo>

  /** The tag of a generic JSON value (the tree's `ValueType`). */
  datatype ValueType = NullType | BooleanType | NumberType | StringType | ArrayType | ObjectType

  datatype Error =
    | Unexpected(want: TokenKind, got: TokenKind)   // the lexer was asked for a token of another kind
    | NotAValue(got: TokenKind)                     // no JSON value starts with this token
    | ArrayTrailingComma
    | ObjectTrailingComma
    | Mismatch(got: TokenKind, shape: Shape)        // no decoding rule for this token and type
    | FormatError(text: string)                     // FormatException of a Parse method
    | Overflow(ikind: IntKind, text: string)        // OverflowException of a Parse method
    | NoDescriptor(id: RecordId)                    // a record type that cannot be instantiated
    | NoConstructor(shape: Shape)                   // CreateInstance of a type without a parameterless constructor
    | DuplicateKey(key: DictKey)                    // IDictionary.Add of a present key
    | KeyTypeMismatch(keyText: string)                  // IDictionary.Add of a string key to another key type
    | NoPrecompiled(shape: Shape)                   // no generated decoder in non-reflective mode
    | KeyNotFound(name: string)                      // dictionary indexer on an absent key
    | NotSettable(name: string)                     // SetValue of a member reflection cannot write
    | ConvertMismatch(vtype: ValueType, shape: Shape)

  datatype Result<+T> = Ok(value: T) | Err(error: Error)

  /** A value read from a token stream together with the cursor position after it. */
  datatype Parsed<+T> = Parsed(value: T, next: nat)

  /** .NET's `Type.IsValueType`. */
  predicate IsValueType(s: Shape, types: TypeTable)
  {
    match s
    case Bool => true
    case Integer(_) => true
    case Floating(_) => true
    case Enum(_, _) => true
    case Char => true
    case Record(id) => id in types && types[id].isValueType
    case _ => false
  }

  /** Members by name; a later member of the same name hides an earlier one. */
  function MemberMap(ms: seq<Member>): (m: map<string, Member>)
    ensures forall i :: 0 <= i < |ms| ==> ms[i].name in m
    ensures forall name :: name in m ==> m[name].name == name
  {
    if ms == [] then map[] else MemberMap(ms[..|ms| - 1])[ms[|ms| - 1].name := ms[|ms| - 1]]
  }

  /** The member values of a freshly constructed instance. */
  function InitialValues(ms: seq<Member>): map<string, Obj>
  {
    map name | name in MemberMap(ms) :: MemberMap(ms)[name].init
  }

  /** `Activator.CreateInstance` of a record type. */
  function Instance(id: RecordId, info: RecordInfo): Obj
  {
    RecordVal(id, InitialValues(info.props), InitialValues(info.fields))
  }

  /** `default(T)` of a value type: zero, false, the empty character, a struct's fresh instance. */
  function Default(s: Shape, types: TypeTable): (r: Obj)
    requires IsValueType(s, types)
    ensures r != Obj.Null
  {
    match s
    case Bool => Boolean(false)
    case Integer(k) => Obj.Int(k, 0)
    case Floating(f) => Real(f, "0")
    case Enum(e, _) => EnumVal(e, 0)
    case Char => Character(0 as char)
    case Record(id) => Instance(id, types[id])
  }

  /**
   * `Activator.CreateInstance(type)`: a record's fresh instance, an empty dictionary or list, a
   * bare `object`, a value type's default. Arrays and `string` have no parameterless constructor,
   * and a record type the table does not describe cannot be instantiated.
   */
  function CreateInstance(s: Shape, types: TypeTable): (r: Result<Obj>)
    ensures r.Ok? <==> (s.Record? ==> s.id in types) && !s.Arr? && s != Str
    ensures r.Ok? ==> r.value != Obj.Null
    ensures r.Ok? && s.Record? ==> r.value == Instance(s.id, types[s.id])
  {
    match s
    case Record(id) => if id in types then Ok(Instance(id, types[id])) else Err(NoDescriptor(id))
    case Dict(k, v) => Ok(DictVal(k, v, []))
    case Lst(e) => Ok(ListVal(e, []))
    case Object => Ok(PlainObject)
    case Arr(_) => Err(NoConstructor(s))
    case Str => Err(NoConstructor(s))
    case _ => Ok(Default(s, types))
  }
}
