# CatJson decoding core, modelled in Dafny

CatJson is a JSON library for Unity. It turns JSON text into C# objects in two ways, and this
project models both.

- **Old generation** (`Assets/Scripts/CatJson/JsonParser.cs`):
  - `ParseJson(string)` reads the text into a generic tree of `JsonObject` and `JsonValue`.
  - `ParseJson(string, Type)` then converts that tree to a typed instance. It goes through
    `ConvertObjectByType` and `GetValueByType`.
- **New generation** (`Assets/CatJson/Runtime/Parser/JsonParser.ParseJsonByType.cs`):
  - `ParseJson(json, type, reflection)` reads the token stream straight into objects of the
    requested type.
  - The reading goes through `ParseJsonValueByType`, `ParseJsonObjectByType`,
    `ParseJsonArrayByType` and `ParseJsonObjectByDict`.
  - With `reflection` off it calls a generated decoder instead. At the end it fires the
    `OnParseJsonEnd` callback.
- **`JsonObject`** (`Assets/CatJson/Runtime/Parser/JsonObject.cs`) is the tree's object node. It
  has a lazily created dictionary, an indexer and `ToString`.

The lexer is not part of this model. It is a `Lexer` class that holds a token sequence and a
cursor; `LookNextTokenType`, `GetNextToken` and `GetNextTokenOfType` act on that cursor.

Each decoding procedure has two parts:

- A ghost function gives its meaning on `(tokens, position)`: `ObjectAt`, `ValueAt`,
  `ValueByType`, `Action` and so on.
- An imperative method drives the `Lexer` (and the reflection cache) as the source does, with
  the same loops. It is proved to agree with its function through `TreeParser.Agrees`:
  - the same success or failure;
  - the same error;
  - the same value;
  - the cursor left just after what was read.

The properties are then proved about the functions:

- a round trip from trees to tokens and back;
- the token rules of `ParseJsonValueByType`;
- which members a record's callback touches;
- distinct dictionary keys;
- that every decoded value conforms to the type it was decoded for.

Reflection is replaced by a `TypeTable`. It lists each record type's public properties and
fields, in declaration order, together with their initial values and whether reflection can
write them (a property without a setter, or an indexer, cannot be written). A `Shape` stands for a .NET
`Type`. A decoded value is an `Obj`.

Files (one module each):

| file | module | contents |
|---|---|---|
| tokens.dfy | Tokens | token kinds, `KindAt` |
| numbers.dfy | Numbers | `int.Parse`-style integer parsing, per-kind ranges |
| types.dfy | Types | shapes, objects, record tables, errors, `Result`, `Parsed` |
| lexing.dfy | Lexing | the `Lexer` class |
| json_tree.dfy | JsonTree | the tree, `JsonObject` and its dictionary |
| tree_parser.dfy | TreeParser | old-generation tree parser |
| tree_round_trip.dfy | TreeRoundTrip | tokenizing a tree and reading it back; the trailing-comma finding |
| tree_converter.dfy | TreeConverter | `GetValueByType`, `ConvertObjectByType` |
| typed_decoder.dfy | TypedDecoder | new-generation decoder |
| decoder_properties.dfy | DecoderProperties | the token rules, member targeting, dictionaries, the entry point |
| conformance.dfy | Conformance | decoded values have the requested type |

## Model

| member | source | states |
|---|---|---|
| Lexing.Lexer.constructor | Assets/Scripts/CatJson/JsonParser.cs:13 | A new lexer holds the given tokens with its cursor at 0. |
| Lexing.Lexer.SetJsonText | Assets/Scripts/CatJson/JsonParser.cs:22 | Loading a text replaces the tokens and rewinds the cursor to 0. |
| Lexing.Lexer.GetNextToken | Assets/CatJson/Runtime/Parser/JsonParser.ParseJsonByType.cs:89 | Returns the token at the cursor and advances past it. At the end it returns an end-of-input token and stays put. |
| Lexing.Lexer.GetNextTokenOfType | Assets/Scripts/CatJson/JsonParser.cs:32 | Succeeds if and only if the token at the cursor has the demanded kind, and then advances by one. Otherwise it fails with `Unexpected(wanted, found)` and does not move. |
| Numbers.ParseInteger | Assets/CatJson/Runtime/Parser/JsonParser.ParseJsonByType.cs:114 | `int.Parse` of the text: defined exactly when the text is an optional `-` or `+` followed by at least one decimal digit. A `-` gives a result of at most 0; otherwise the result is at least 0. |
| Numbers.ParseAs | Assets/CatJson/Runtime/Parser/JsonParser.ParseJsonByType.cs:108-152 | `byte/int/long/sbyte/short/uint/ulong/ushort.Parse`: a value exactly when the syntax is right and the number is in the kind's range. Bad syntax gives a format error; anything else is an overflow. |
| Numbers.IntegerRoundTrip | Assets/CatJson/Runtime/Parser/JsonParser.ParseJsonByType.cs:114 | Parsing the decimal text of any integer gives that integer back. |
| Numbers.ParseAsText | Assets/CatJson/Runtime/Parser/JsonParser.ParseJsonByType.cs:108-152 | Parsing the text of `n` as an integer kind gives `n` when `n` is in range, else an overflow. |
| Numbers.Truncate | Assets/CatJson/Runtime/Parser/JsonParser.ParseJsonByType.cs:164-165 | `Enum.ToObject`'s conversion to the underlying type: the result lies in the kind's range, differs from the input by a multiple of 2 to the kind's width, and is the input itself when that is in range. |
| Numbers.TruncateExamples | Assets/CatJson/Runtime/Parser/JsonParser.ParseJsonByType.cs:164-165 | 300 as a `byte` is 44, -1 as a `uint` is 4294967295, 200 as an `sbyte` is -56. |
| Numbers.ByteRange | Assets/CatJson/Runtime/Parser/JsonParser.ParseJsonByType.cs:108-111 | `byte.Parse`: "200" is 200; "300" and "-1" overflow. |
| Types.MemberMap | Assets/CatJson/Runtime/Parser/JsonParser.ParseJsonByType.cs:259-263 | The name-to-member table that reflection builds lists every member under its own name. |
| Types.Default | Assets/CatJson/Runtime/Parser/JsonParser.ParseJsonByType.cs:257 | The default instance of a value type is never null. |
| JsonTree.IndexOf | Assets/CatJson/Runtime/Parser/JsonObject.cs:22 | The dictionary's slot for a key: the first entry with that key, or -1 exactly when no entry has it. |
| JsonTree.AssignSlot | Assets/CatJson/Runtime/Parser/JsonObject.cs:31 | `valueDict[key] = value` replaces the key's entry in place, or appends a new entry when the key is absent. |
| JsonTree.AssignAppends | Assets/CatJson/Runtime/Parser/JsonObject.cs:31 | Writing an absent key appends it after the existing entries. |
| JsonTree.AssignReplaces | Assets/CatJson/Runtime/Parser/JsonObject.cs:31 | Writing a present key changes only its own slot. |
| JsonTree.AssignFinds | Assets/CatJson/Runtime/Parser/JsonObject.cs:31 | After a write, the key reads back the value written. |
| JsonTree.AssignKeepsOthers | Assets/CatJson/Runtime/Parser/JsonObject.cs:31 | A write leaves every other key's value unchanged. |
| JsonTree.AssignExisting | Assets/CatJson/Runtime/Parser/JsonObject.cs:31 | Overwriting a present key keeps the count and the keys in order. |
| JsonTree.AssignKeepsDistinct | Assets/CatJson/Runtime/Parser/JsonObject.cs:31 | A write keeps the keys distinct. |
| JsonTree.GetAfterPut | Assets/CatJson/Runtime/Parser/JsonObject.cs:15-32 | Get after set: the indexer returns the value just stored, whether or not the dictionary existed before. |
| JsonTree.GetAfterPutOther | Assets/CatJson/Runtime/Parser/JsonObject.cs:15-32 | Setting one key does not change what the indexer gives for another. |
| JsonTree.EntriesTextFront | Assets/CatJson/Runtime/Parser/JsonObject.cs:43-51 | In `ToString`, entries are separated by `", "`, with none after the last. |
| JsonTree.RenderShape | Assets/CatJson/Runtime/Parser/JsonObject.cs:35-54 | A written object renders as `{` + `"k" : v` entries joined by `, ` + `} `. |
| JsonTree.Dictionary.constructor | Assets/CatJson/Runtime/Parser/JsonObject.cs:29 | A new dictionary is empty. |
| JsonTree.Dictionary.SetItem | Assets/CatJson/Runtime/Parser/JsonObject.cs:31 | The dictionary store: the new entries are the old ones with the key assigned. |
| JsonTree.JsonObject.constructor | Assets/CatJson/Runtime/Parser/JsonObject.cs:9-11 | A new object has no dictionary; it reads as unwritten. |
| JsonTree.JsonObject.Get | Assets/CatJson/Runtime/Parser/JsonObject.cs:15-23 | The getter: null while no dictionary exists, the value of a present key, and `KeyNotFound` for an absent key of a written object. |
| JsonTree.JsonObject.Set | Assets/CatJson/Runtime/Parser/JsonObject.cs:25-32 | The setter: the first write creates a fresh dictionary and later writes reuse it. The contents become the old ones with the key assigned. |
| JsonTree.JsonObject.TryGetValue | Assets/Scripts/CatJson/JsonParser.cs:199 | Found exactly when the object is written and holds the key, and then gives its value. |
| JsonTree.JsonObject.ToString | Assets/CatJson/Runtime/Parser/JsonObject.cs:35-54 | `"{} "` for an object never written to, otherwise the rendering above. Each entry's value is printed by a rendering function that the caller supplies. |
| TreeParser.ParseJson | Assets/Scripts/CatJson/JsonParser.cs:20-24 | Loads the tokens and reads one object from position 0. It gives the object's contents and cursor as `ObjectAt`, or its error. |
| TreeParser.ParseJsonObject | Assets/Scripts/CatJson/JsonParser.cs:29-74 | Demands `{`, creates a fresh `JsonObject` and fills it by the member loop. It agrees with `ObjectAt`. |
| TreeParser.ParseEntries | Assets/Scripts/CatJson/JsonParser.cs:36-70 | The `while` loop over members plus the closing `}`. It agrees with the loop's function, and the object's contents are what the function reads. |
| TreeParser.ParseObjectEntry | Assets/Scripts/CatJson/JsonParser.cs:38-65 | One pass of the loop: key, colon, value, `obj[key] = value`, then the comma check. Each outcome matches the loop function at that point. |
| TreeParser.ParseJsonValue | Assets/Scripts/CatJson/JsonParser.cs:79-123 | The switch on the next token. `null`/`true`/`false`/number/string each take one token; `[` reads an array and `{` an object; any other token fails. Agrees with `ValueAt`. |
| TreeParser.ParseJsonArray | Assets/Scripts/CatJson/JsonParser.cs:129-168 | Demands `[` and then reads the elements. Agrees with `ArrayAt`. |
| TreeParser.ParseElements | Assets/Scripts/CatJson/JsonParser.cs:136-167 | The element loop: one element per value, in order. A comma before `]` is rejected. Agrees with `ElementsFrom`. |
| TreeRoundTrip.ValueRoundTrip | Assets/Scripts/CatJson/JsonParser.cs:79-123 | Reading the tokens of any well-formed value gives that value back and stops right after them. |
| TreeRoundTrip.ArrayRoundTrip | Assets/Scripts/CatJson/JsonParser.cs:129-168 | The tokens of an array read back as the same elements, in the same order. |
| TreeRoundTrip.ElementsRoundTrip | Assets/Scripts/CatJson/JsonParser.cs:136-160 | A comma-separated element list is read into exactly its elements, appended in order. |
| TreeRoundTrip.ObjectRoundTrip | Assets/Scripts/CatJson/JsonParser.cs:29-74 | The tokens of an object with distinct keys read back as the same entries, in the same order. |
| TreeRoundTrip.MembersRoundTrip | Assets/Scripts/CatJson/JsonParser.cs:36-67 | A member list is stored key by key through the indexer, in order. |
| TreeRoundTrip.EntryRoundTrip | Assets/Scripts/CatJson/JsonParser.cs:38-47 | Key, colon and value read back as the same entry. |
| TreeRoundTrip.PutAllFresh | Assets/Scripts/CatJson/JsonParser.cs:49 | Storing distinct keys one after another appends them in order. |
| TreeRoundTrip.ValueWellFormed | Assets/Scripts/CatJson/JsonParser.cs:79-123 | Any value the parser reads, from any tokens, is well-formed. |
| TreeRoundTrip.ObjectWellFormed | Assets/Scripts/CatJson/JsonParser.cs:29-74 | An object the parser reads holds distinct keys and, if written to, at least one entry. |
| TreeRoundTrip.ElementsWellFormed | Assets/Scripts/CatJson/JsonParser.cs:136-167 | The element loop only appends well-formed values. |
| TreeRoundTrip.MembersWellFormed | Assets/Scripts/CatJson/JsonParser.cs:36-67 | The member loop keeps the object well-formed. |
| TreeRoundTrip.PutWellFormed | Assets/Scripts/CatJson/JsonParser.cs:49 | Storing a well-formed value through the indexer keeps the object well-formed. |
| TreeRoundTrip.ObjectCommaBracketExample | Assets/Scripts/CatJson/JsonParser.cs:52-59 | `{"a":1,]` fails with the trailing-comma error as written; with the check looking for `}` it fails demanding a key. |
| TreeRoundTrip.ParseJsonRoundTrip | Assets/Scripts/CatJson/JsonParser.cs:20-24 | `ParseJson` of the tokens of a well-formed object gives that object and consumes all of them. |
| TreeRoundTrip.TrailingCommaAccepted | Assets/Scripts/CatJson/JsonParser.cs:52-59 | As written, the comma check looks for `]`, so `{ …members…, }` is accepted as if the comma were absent. |
| TreeRoundTrip.TrailingCommaRejected | Assets/Scripts/CatJson/JsonParser.cs:52-59 | With the check looking for `}`, the same tokens fail with the trailing-comma error. |
| TreeRoundTrip.TrailingCommaExample | Assets/Scripts/CatJson/JsonParser.cs:52-59 | `{"a":1,}` gives `{"a":1}` as written and the trailing-comma error as intended. |
| TreeRoundTrip.ArrayTrailingCommaExample | Assets/Scripts/CatJson/JsonParser.cs:146-153 | `[1,]` is refused. |
| TreeRoundTrip.TopLevelObjectOnly | Assets/Scripts/CatJson/JsonParser.cs:20-32 | The top level accepts only an object: any other first token fails with `Unexpected(LeftBrace, …)`. |
| TreeRoundTrip.MissingCommaExample | Assets/Scripts/CatJson/JsonParser.cs:52-70 | Without a comma the loop ends, so `{"a":1 "b":2}` fails on the missing `}`. |
| TreeRoundTrip.LastWriteWinsExample | Assets/Scripts/CatJson/JsonParser.cs:49 | A repeated key keeps one entry holding the last value. |
| TreeConverter.Stored | Assets/Scripts/CatJson/JsonParser.cs:203 | A reflective store keeps every non-null value. It leaves null exactly when the value is null and the slot is not a value type; otherwise null becomes the default. |
| TreeConverter.ConvertAll | Assets/Scripts/CatJson/JsonParser.cs:264-298 | An array or list conversion has as many elements as the JSON array. |
| TreeConverter.ConvertAllElementwise | Assets/Scripts/CatJson/JsonParser.cs:264-298 | It succeeds exactly when every element converts. Element `i` is then the stored conversion of JSON element `i`. |
| TreeConverter.ConvertAllFirstError | Assets/Scripts/CatJson/JsonParser.cs:273-278 | The first element that fails decides the error. |
| TreeConverter.ConvertAllPrefixErr | Assets/Scripts/CatJson/JsonParser.cs:273-278 | A failure on a prefix is the failure of the whole array. |
| TreeConverter.ConvertAllStep | Assets/Scripts/CatJson/JsonParser.cs:273-278 | One more pass of the loop stores one more converted element, or fails. |
| TreeConverter.SetMembersAbsent | Assets/Scripts/CatJson/JsonParser.cs:197-216 | A member whose name the object lacks keeps its initial value. |
| TreeConverter.SetMembersOthers | Assets/Scripts/CatJson/JsonParser.cs:197-216 | Slots that are not among the members iterated over are untouched. |
| TreeConverter.SetMembersPresent | Assets/Scripts/CatJson/JsonParser.cs:197-216 | A member whose name the object holds receives that value, converted to the member's type and stored; that member is one `SetValue` can write. |
| TreeConverter.SetMembersNotSettable | Assets/Scripts/CatJson/JsonParser.cs:203-214 | A get-only property (or indexer) that the object names makes the conversion fail, as `SetValue` throws. |
| TreeConverter.GetOnlyExample | Assets/Scripts/CatJson/JsonParser.cs:208-216 | `{"Total":3}` into a record whose `Total` has no setter fails with `NotSettable("Total")`. |
| TreeConverter.SetMembersIgnoresOthers | Assets/Scripts/CatJson/JsonParser.cs:197-216 | Object keys that name no member do not affect the result. |
| TreeConverter.GetValueByType | Assets/Scripts/CatJson/JsonParser.cs:224-308 | The converter's branches, in the source's order; an unmatched pair is an error. Equals `Convert`. |
| TreeConverter.ConvertArray | Assets/Scripts/CatJson/JsonParser.cs:264-280 | `Array.CreateInstance(elem, length)` filled by index. It equals the element-wise conversion. |
| TreeConverter.SetElement | Assets/Scripts/CatJson/JsonParser.cs:273-278 | One array slot: the converted element is stored, or the conversion's error ends the loop. |
| TreeConverter.ConvertList | Assets/Scripts/CatJson/JsonParser.cs:282-298 | `List.Add` in a loop. It equals the element-wise conversion. |
| TreeConverter.ConvertObjectByType | Assets/Scripts/CatJson/JsonParser.cs:190-219 | Creates an instance with `Activator.CreateInstance`, then sets its fields, then its properties. It equals `ConvertObject`. |
| TreeConverter.ObjectToCollectionExample | Assets/Scripts/CatJson/JsonParser.cs:190-192 | An object literal into a dictionary, a list or `object` gives an empty new instance; into an array it fails, as an array type has no parameterless constructor. |
| Types.CreateInstance | Assets/Scripts/CatJson/JsonParser.cs:192 | `Activator.CreateInstance`: succeeds exactly for described records, dictionaries, lists, `object` and value types; never gives null; a record gets its initial values. |
| Conformance.CreateInstanceConforms | Assets/Scripts/CatJson/JsonParser.cs:192 | A created instance conforms to the type it was created for. |
| TreeConverter.AssignMembers | Assets/Scripts/CatJson/JsonParser.cs:197-216 | The `foreach` over members via `TryGetValue`. It equals `SetMembers`. |
| TreeConverter.ParseJsonAs | Assets/Scripts/CatJson/JsonParser.cs:181-185 | `ParseJson(json, type)`: the tree read from the tokens, then converted. |
| TypedDecoder.NumberAs | Assets/CatJson/Runtime/Parser/JsonParser.ParseJsonByType.cs:105-168 | A number token decodes only into an integer, floating or enum type. An enum gets the `int.Parse` value kept to its underlying type. |
| TypedDecoder.StringAs | Assets/CatJson/Runtime/Parser/JsonParser.ParseJsonByType.cs:170-180 | A string token decodes only into `string`, or into `char` when it is exactly one UTF-16 code unit (one scalar below U+10000; a surrogate pair is two units). |
| TypedDecoder.DictKeyOf | Assets/CatJson/Runtime/Parser/JsonParser.ParseJsonByType.cs:351-359 | String keys stay as they are. `int` keys go through `int.Parse` and fail exactly when it fails. `object`-like keys (a type a `string` converts to) take the name as a string key; any other key type is refused, as `IDictionary.Add` refuses a `string` key of the wrong type. |
| TypedDecoder.DictAdd | Assets/CatJson/Runtime/Parser/JsonParser.ParseJsonByType.cs:353-358 | `IDictionary.Add` succeeds exactly when the key is absent, and then appends the entry. |
| TypedDecoder.ReflectionCache.Prepare | Assets/CatJson/Runtime/Parser/JsonParser.ParseJsonByType.cs:259-263 | Builds the reflection tables only when neither cache has the type; otherwise the caches are unchanged. Afterwards both hold the type's tables. |
| TypedDecoder.ReflectionCache.AddToReflectionMap | Assets/CatJson/Runtime/Parser/JsonParser.ParseJsonByType.cs:262 | Records the type's property and field tables. |
| TypedDecoder.ParseJson | Assets/CatJson/Runtime/Parser/JsonParser.ParseJsonByType.cs:27-70 | Decodes as `Decode` says. The callback fires exactly when the result is a non-null instance of a receiver type. |
| TypedDecoder.ParseJsonValueByType | Assets/CatJson/Runtime/Parser/JsonParser.ParseJsonByType.cs:76-250 | The extension table first, then the switch on the token kind. Agrees with `ValueByType`. |
| TypedDecoder.NewInstance | Assets/CatJson/Runtime/Parser/JsonParser.ParseJsonByType.cs:255-263 | `CreateInstance(type)` as the member loop's target: it fails exactly when `Types.CreateInstance` fails, and only a record gets members to set. |
| TypedDecoder.ParseJsonObjectByType | Assets/CatJson/Runtime/Parser/JsonParser.ParseJsonByType.cs:255-295 | Creates the instance, prepares the cache and reads the members into it. Agrees with `ObjectByType`. |
| TypedDecoder.ParseJsonObjectByDict | Assets/CatJson/Runtime/Parser/JsonParser.ParseJsonByType.cs:344-364 | Creates a fresh dictionary and adds each member. Agrees with `ObjectByDict`. |
| TypedDecoder.ParseJsonObjectProcedure | Assets/CatJson/Runtime/Parser/JsonParser.ParseJsonByType.cs:265-291 | Demands `{`, then runs the member loop with the callback. Agrees with `MembersAt`. |
| TypedDecoder.ParseMembers | Assets/CatJson/Runtime/Parser/JsonParser.ParseJsonByType.cs:265-291 | The member loop plus the closing `}`. Agrees with `MembersFrom`. |
| TypedDecoder.CloseObject | Assets/CatJson/Runtime/Parser/JsonParser.ParseJsonByType.cs:265 | Demands the closing `}`. |
| TypedDecoder.ParseMember | Assets/CatJson/Runtime/Parser/JsonParser.ParseJsonByType.cs:265-291 | One member: key, colon, callback, then the comma check. Each outcome matches the loop function. |
| TypedDecoder.NextMember | Assets/CatJson/Runtime/Parser/JsonParser.ParseJsonByType.cs:265 | After a member: a comma continues unless `]` follows, as in the tree parser's loop (so `,}` is let through), and `}` ends the loop. |
| TypedDecoder.MemberCallback | Assets/CatJson/Runtime/Parser/JsonParser.ParseJsonByType.cs:265-291 | The member callback: the property of that name first, else the field, else the value is read and dropped. Agrees with `Action`. |
| TypedDecoder.ParseJsonArrayByType | Assets/CatJson/Runtime/Parser/JsonParser.ParseJsonByType.cs:300-339 | Elements go into a list, which is returned for `List<T>` or copied into an array. Agrees with `ArrayByType`. |
| TypedDecoder.CopyToArray | Assets/CatJson/Runtime/Parser/JsonParser.ParseJsonByType.cs:327-333 | The copy into the array has the list's length and order. |
| TypedDecoder.ParseJsonArrayProcedure | Assets/CatJson/Runtime/Parser/JsonParser.ParseJsonByType.cs:314-318 | Demands `[`, then runs the element loop. Agrees with `ElementsAt`. |
| TypedDecoder.ParseElements | Assets/CatJson/Runtime/Parser/JsonParser.ParseJsonByType.cs:314-318 | The element loop plus the closing `]`. Agrees with `ElementsFrom`. |
| TypedDecoder.CloseArray | Assets/CatJson/Runtime/Parser/JsonParser.ParseJsonByType.cs:314 | Demands the closing `]`. |
| TypedDecoder.ParseElement | Assets/CatJson/Runtime/Parser/JsonParser.ParseJsonByType.cs:314-318 | One element decoded to the element type and added, then the comma check. |
| DecoderProperties.ExtensionFirst | Assets/CatJson/Runtime/Parser/JsonParser.ParseJsonByType.cs:78-84 | A type in the extension table is decoded by its custom decoder, whatever the token. |
| DecoderProperties.NullToken | Assets/CatJson/Runtime/Parser/JsonParser.ParseJsonByType.cs:88-94 | `null` gives null (one token) exactly for types that are not value types. |
| DecoderProperties.BoolToken | Assets/CatJson/Runtime/Parser/JsonParser.ParseJsonByType.cs:96-103 | `true`/`false` decode exactly into `bool`, to the matching value. |
| DecoderProperties.IntegerToken | Assets/CatJson/Runtime/Parser/JsonParser.ParseJsonByType.cs:105-152 | A number into an integer kind succeeds exactly when the text parses and is in range. Bad syntax gives a format error and out of range an overflow. |
| DecoderProperties.IntegerRoundTrip | Assets/CatJson/Runtime/Parser/JsonParser.ParseJsonByType.cs:105-152 | Decoding the text of `n` into a kind gives `n` when in range, else an overflow. |
| DecoderProperties.ByteExample | Assets/CatJson/Runtime/Parser/JsonParser.ParseJsonByType.cs:108-111 | 200 decodes into `byte`; 300 overflows. |
| DecoderProperties.EnumAnyInt | Assets/CatJson/Runtime/Parser/JsonParser.ParseJsonByType.cs:162-167 | Any `int` decodes into any enum, kept to the low bits of the enum's underlying type, with no check that the value is declared; text outside `int`'s range overflows. |
| DecoderProperties.EnumUnderlyingExample | Assets/CatJson/Runtime/Parser/JsonParser.ParseJsonByType.cs:162-167 | `300` into a `byte`-backed enum is 44; `-1` into a `uint`-backed enum is 4294967295. |
| DecoderProperties.CharToken | Assets/CatJson/Runtime/Parser/JsonParser.ParseJsonByType.cs:176-179 | A string decodes into `char` exactly when it is one UTF-16 code unit, as `char.Parse` demands; otherwise it is a format error. |
| DecoderProperties.SurrogatePairExample | Assets/CatJson/Runtime/Parser/JsonParser.ParseJsonByType.cs:176-179 | `"😀"` (U+1F600, two UTF-16 units) into `char` is a format error; `"é"` gives the character. |
| DecoderProperties.StringToken | Assets/CatJson/Runtime/Parser/JsonParser.ParseJsonByType.cs:170-180 | A string token decodes only into `string` or `char`; into `string` it is the token's text. |
| DecoderProperties.StructuralToken | Assets/CatJson/Runtime/Parser/JsonParser.ParseJsonByType.cs:247-249 | `:`, `,`, `}`, `]` or the end where a value is due is an error. |
| DecoderProperties.BracketNeedsCollection | Assets/CatJson/Runtime/Parser/JsonParser.ParseJsonByType.cs:182-221 | `[` into a type that is neither an array nor a list is an error. |
| DecoderProperties.ArrayListAgree | Assets/CatJson/Runtime/Parser/JsonParser.ParseJsonByType.cs:300-339 | An array and a list of the same element type read the same elements and stop at the same place. |
| DecoderProperties.ElementsExtend | Assets/CatJson/Runtime/Parser/JsonParser.ParseJsonByType.cs:314-318 | The element loop only appends: what was read before stays as the prefix. |
| DecoderProperties.ActionTargets | Assets/CatJson/Runtime/Parser/JsonParser.ParseJsonByType.cs:265-291 | The callback writes the property of the key if there is one (the field is untouched), else the field. Otherwise the instance is unchanged; no other member is written. A member `SetValue` cannot write fails after its value is read. |
| DecoderProperties.ActionKeeps | Assets/CatJson/Runtime/Parser/JsonParser.ParseJsonByType.cs:265-291 | A callback for one key leaves members of other names as they were. |
| DecoderProperties.MembersKeep | Assets/CatJson/Runtime/Parser/JsonParser.ParseJsonByType.cs:265-291 | A member that no key of this object, from here to its end, names survives the rest of the loop. Keys of nested objects do not count. |
| DecoderProperties.AfterKeep | Assets/CatJson/Runtime/Parser/JsonParser.ParseJsonByType.cs:265-291 | The same, from the point just after a member. |
| DecoderProperties.UnmentionedKeepsInit | Assets/CatJson/Runtime/Parser/JsonParser.ParseJsonByType.cs:255-295 | A property or field that no key of the object names keeps the value a fresh instance gives it. |
| DecoderProperties.ObjectKeysExample | Assets/CatJson/Runtime/Parser/JsonParser.ParseJsonByType.cs:265-291 | The keys read by an object's loop are its own: in `{"x":{"b":1}}` they are `{"x"}`, not `b`. |
| DecoderProperties.AddKeepsDistinct | Assets/CatJson/Runtime/Parser/JsonParser.ParseJsonByType.cs:353-358 | A successful `Add` keeps the dictionary's keys distinct. |
| DecoderProperties.MembersDistinct | Assets/CatJson/Runtime/Parser/JsonParser.ParseJsonByType.cs:348-361 | The member loop keeps the dictionary's keys distinct. |
| DecoderProperties.AfterDistinct | Assets/CatJson/Runtime/Parser/JsonParser.ParseJsonByType.cs:348-361 | The same, from the point just after a member. |
| DecoderProperties.DictResultDistinct | Assets/CatJson/Runtime/Parser/JsonParser.ParseJsonByType.cs:344-364 | A decoded dictionary has distinct keys. |
| DecoderProperties.DuplicateKeySteps | Assets/CatJson/Runtime/Parser/JsonParser.ParseJsonByType.cs:348-361 | Two members whose keys convert to the same dictionary key fail with `DuplicateKey`. |
| DecoderProperties.DuplicateStringKeyExample | Assets/CatJson/Runtime/Parser/JsonParser.ParseJsonByType.cs:353 | `{"a":1,"a":2}` into `Dictionary<string,int>` fails on the second `a`. |
| DecoderProperties.DuplicateIntKeyExample | Assets/CatJson/Runtime/Parser/JsonParser.ParseJsonByType.cs:358 | `{"01":1,"1":2}` into `Dictionary<int,int>` fails, because both keys parse to 1. |
| DecoderProperties.ObjectKeyExample | Assets/CatJson/Runtime/Parser/JsonParser.ParseJsonByType.cs:351-353 | `{"x":true}` into a dictionary keyed by `object` holds the string key `x`; into a key type a `string` is not, `Add` fails. |
| DecoderProperties.IntKeyFormatExample | Assets/CatJson/Runtime/Parser/JsonParser.ParseJsonByType.cs:358 | A key that is not an integer, added to an `int`-keyed dictionary, is a format error. |
| DecoderProperties.NoReflectionUsesPrecompiled | Assets/CatJson/Runtime/Parser/JsonParser.ParseJsonByType.cs:50-61 | Without reflection, the result is the generated decoder's, or an error when the type has none. |
| DecoderProperties.ReflectionRecord | Assets/CatJson/Runtime/Parser/JsonParser.ParseJsonByType.cs:44-48 | With reflection, a non-collection type is read as an object literal. |
| Conformance.InstanceConforms | Assets/CatJson/Runtime/Parser/JsonParser.ParseJsonByType.cs:257 | A fresh instance conforms to its record type. |
| Conformance.DefaultConforms | Assets/CatJson/Runtime/Parser/JsonParser.ParseJsonByType.cs:90-94 | A value type's default conforms to it. |
| Conformance.ValueConforms | Assets/CatJson/Runtime/Parser/JsonParser.ParseJsonByType.cs:76-250 | Every value `ParseJsonValueByType` returns conforms to the type asked for. |
| Conformance.ArrayConforms | Assets/CatJson/Runtime/Parser/JsonParser.ParseJsonByType.cs:300-339 | A decoded array or list conforms: its elements conform to the element type. |
| Conformance.ElementsConform | Assets/CatJson/Runtime/Parser/JsonParser.ParseJsonByType.cs:314-318 | The element loop only adds conforming elements. |
| Conformance.AfterElementConforms | Assets/CatJson/Runtime/Parser/JsonParser.ParseJsonByType.cs:314-318 | The same, from the point just after an element. |
| Conformance.ObjectConforms | Assets/CatJson/Runtime/Parser/JsonParser.ParseJsonByType.cs:255-295 | A decoded instance conforms to its type. |
| Conformance.DictConforms | Assets/CatJson/Runtime/Parser/JsonParser.ParseJsonByType.cs:344-364 | A decoded dictionary conforms: its keys have the key type and its values the value type. |
| Conformance.MembersAtConform | Assets/CatJson/Runtime/Parser/JsonParser.ParseJsonByType.cs:265-291 | The member procedure keeps the instance or dictionary conforming. |
| Conformance.MembersConform | Assets/CatJson/Runtime/Parser/JsonParser.ParseJsonByType.cs:265-291 | The member loop keeps the instance or dictionary conforming. |
| Conformance.AfterMemberConforms | Assets/CatJson/Runtime/Parser/JsonParser.ParseJsonByType.cs:265-291 | The same, from the point just after a member. |
| Conformance.ActionConforms | Assets/CatJson/Runtime/Parser/JsonParser.ParseJsonByType.cs:265-291 | One callback keeps the instance or dictionary conforming. |
| Conformance.StoreConforms | Assets/CatJson/Runtime/Parser/JsonParser.ParseJsonByType.cs:273-284 | `SetValue` of a conforming value into a property or field keeps the instance conforming. |
| Conformance.DecodeConforms | Assets/CatJson/Runtime/Parser/JsonParser.ParseJsonByType.cs:33-48 | With reflection, `ParseJson` returns a value of the requested type. |
| Conformance.MemberMapFinds | Assets/CatJson/Runtime/Parser/JsonParser.ParseJsonByType.cs:259-263 | With distinct member names, the reflection table finds each member under its name. |
| Conformance.StoredConforms | Assets/Scripts/CatJson/JsonParser.cs:203 | A store of null or of a conforming value leaves a conforming value in the slot. |
| Conformance.ConvertConforms | Assets/Scripts/CatJson/JsonParser.cs:224-308 | `GetValueByType` returns null or a value of the requested type. |
| Conformance.ConvertAllConforms | Assets/Scripts/CatJson/JsonParser.cs:264-298 | Converted array and list elements conform to the element type. |
| Conformance.ConvertObjectConforms | Assets/Scripts/CatJson/JsonParser.cs:190-219 | `ConvertObjectByType` returns an instance of the requested type. |
| Conformance.ConvertRecordConforms | Assets/Scripts/CatJson/JsonParser.cs:190-219 | The instance built from an object's members conforms to its record type. |
| Conformance.InitialConform | Assets/Scripts/CatJson/JsonParser.cs:192 | A fresh instance's property and field values conform. |
| Conformance.UpdateConforms | Assets/Scripts/CatJson/JsonParser.cs:203 | Setting a member to a conforming value keeps all members conforming. |
| Conformance.SetMembersConform | Assets/Scripts/CatJson/JsonParser.cs:197-216 | The member-setting loop keeps all members conforming. |
| Conformance.ParseAsConforms | Assets/Scripts/CatJson/JsonParser.cs:181-185 | `ParseJson(json, type)` returns a value of the requested type. |

## Left out

- Floating-point numbers are symbolic. `float`, `double` and `decimal` values keep their number
  text, and the old generation's `(int)` cast of a `double` is the opaque `CastInt(text)`.
  Rounding and `double.Parse` syntax are not modelled.
- Reflection is replaced by a `TypeTable` of record descriptions: public properties and fields
  in declaration order with their initial values and whether `SetValue` can write them, whether the type is a struct, and whether it
  implements `IJsonParserCallbackReceiver`.
  - `Util.IsArrayOrListType`, `Util.IsDictionaryType` and `CheckType` are read off the shape.
  - `CreateInstance` and `Activator.CreateInstance` give the table's initial instance, or the
    value type's default.
  - A type that cannot be instantiated is an error.
- The ILRuntime (`FUCK_LUA`) branches are not modelled.
- The contents of the `GenJsonCodes` and extension tables are not modelled; they are parameters
  of the model.
  - Custom decoders are functions on `(tokens, cursor)` that never move the cursor backwards.
  - Generated decoders are functions on the whole token sequence. Their effect on the shared
    lexer is not modelled.
- The lexer's scanning of characters into tokens is not part of this model. Decoding starts
  from a token sequence, and tokens carry their text with escapes already resolved.
- `int.Parse` and the other integer `Parse` methods accept only an optional sign and decimal
  digits here. Leading and trailing white space and culture-specific formats are not modelled.
- Concurrency is not modelled. In the source the lexer and the reflection caches are static
  and shared between threads; here they are objects passed in.
- `ToJson`, the serializing direction, is not modelled.
- `JsonValue.ToString` is not modelled. `JsonTree.JsonObject.ToString` takes the value's
  rendering as a function parameter.
- `ParseJsonObjectProcedure` and `ParseJsonArrayProcedure` are not part of the source files
  modelled here. Their loops are assumed to be those of the old-generation `ParseJsonObject` and
  `ParseJsonArray`, with two exceptions:
  - the check after an object's comma is the tree parser's, which compares with `]`;
  - a key that names no member is skipped by reading its value with the tree parser's
    `ParseJsonValue`.
- `OnParseJsonEnd` is modelled as the boolean `notified` result of `TypedDecoder.ParseJson`.
  What a receiver does in its callback is not modelled.
- `TryGetValue` is not in the `JsonObject` source modelled here. It is modelled by what
  `ConvertObjectByType` needs: on an object never written to it finds nothing.
- TreeConverter.ConvertObject: a collection's own public members (`Count`, `Capacity`, `Keys`,
  the indexer) are not members here. An object literal into a dictionary or list ignores keys
  that name them, where the source would set `Capacity` or fail setting a get-only property.
- TypedDecoder.NewInstance: for a type that is not a record, the reflection tables that
  `AddToReflectionMap` would build from the type's own public members are not modelled; every
  key is then read and dropped.
- Conformance.ConvertConforms: states "null or conforming" rather than "conforming". The old
  generation returns null for a JSON `null` into any type except `object`, including value
  types; only the store into a member or element turns it into the default.
- Conformance.ValueConforms and the other `Conformance` lemmas assume a well-formed type table
  (initial values conform to their members' types) and decoders in the tables that return
  values of their shape.
- Conformance.ConvertObjectConforms and the other conversion lemmas also assume distinct member
  names within each record.

## Findings

| source | as written | input that shows it | evidently intended | confidence | as-written member | corrected member |
|---|---|---|---|---|---|---|
| Assets/Scripts/CatJson/JsonParser.cs:56 | After a member's comma, the object loop checks whether the next token is `RightBracket` (`]`). | `{"a":1,}` parses as `{"a":1}`: the comma passes the check, and the loop head sees `}` and ends normally. | Check for `RightBrace` (`}`) and throw the "object cannot end with a comma" exception, as the array loop does for `]`. | not executed | TreeRoundTrip.TrailingCommaAccepted | TreeRoundTrip.TrailingCommaRejected |

The corrected check is `TreeParser.IntendedGuard`, which is `}`. The parser functions take the
check as a parameter, so the round-trip and well-formedness lemmas hold with either check. The
tree parser's methods and the new-generation decoder (`TypedDecoder.Guard`) keep the check as
written, `TreeParser.WrittenGuard`, which is `]`.
