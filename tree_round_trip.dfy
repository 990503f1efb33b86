/**
 * What the tree parser accepts, read back from the tokens of a value: parsing the tokens of any
 * well-formed tree gives that tree back, every tree the parser builds is well-formed, and the
 * comparison after an object's comma lets a trailing comma through.
 */
module TreeRoundTrip {
  import opened Tokens
  import opened Types
  import opened JsonTree
  import opened TreeParser

  /**
   * A tree the parser can produce: every object that holds a dictionary holds at least one
   * entry and no key twice.
   */
  predicate WellFormed(v: JsonValue)
    decreases v, 1
  {
    match v
    case JArray(items) => AllWellFormed(items)
    case JObject(Written(es)) => |es| > 0 && DistinctKeys(es) && ValuesWellFormed(es)
    case _ => true
  }

  predicate AllWellFormed(items: seq<JsonValue>)
    decreases items, 0
  {
    items == [] || (WellFormed(items[0]) && AllWellFormed(items[1..]))
  }

  predicate ValuesWellFormed(es: seq<Entry>)
    decreases es, 0
  {
    es == [] || (WellFormed(es[0].value) && ValuesWellFormed(es[1..]))
  }

  /** The kind of the token a value starts with. */
  function FirstKind(v: JsonValue): TokenKind
  {
    match v
    case JNull => TokenKind.Null
    case JBool(b) => if b then True else False
    case JNumber(_) => Number
    case JString(_) => String
    case JArray(_) => LeftBracket
    case JObject(_) => LeftBrace
  }

  /** The tokens of a value, in the order the parser reads them. */
  function Tokenize(v: JsonValue): (ts: seq<Token>)
    ensures |ts| > 0 && ts[0].kind == FirstKind(v)
    decreases v, 1
  {
    match v
    case JNull => [Token(TokenKind.Null, "null")]
    case JBool(b) => if b then [Token(True, "true")] else [Token(False, "false")]
    case JNumber(text) => [Token(Number, text)]
    case JString(s) => [Token(String, s)]
    case JArray(items) => [Token(LeftBracket, "[")] + ElementTokens(items) + [Token(RightBracket, "]")]
    case JObject(Unwritten) => [Token(LeftBrace, "{"), Token(RightBrace, "}")]
    case JObject(Written(es)) => [Token(LeftBrace, "{")] + MemberTokens(es) + [Token(RightBrace, "}")]
  }

  /** Array elements, a comma between neighbours. */
  function ElementTokens(items: seq<JsonValue>): (ts: seq<Token>)
    ensures items != [] ==> |ts| > 0 && ts[0].kind == FirstKind(items[0])
    ensures items == [] ==> ts == []
    decreases items, 0
  {
    if items == [] then []
    else if |items| == 1 then Tokenize(items[0])
    else Tokenize(items[0]) + [Token(Comma, ",")] + ElementTokens(items[1..])
  }

  /** The tokens of one member: the key, a colon, the value. */
  function EntryTokens(e: Entry): (ts: seq<Token>)
    ensures |ts| > 2 && ts[0] == Token(String, e.key)
    decreases e, 0
  {
    [Token(String, e.key), Token(Colon, ":")] + Tokenize(e.value)
  }

  /** Object members, a comma between neighbours. */
  function MemberTokens(es: seq<Entry>): (ts: seq<Token>)
    ensures es != [] ==> |ts| > 0 && ts[0] == Token(String, es[0].key)
    decreases es, 0
  {
    if es == [] then []
    else if |es| == 1 then EntryTokens(es[0])
    else EntryTokens(es[0]) + [Token(Comma, ",")] + MemberTokens(es[1..])
  }

  /** `s` occurs in `toks` at position `p`. */
  ghost predicate At(toks: seq<Token>, p: nat, s: seq<Token>)
    ensures At(toks, p, s) ==> p + |s| <= |toks|
    decreases |s|
  {
    if s == [] then p <= |toks|
    else p < |toks| && toks[p] == s[0] && At(toks, p + 1, s[1..])
  }

  lemma {:induction false} AtSplit(toks: seq<Token>, p: nat, a: seq<Token>, b: seq<Token>)
    requires At(toks, p, a + b)
    ensures At(toks, p, a) && At(toks, p + |a|, b)
    decreases |a|
  {
    if a == [] {
      assert a + b == b;
    } else {
      assert (a + b)[1..] == a[1..] + b;
      AtSplit(toks, p + 1, a[1..], b);
    }
  }

  lemma {:induction false} AtKind(toks: seq<Token>, p: nat, s: seq<Token>, i: nat)
    requires At(toks, p, s) && i < |s|
    ensures p + i < |toks| && toks[p + i] == s[i] && KindAt(toks, p + i) == s[i].kind
    decreases i
  {
    if i > 0 {
      AtKind(toks, p + 1, s[1..], i - 1);
    }
  }

  lemma {:induction false} AtWhole(toks: seq<Token>, p: nat)
    requires p <= |toks|
    ensures At(toks, p, toks[p..])
    decreases |toks| - p
  {
    if p < |toks| {
      assert toks[p..][1..] == toks[p + 1..];
      AtWhole(toks, p + 1);
    }
  }

  /** The objects after writing the entries `es` one after the other. */
  function PutAll(acc: ObjData, es: seq<Entry>): (r: ObjData)
    ensures es != [] ==> r.Written?
    decreases |es|
  {
    if es == [] then acc else PutAll(Put(acc, es[0].key, es[0].value), es[1..])
  }

  /** The first of a run of distinct keys is not among the keys before it. */
  lemma FreshHead(pre: seq<Entry>, es: seq<Entry>)
    requires es != [] && DistinctKeys(pre + es)
    ensures IndexOf(pre, es[0].key) == -1
  {
    forall j | 0 <= j < |pre|
      ensures pre[j].key != es[0].key
    {
      assert (pre + es)[j] == pre[j] && (pre + es)[|pre|] == es[0];
    }
  }

  /** Writing a key not yet present appends it. */
  lemma AssignFresh(pre: seq<Entry>, e: Entry)
    requires IndexOf(pre, e.key) == -1
    ensures Assign(pre, e.key, e.value) == pre + [e]
  {
    AssignAppends(pre, e.key, e.value);
  }

  /** Writing the first of a run of fresh keys appends it. */
  lemma PutFresh(acc: ObjData, es: seq<Entry>)
    requires es != [] && DistinctKeys(EntriesOf(acc) + es)
    ensures Put(acc, es[0].key, es[0].value) == Written(EntriesOf(acc) + [es[0]])
  {
    FreshHead(EntriesOf(acc), es);
    AssignFresh(EntriesOf(acc), es[0]);
  }

  /** Moving the first fresh key over to the written ones keeps the keys distinct. */
  lemma DistinctShift(pre: seq<Entry>, es: seq<Entry>)
    requires es != [] && DistinctKeys(pre + es)
    ensures pre + [es[0]] + es[1..] == pre + es && DistinctKeys(pre + [es[0]] + es[1..])
  {
    assert pre + [es[0]] + es[1..] == pre + es;
  }

  /** Writing keys not yet present appends them in order. */
  lemma {:induction false} PutAllFresh(acc: ObjData, es: seq<Entry>)
    requires es != [] && DistinctKeys(EntriesOf(acc) + es)
    ensures PutAll(acc, es) == Written(EntriesOf(acc) + es)
    decreases |es|
  {
    var pre := EntriesOf(acc);
    PutFresh(acc, es);
    var next := Put(acc, es[0].key, es[0].value);
    if |es| > 1 {
      DistinctShift(pre, es);
      PutAllFresh(next, es[1..]);
    } else {
      assert pre + [es[0]] == pre + es;
    }
  }

  /** A value that is not `]` at the head of the array loop is read and handed on. */
  lemma ElementsStep(toks: seq<Token>, p: nat, guard: TokenKind, acc: seq<JsonValue>, v: JsonValue, q: nat)
    requires p <= |toks| && KindAt(toks, p) != RightBracket && ValueAt(toks, p, guard) == Ok(Parsed(v, q))
    ensures ElementsFrom(toks, p, guard, acc) == AfterElement(toks, q, guard, acc + [v])
  {
  }

  /** A comma not followed by `]` goes back to the head of the array loop. */
  lemma ElementsComma(toks: seq<Token>, q: nat, guard: TokenKind, acc: seq<JsonValue>)
    requires q < |toks| && KindAt(toks, q) == Comma && KindAt(toks, q + 1) != RightBracket
    ensures AfterElement(toks, q, guard, acc) == ElementsFrom(toks, q + 1, guard, acc)
  {
  }

  /** A member at the head of the object loop is read and stored. */
  lemma MembersStep(toks: seq<Token>, p: nat, guard: TokenKind, acc: ObjData, e: Entry, q: nat)
    requires p <= |toks| && KindAt(toks, p) != RightBrace && MemberAt(toks, p, guard) == Ok(Parsed(e, q))
    ensures MembersFrom(toks, p, guard, acc) == AfterMember(toks, q, guard, Put(acc, e.key, e.value))
  {
  }

  /** A comma not followed by `guard` goes back to the head of the object loop. */
  lemma MembersComma(toks: seq<Token>, q: nat, guard: TokenKind, acc: ObjData)
    requires q < |toks| && KindAt(toks, q) == Comma && KindAt(toks, q + 1) != guard
    ensures AfterMember(toks, q, guard, acc) == MembersFrom(toks, q + 1, guard, acc)
  {
  }

  /** The tokens of a list of two or more, cut after the first item and after its comma. */
  lemma SplitList(toks: seq<Token>, p: nat, first: seq<Token>, rest: seq<Token>)
    requires At(toks, p, first + [Token(Comma, ",")] + rest) && |first| > 0 && |rest| > 0
    ensures At(toks, p, first) && At(toks, p + |first| + 1, rest)
    ensures KindAt(toks, p + |first|) == Comma && KindAt(toks, p + |first| + 1) == rest[0].kind
  {
    AtSplit(toks, p, first + [Token(Comma, ",")], rest);
    AtSplit(toks, p, first, [Token(Comma, ",")]);
    AtKind(toks, p + |first|, [Token(Comma, ",")], 0);
    AtKind(toks, p + |first| + 1, rest, 0);
  }

  /** Where the first element of an element list lies. */
  lemma ElementsHead(items: seq<JsonValue>, toks: seq<Token>, p: nat)
    requires items != [] && At(toks, p, ElementTokens(items))
    ensures At(toks, p, Tokenize(items[0])) && KindAt(toks, p) != RightBracket
  {
    if |items| > 1 {
      SplitList(toks, p, Tokenize(items[0]), ElementTokens(items[1..]));
    }
    ValueNotClose(items[0], toks, p);
  }

  /** A value's tokens never start with `]`. */
  lemma ValueNotClose(v: JsonValue, toks: seq<Token>, p: nat)
    requires At(toks, p, Tokenize(v))
    ensures KindAt(toks, p) != RightBracket
  {
    AtKind(toks, p, Tokenize(v), 0);
  }

  /** Where the rest of an element list of two or more lies. */
  lemma ElementsTail(items: seq<JsonValue>, toks: seq<Token>, p: nat)
    requires |items| > 1 && At(toks, p, ElementTokens(items))
    ensures At(toks, p + |Tokenize(items[0])| + 1, ElementTokens(items[1..]))
    ensures KindAt(toks, p + |Tokenize(items[0])|) == Comma
    ensures KindAt(toks, p + |Tokenize(items[0])| + 1) != RightBracket
    ensures |ElementTokens(items)| == |Tokenize(items[0])| + 1 + |ElementTokens(items[1..])|
  {
    SplitList(toks, p, Tokenize(items[0]), ElementTokens(items[1..]));
    ElementsHead(items[1..], toks, p + |Tokenize(items[0])| + 1);
  }

  /** The last element of a list ends the list. */
  lemma ElementsLast(v: JsonValue, toks: seq<Token>, p: nat, guard: TokenKind, acc: seq<JsonValue>)
    requires At(toks, p, Tokenize(v))
    requires ValueAt(toks, p, guard) == Ok(Parsed(v, p + |Tokenize(v)|))
    ensures ElementsFrom(toks, p, guard, acc) == AfterElement(toks, p + |Tokenize(v)|, guard, acc + [v])
  {
    ValueNotClose(v, toks, p);
    ElementsStep(toks, p, guard, acc, v, p + |Tokenize(v)|);
  }

  /** An element, a comma and the rest of the list read as the whole list. */
  lemma ElementsCons(items: seq<JsonValue>, toks: seq<Token>, p: nat, q: nat, end: nat, guard: TokenKind, acc: seq<JsonValue>)
    requires |items| > 1 && p <= q < |toks| && end <= |toks|
    requires KindAt(toks, p) != RightBracket && KindAt(toks, q) == Comma && KindAt(toks, q + 1) != RightBracket
    requires ValueAt(toks, p, guard) == Ok(Parsed(items[0], q))
    requires ElementsFrom(toks, q + 1, guard, acc + [items[0]]) == AfterElement(toks, end, guard, acc + [items[0]] + items[1..])
    ensures ElementsFrom(toks, p, guard, acc) == AfterElement(toks, end, guard, acc + items)
  {
    ElementsStep(toks, p, guard, acc, items[0], q);
    ElementsComma(toks, q, guard, acc + [items[0]]);
    assert acc + [items[0]] + items[1..] == acc + items;
  }

  /** An element list, read from its first element, leaves the loop just after its last one. */
  lemma {:induction false} ElementsRoundTrip(items: seq<JsonValue>, toks: seq<Token>, p: nat, guard: TokenKind, acc: seq<JsonValue>)
    requires items != [] && AllWellFormed(items)
    requires At(toks, p, ElementTokens(items)) && guard != String
    ensures ElementsFrom(toks, p, guard, acc) == AfterElement(toks, p + |ElementTokens(items)|, guard, acc + items)
    decreases items, 1
  {
    if |items| == 1 {
      ElementsHead(items, toks, p);
      ValueRoundTrip(items[0], toks, p, guard);
      ElementsLast(items[0], toks, p, guard, acc);
      assert ElementTokens(items) == Tokenize(items[0]);
      assert acc + [items[0]] == acc + items;
    } else {
      ElementsMore(items, toks, p, guard, acc);
    }
  }

  /** The inductive step of `ElementsRoundTrip`: a first element followed by more. */
  lemma {:induction false} ElementsMore(items: seq<JsonValue>, toks: seq<Token>, p: nat, guard: TokenKind, acc: seq<JsonValue>)
    requires |items| > 1 && AllWellFormed(items)
    requires At(toks, p, ElementTokens(items)) && guard != String
    ensures ElementsFrom(toks, p, guard, acc) == AfterElement(toks, p + |ElementTokens(items)|, guard, acc + items)
    decreases items, 0
  {
    ElementsHead(items, toks, p);
    ElementsTail(items, toks, p);
    ValueRoundTrip(items[0], toks, p, guard);
    var q := p + |Tokenize(items[0])|;
    var rest := items[1..];
    var end := q + 1 + |ElementTokens(rest)|;
    ElementsRoundTrip(rest, toks, q + 1, guard, acc + [items[0]]);
    ElementsCons(items, toks, p, q, end, guard, acc);
  }

  /** Where the first member of a member list lies. */
  lemma MembersHead(es: seq<Entry>, toks: seq<Token>, p: nat)
    requires es != [] && At(toks, p, MemberTokens(es))
    ensures At(toks, p, EntryTokens(es[0])) && KindAt(toks, p) == String
  {
    var first := EntryTokens(es[0]);
    if |es| > 1 {
      SplitList(toks, p, first, MemberTokens(es[1..]));
    }
    AtKind(toks, p, first, 0);
  }

  /** Where the rest of a member list of two or more lies. */
  lemma MembersTail(es: seq<Entry>, toks: seq<Token>, p: nat)
    requires |es| > 1 && At(toks, p, MemberTokens(es))
    ensures At(toks, p + |EntryTokens(es[0])| + 1, MemberTokens(es[1..]))
    ensures KindAt(toks, p + |EntryTokens(es[0])|) == Comma
    ensures KindAt(toks, p + |EntryTokens(es[0])| + 1) == String
    ensures |MemberTokens(es)| == |EntryTokens(es[0])| + 1 + |MemberTokens(es[1..])|
  {
    SplitList(toks, p, EntryTokens(es[0]), MemberTokens(es[1..]));
    MembersHead(es[1..], toks, p + |EntryTokens(es[0])| + 1);
  }

  /** The last member of a list ends the list. */
  lemma MembersLast(e: Entry, toks: seq<Token>, p: nat, guard: TokenKind, acc: ObjData)
    requires At(toks, p, EntryTokens(e))
    requires MemberAt(toks, p, guard) == Ok(Parsed(e, p + |EntryTokens(e)|))
    ensures MembersFrom(toks, p, guard, acc) == AfterMember(toks, p + |EntryTokens(e)|, guard, Put(acc, e.key, e.value))
  {
    AtKind(toks, p, EntryTokens(e), 0);
    MembersStep(toks, p, guard, acc, e, p + |EntryTokens(e)|);
  }

  /** A member, a comma and the rest of the list read as the whole list. */
  lemma MembersCons(es: seq<Entry>, toks: seq<Token>, p: nat, q: nat, end: nat, guard: TokenKind, acc: ObjData, next: ObjData)
    requires |es| > 1 && p <= q < |toks| && end <= |toks| && guard != String
    requires KindAt(toks, p) == String && KindAt(toks, q) == Comma && KindAt(toks, q + 1) == String
    requires MemberAt(toks, p, guard) == Ok(Parsed(es[0], q)) && next == Put(acc, es[0].key, es[0].value)
    requires MembersFrom(toks, q + 1, guard, next) == AfterMember(toks, end, guard, PutAll(next, es[1..]))
    ensures MembersFrom(toks, p, guard, acc) == AfterMember(toks, end, guard, PutAll(acc, es))
  {
    MembersStep(toks, p, guard, acc, es[0], q);
    MembersComma(toks, q, guard, next);
  }

  /** A member list, read from its first key, leaves the loop just after its last value. */
  lemma {:induction false} MembersRoundTrip(es: seq<Entry>, toks: seq<Token>, p: nat, guard: TokenKind, acc: ObjData)
    requires es != [] && ValuesWellFormed(es)
    requires At(toks, p, MemberTokens(es)) && guard != String
    ensures MembersFrom(toks, p, guard, acc) == AfterMember(toks, p + |MemberTokens(es)|, guard, PutAll(acc, es))
    decreases es, 1
  {
    if |es| == 1 {
      MembersHead(es, toks, p);
      EntryRoundTrip(es[0], toks, p, guard);
      MembersLast(es[0], toks, p, guard, acc);
      assert MemberTokens(es) == EntryTokens(es[0]);
      assert PutAll(acc, es) == Put(acc, es[0].key, es[0].value);
    } else {
      MembersMore(es, toks, p, guard, acc);
    }
  }

  /** The inductive step of `MembersRoundTrip`: a first member followed by more. */
  lemma {:induction false} MembersMore(es: seq<Entry>, toks: seq<Token>, p: nat, guard: TokenKind, acc: ObjData)
    requires |es| > 1 && ValuesWellFormed(es)
    requires At(toks, p, MemberTokens(es)) && guard != String
    ensures MembersFrom(toks, p, guard, acc) == AfterMember(toks, p + |MemberTokens(es)|, guard, PutAll(acc, es))
    decreases es, 0
  {
    MembersHead(es, toks, p);
    MembersTail(es, toks, p);
    EntryRoundTrip(es[0], toks, p, guard);
    var q := p + |EntryTokens(es[0])|;
    var next := Put(acc, es[0].key, es[0].value);
    var rest := es[1..];
    var end := q + 1 + |MemberTokens(rest)|;
    MembersRoundTrip(rest, toks, q + 1, guard, next);
    MembersCons(es, toks, p, q, end, guard, acc, next);
  }

  lemma {:induction false} EntryRoundTrip(e: Entry, toks: seq<Token>, p: nat, guard: TokenKind)
    requires WellFormed(e.value) && At(toks, p, EntryTokens(e)) && guard != String
    ensures MemberAt(toks, p, guard) == Ok(Parsed(e, p + |EntryTokens(e)|))
    decreases e, 1
  {
    var head := [Token(String, e.key), Token(Colon, ":")];
    AtSplit(toks, p, head, Tokenize(e.value));
    AtKind(toks, p, head, 0);
    AtKind(toks, p, head, 1);
    ValueRoundTrip(e.value, toks, p + 2, guard);
  }

  /** Where the elements of a non-empty array lie between its brackets. */
  lemma ArraySplit(items: seq<JsonValue>, toks: seq<Token>, p: nat)
    requires items != [] && At(toks, p, Tokenize(JArray(items)))
    ensures At(toks, p + 1, ElementTokens(items))
    ensures KindAt(toks, p) == LeftBracket && KindAt(toks, p + 1 + |ElementTokens(items)|) == RightBracket
    ensures |Tokenize(JArray(items))| == |ElementTokens(items)| + 2
  {
    var open, inner, close := [Token(LeftBracket, "[")], ElementTokens(items), [Token(RightBracket, "]")];
    AtSplit(toks, p, open + inner, close);
    AtSplit(toks, p, open, inner);
    AtKind(toks, p, open, 0);
    AtKind(toks, p + 1 + |inner|, close, 0);
  }

  /** An array whose element loop ends at `]` is read whole. */
  lemma ArrayClose(items: seq<JsonValue>, toks: seq<Token>, p: nat, guard: TokenKind, end: nat)
    requires end < |toks| && KindAt(toks, p) == LeftBracket && KindAt(toks, end) == RightBracket
    requires ElementsFrom(toks, p + 1, guard, []) == AfterElement(toks, end, guard, [] + items)
    ensures ArrayAt(toks, p, guard) == Ok(Parsed(items, end + 1))
  {
    assert [] + items == items;
  }

  /** The tokens of an array give its elements back. */
  lemma {:induction false} ArrayRoundTrip(items: seq<JsonValue>, toks: seq<Token>, p: nat, guard: TokenKind)
    requires WellFormed(JArray(items)) && At(toks, p, Tokenize(JArray(items))) && guard != String
    ensures ArrayAt(toks, p, guard) == Ok(Parsed(items, p + |Tokenize(JArray(items))|))
    decreases JArray(items), 1
  {
    if items == [] {
      EmptyArray(toks, p, guard);
    } else {
      ArraySplit(items, toks, p);
      ElementsRoundTrip(items, toks, p + 1, guard, []);
      ArrayClose(items, toks, p, guard, p + 1 + |ElementTokens(items)|);
    }
  }

  lemma EmptyArray(toks: seq<Token>, p: nat, guard: TokenKind)
    requires At(toks, p, Tokenize(JArray([])))
    ensures ArrayAt(toks, p, guard) == Ok(Parsed([], p + |Tokenize(JArray([]))|))
  {
    var ts := Tokenize(JArray([]));
    assert ts == [Token(LeftBracket, "[")] + [] + [Token(RightBracket, "]")];
    AtKind(toks, p, ts, 0);
    AtKind(toks, p, ts, 1);
  }

  lemma EmptyObject(toks: seq<Token>, p: nat, guard: TokenKind)
    requires At(toks, p, Tokenize(JObject(Unwritten)))
    ensures ObjectAt(toks, p, guard) == Ok(Parsed(Unwritten, p + |Tokenize(JObject(Unwritten))|))
  {
    var ts := Tokenize(JObject(Unwritten));
    AtKind(toks, p, ts, 0);
    AtKind(toks, p, ts, 1);
    assert MembersFrom(toks, p + 1, guard, Unwritten) == Ok(Parsed(Unwritten, p + 2));
  }

  /** Where the members of an object with a dictionary lie between its braces. */
  lemma ObjectSplit(es: seq<Entry>, toks: seq<Token>, p: nat)
    requires At(toks, p, Tokenize(JObject(Written(es))))
    ensures At(toks, p + 1, MemberTokens(es))
    ensures KindAt(toks, p) == LeftBrace && KindAt(toks, p + 1 + |MemberTokens(es)|) == RightBrace
    ensures |Tokenize(JObject(Written(es)))| == |MemberTokens(es)| + 2
  {
    var open, inner, close := [Token(LeftBrace, "{")], MemberTokens(es), [Token(RightBrace, "}")];
    AtSplit(toks, p, open + inner, close);
    AtSplit(toks, p, open, inner);
    AtKind(toks, p, open, 0);
    AtKind(toks, p + 1 + |inner|, close, 0);
  }

  /** An object whose member loop ends at `}` is read whole; distinct keys come back in order. */
  lemma ObjectClose(es: seq<Entry>, toks: seq<Token>, p: nat, guard: TokenKind, end: nat)
    requires es != [] && DistinctKeys(es)
    requires end < |toks| && KindAt(toks, p) == LeftBrace && KindAt(toks, end) == RightBrace
    requires MembersFrom(toks, p + 1, guard, Unwritten) == AfterMember(toks, end, guard, PutAll(Unwritten, es))
    ensures ObjectAt(toks, p, guard) == Ok(Parsed(Written(es), end + 1))
  {
    assert EntriesOf(Unwritten) + es == es;
    PutAllFresh(Unwritten, es);
  }

  /** The tokens of an object give its contents back. */
  lemma {:induction false} ObjectRoundTrip(d: ObjData, toks: seq<Token>, p: nat, guard: TokenKind)
    requires WellFormed(JObject(d)) && At(toks, p, Tokenize(JObject(d))) && guard != String
    ensures ObjectAt(toks, p, guard) == Ok(Parsed(d, p + |Tokenize(JObject(d))|))
    decreases JObject(d), 1
  {
    match d
    case Unwritten =>
      EmptyObject(toks, p, guard);
    case Written(es) =>
      ObjectSplit(es, toks, p);
      MembersRoundTrip(es, toks, p + 1, guard, Unwritten);
      ObjectClose(es, toks, p, guard, p + 1 + |MemberTokens(es)|);
  }

  /**
   * Decoding the tokens of a well-formed value gives the value back and stops right after
   * them, whatever follows.
   */
  lemma {:induction false} ValueRoundTrip(v: JsonValue, toks: seq<Token>, p: nat, guard: TokenKind)
    requires WellFormed(v) && At(toks, p, Tokenize(v)) && guard != String
    ensures ValueAt(toks, p, guard) == Ok(Parsed(v, p + |Tokenize(v)|))
    decreases v, 2
  {
    if v.JArray? {
      ArrayRoundTrip(v.items, toks, p, guard);
      ArrayValue(v.items, toks, p, guard, p + |Tokenize(v)|);
    } else if v.JObject? {
      ObjectRoundTrip(v.obj, toks, p, guard);
      ObjectValue(v.obj, toks, p, guard, p + |Tokenize(v)|);
    } else {
      ScalarRoundTrip(v, toks, p, guard);
    }
  }

  /** An array read by the array rule is the value read there. */
  lemma ArrayValue(items: seq<JsonValue>, toks: seq<Token>, p: nat, guard: TokenKind, next: nat)
    requires At(toks, p, Tokenize(JArray(items))) && ArrayAt(toks, p, guard) == Ok(Parsed(items, next))
    ensures ValueAt(toks, p, guard) == Ok(Parsed(JArray(items), next))
  {
    AtKind(toks, p, Tokenize(JArray(items)), 0);
  }

  /** An object read by the object rule is the value read there. */
  lemma ObjectValue(d: ObjData, toks: seq<Token>, p: nat, guard: TokenKind, next: nat)
    requires At(toks, p, Tokenize(JObject(d))) && ObjectAt(toks, p, guard) == Ok(Parsed(d, next))
    ensures ValueAt(toks, p, guard) == Ok(Parsed(JObject(d), next))
  {
    AtKind(toks, p, Tokenize(JObject(d)), 0);
  }

  /** A literal, number or string is its one token. */
  lemma ScalarRoundTrip(v: JsonValue, toks: seq<Token>, p: nat, guard: TokenKind)
    requires !v.JArray? && !v.JObject? && WellFormed(v) && At(toks, p, Tokenize(v))
    ensures ValueAt(toks, p, guard) == Ok(Parsed(v, p + |Tokenize(v)|))
  {
    AtKind(toks, p, Tokenize(v), 0);
  }

  /** `ParseJson(string)` on the tokens of a well-formed object gives that object. */
  lemma ParseJsonRoundTrip(d: ObjData)
    requires WellFormed(JObject(d))
    ensures ObjectAt(Tokenize(JObject(d)), 0, WrittenGuard) == Ok(Parsed(d, |Tokenize(JObject(d))|))
  {
    var toks := Tokenize(JObject(d));
    AtWhole(toks, 0);
    assert toks[0..] == toks;
    ObjectRoundTrip(d, toks, 0, WrittenGuard);
  }

  // ---------------------------------------------------------------------------------------------
  // Every tree the parser builds is well-formed.

  /** A value the parser reads is well-formed, whatever the tokens. */
  lemma {:induction false} ValueWellFormed(toks: seq<Token>, p: nat, guard: TokenKind)
    requires p <= |toks|
    ensures ValueAt(toks, p, guard).Ok? ==> WellFormed(ValueAt(toks, p, guard).value.value)
    decreases |toks| - p, 1
  {
    if KindAt(toks, p) == LeftBracket {
      ArrayWellFormed(toks, p, guard);
    } else if KindAt(toks, p) == LeftBrace {
      ObjectWellFormed(toks, p, guard);
    }
  }

  lemma {:induction false} ArrayWellFormed(toks: seq<Token>, p: nat, guard: TokenKind)
    requires p <= |toks|
    ensures ArrayAt(toks, p, guard).Ok? ==> AllWellFormed(ArrayAt(toks, p, guard).value.value)
    decreases |toks| - p, 0
  {
    if KindAt(toks, p) == LeftBracket {
      ElementsWellFormed(toks, p + 1, guard, []);
    }
  }

  lemma {:induction false} ElementsWellFormed(toks: seq<Token>, p: nat, guard: TokenKind, acc: seq<JsonValue>)
    requires p <= |toks| && AllWellFormed(acc)
    ensures ElementsFrom(toks, p, guard, acc).Ok? ==> AllWellFormed(ElementsFrom(toks, p, guard, acc).value.value)
    decreases |toks| - p, 2
  {
    if KindAt(toks, p) != RightBracket {
      ValueWellFormed(toks, p, guard);
      match ValueAt(toks, p, guard)
      case Err(_) =>
      case Ok(Parsed(v, q)) =>
        AppendWellFormed(acc, v);
        AfterElementWellFormed(toks, q, guard, acc + [v]);
    }
  }

  lemma {:induction false} AfterElementWellFormed(toks: seq<Token>, q: nat, guard: TokenKind, acc: seq<JsonValue>)
    requires q <= |toks| && AllWellFormed(acc)
    ensures AfterElement(toks, q, guard, acc).Ok? ==> AllWellFormed(AfterElement(toks, q, guard, acc).value.value)
    decreases |toks| - q, 3
  {
    if KindAt(toks, q) == Comma && KindAt(toks, q + 1) != RightBracket {
      ElementsWellFormed(toks, q + 1, guard, acc);
    }
  }

  /** An object the parser reads holds distinct keys and, once written to, at least one entry. */
  lemma {:induction false} ObjectWellFormed(toks: seq<Token>, p: nat, guard: TokenKind)
    requires p <= |toks|
    ensures ObjectAt(toks, p, guard).Ok? ==> WellFormed(JObject(ObjectAt(toks, p, guard).value.value))
    decreases |toks| - p, 0
  {
    if KindAt(toks, p) == LeftBrace {
      MembersWellFormed(toks, p + 1, guard, Unwritten);
    }
  }

  lemma {:induction false} MembersWellFormed(toks: seq<Token>, p: nat, guard: TokenKind, acc: ObjData)
    requires p <= |toks| && WellFormed(JObject(acc))
    ensures MembersFrom(toks, p, guard, acc).Ok? ==> WellFormed(JObject(MembersFrom(toks, p, guard, acc).value.value))
    decreases |toks| - p, 2
  {
    if KindAt(toks, p) != RightBrace {
      MemberWellFormed(toks, p, guard);
      match MemberAt(toks, p, guard)
      case Err(_) =>
      case Ok(Parsed(e, q)) =>
        PutWellFormed(acc, e.key, e.value);
        AfterMemberWellFormed(toks, q, guard, Put(acc, e.key, e.value));
    }
  }

  lemma {:induction false} MemberWellFormed(toks: seq<Token>, p: nat, guard: TokenKind)
    requires p <= |toks|
    ensures MemberAt(toks, p, guard).Ok? ==> WellFormed(MemberAt(toks, p, guard).value.value.value)
    decreases |toks| - p, 1
  {
    if KindAt(toks, p) == String && KindAt(toks, p + 1) == Colon {
      ValueWellFormed(toks, p + 2, guard);
    }
  }

  lemma {:induction false} AfterMemberWellFormed(toks: seq<Token>, q: nat, guard: TokenKind, acc: ObjData)
    requires q <= |toks| && WellFormed(JObject(acc))
    ensures AfterMember(toks, q, guard, acc).Ok? ==> WellFormed(JObject(AfterMember(toks, q, guard, acc).value.value))
    decreases |toks| - q, 3
  {
    if KindAt(toks, q) == Comma && KindAt(toks, q + 1) != guard {
      MembersWellFormed(toks, q + 1, guard, acc);
    }
  }

  /** Appending a well-formed element keeps an array well-formed. */
  lemma {:induction false} AppendWellFormed(acc: seq<JsonValue>, v: JsonValue)
    requires AllWellFormed(acc) && WellFormed(v)
    ensures AllWellFormed(acc + [v])
  {
    if acc != [] {
      assert (acc + [v])[1..] == acc[1..] + [v];
      AppendWellFormed(acc[1..], v);
    }
  }

  /** Writing a well-formed value keeps an object well-formed. */
  lemma PutWellFormed(acc: ObjData, key: string, v: JsonValue)
    requires WellFormed(JObject(acc)) && WellFormed(v)
    ensures WellFormed(JObject(Put(acc, key, v)))
  {
    AssignKeepsDistinct(EntriesOf(acc), key, v);
    AssignValuesWellFormed(EntriesOf(acc), key, v);
  }

  lemma {:induction false} AssignValuesWellFormed(es: seq<Entry>, key: string, v: JsonValue)
    requires ValuesWellFormed(es) && WellFormed(v)
    ensures |Assign(es, key, v)| > 0 && ValuesWellFormed(Assign(es, key, v))
  {
    if es != [] && es[0].key != key {
      AssignValuesWellFormed(es[1..], key, v);
      assert Assign(es, key, v)[1..] == Assign(es[1..], key, v);
    } else if es != [] {
      assert Assign(es, key, v)[1..] == es[1..];
    }
  }

  /** `{"a":1,]`: with `]` as the check after an object's comma, the loop stops at the comma. */
  lemma ObjectCommaBracketExample()
    ensures var toks := [Token(LeftBrace, "{"), Token(String, "a"), Token(Colon, ":"), Token(Number, "1"),
                         Token(Comma, ","), Token(RightBracket, "]")];
      && ObjectAt(toks, 0, WrittenGuard) == Err(ObjectTrailingComma)
      && ObjectAt(toks, 0, IntendedGuard) == Err(Unexpected(String, RightBracket))
  {
  }

  /** The tokens of an object whose last member is followed by a comma. */
  function TrailingCommaObject(es: seq<Entry>): seq<Token>
  {
    [Token(LeftBrace, "{")] + MemberTokens(es) + [Token(Comma, ","), Token(RightBrace, "}")]
  }

  /** Where the members, the comma and the brace of such an object lie. */
  lemma TrailingCommaLayout(es: seq<Entry>)
    ensures var toks := TrailingCommaObject(es);
      var q := 1 + |MemberTokens(es)|;
      && q + 2 == |toks| && At(toks, 1, MemberTokens(es)) && KindAt(toks, 0) == LeftBrace
      && KindAt(toks, q) == Comma && KindAt(toks, q + 1) == RightBrace
  {
    var toks := TrailingCommaObject(es);
    var open, inner, tail := [Token(LeftBrace, "{")], MemberTokens(es), [Token(Comma, ","), Token(RightBrace, "}")];
    AtWhole(toks, 0);
    assert toks[0..] == open + inner + tail;
    AtSplit(toks, 0, open + inner, tail);
    AtSplit(toks, 0, open, inner);
    AtKind(toks, 0, open, 0);
    AtKind(toks, 1 + |inner|, tail, 0);
    AtKind(toks, 1 + |inner|, tail, 1);
  }

  /** Up to the trailing comma, such an object reads like the object without it. */
  lemma TrailingCommaPrefix(es: seq<Entry>, guard: TokenKind)
    requires WellFormed(JObject(Written(es))) && guard != String
    ensures var toks := TrailingCommaObject(es);
      var q := 1 + |MemberTokens(es)|;
      && q + 2 == |toks|
      && KindAt(toks, q) == Comma && KindAt(toks, q + 1) == RightBrace
      && ObjectAt(toks, 0, guard) == AfterMember(toks, q, guard, Written(es))
  {
    var toks := TrailingCommaObject(es);
    TrailingCommaLayout(es);
    MembersHead(es, toks, 1);
    MembersRoundTrip(es, toks, 1, guard, Unwritten);
    assert EntriesOf(Unwritten) + es == es;
    PutAllFresh(Unwritten, es);
  }

  /**
   * As written, the check after an object's comma looks for `]`, so a comma right before the
   * closing `}` is accepted and the object comes back as if the comma were absent.
   */
  lemma TrailingCommaAccepted(es: seq<Entry>)
    requires WellFormed(JObject(Written(es)))
    ensures ObjectAt(TrailingCommaObject(es), 0, WrittenGuard) == Ok(Parsed(Written(es), |TrailingCommaObject(es)|))
  {
    TrailingCommaPrefix(es, WrittenGuard);
  }

  /** With the check looking for `}`, the same tokens are refused as a trailing comma. */
  lemma TrailingCommaRejected(es: seq<Entry>)
    requires WellFormed(JObject(Written(es)))
    ensures ObjectAt(TrailingCommaObject(es), 0, IntendedGuard) == Err(ObjectTrailingComma)
  {
    TrailingCommaPrefix(es, IntendedGuard);
  }

  /** `{"a":1,}` as tokens: accepted as written, refused with the intended check. */
  lemma TrailingCommaExample()
    ensures var toks := [Token(LeftBrace, "{"), Token(String, "a"), Token(Colon, ":"), Token(Number, "1"),
                         Token(Comma, ","), Token(RightBrace, "}")];
      && ObjectAt(toks, 0, WrittenGuard) == Ok(Parsed(Written([Entry("a", JNumber("1"))]), 6))
      && ObjectAt(toks, 0, IntendedGuard) == Err(ObjectTrailingComma)
  {
    var es := [Entry("a", JNumber("1"))];
    assert TrailingCommaObject(es) == [Token(LeftBrace, "{"), Token(String, "a"), Token(Colon, ":"), Token(Number, "1"),
                                       Token(Comma, ","), Token(RightBrace, "}")];
    TrailingCommaAccepted(es);
    TrailingCommaRejected(es);
  }

  /** An array's check after a comma does look for `]`: `[1,]` is refused. */
  lemma ArrayTrailingCommaExample(guard: TokenKind)
    ensures ArrayAt([Token(LeftBracket, "["), Token(Number, "1"), Token(Comma, ","), Token(RightBracket, "]")], 0, guard)
      == Err(ArrayTrailingComma)
  {
  }

  /** `ParseJson(string)` reads an object: any other first token is refused. */
  lemma TopLevelObjectOnly(toks: seq<Token>)
    requires KindAt(toks, 0) != LeftBrace
    ensures ObjectAt(toks, 0, WrittenGuard) == Err(Unexpected(LeftBrace, KindAt(toks, 0)))
  {
  }

  /** `{"a":1 "b":2}`: without a comma the loop ends after the first member and `}` is demanded. */
  lemma MissingCommaExample()
    ensures ObjectAt([Token(LeftBrace, "{"), Token(String, "a"), Token(Colon, ":"), Token(Number, "1"),
                      Token(String, "b"), Token(Colon, ":"), Token(Number, "2"), Token(RightBrace, "}")],
                     0, WrittenGuard) == Err(Unexpected(RightBrace, String))
  {
  }

  /** `{"a":1,"a":2}`: the second write replaces the first, in the same slot. */
  lemma LastWriteWinsExample()
    ensures ObjectAt([Token(LeftBrace, "{"), Token(String, "a"), Token(Colon, ":"), Token(Number, "1"),
                      Token(Comma, ","), Token(String, "a"), Token(Colon, ":"), Token(Number, "2"),
                      Token(RightBrace, "}")], 0, WrittenGuard)
      == Ok(Parsed(Written([Entry("a", JNumber("2"))]), 9))
  {
    var toks := [Token(LeftBrace, "{"), Token(String, "a"), Token(Colon, ":"), Token(Number, "1"),
                 Token(Comma, ","), Token(String, "a"), Token(Colon, ":"), Token(Number, "2"),
                 Token(RightBrace, "}")];
    var first := Put(Unwritten, "a", JNumber("1"));
    assert MemberAt(toks, 1, WrittenGuard) == Ok(Parsed(Entry("a", JNumber("1")), 4));
    assert MemberAt(toks, 5, WrittenGuard) == Ok(Parsed(Entry("a", JNumber("2")), 8));
    assert Put(first, "a", JNumber("2")) == Written([Entry("a", JNumber("2"))]);
    assert MembersFrom(toks, 5, WrittenGuard, first) == Ok(Parsed(Written([Entry("a", JNumber("2"))]), 9));
  }
}
