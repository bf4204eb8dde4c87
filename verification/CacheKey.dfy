/**
 The key of the AI cache (ai-cache-key.util.ts): values normalised, then printed as compact JSON
 (section 2 of RFC 8259). Two objects get the same key exactly when they say the same thing. The lower case
 of a text is a parameter.
 */
module CacheKey {
  import opened Basics
  import opened Decimals
  import opened Strings
  import opened Wrappers

  predicate NumberChar(c: char) {
    Digit(c) || c in "-+.e"
  }

  predicate IsNumber(s: string) {
    s != [] && (s[0] == '-' || Digit(s[0])) && forall i :: 0 <= i < |s| ==> NumberChar(s[i])
  }

  /** A finite number, by the text it is printed as: `Number::toString`, section 6.1.6.1 of ECMA-262. */
  type Number = s: string | IsNumber(s) witness "0"

  /** Plain values; `Undefined` is an entry that is there without a value. */
  datatype Json =
    | Undefined
    | Null
    | Bool(b: bool)
    | Num(n: Number)
    | Str(s: string)
    | Arr(items: Items)
    | Obj(fields: Fields)

  datatype Items = NoItem | Item(head: Json, tail: Items)

  datatype Fields = NoField | Field(key: string, value: Json, rest: Fields)

  function Size(v: Json): nat {
    match v
    case Arr(items) => 1 + ItemsSize(items)
    case Obj(fields) => 1 + FieldsSize(fields)
    case _ => 1
  }

  function ItemsSize(items: Items): nat {
    match items case NoItem => 0 case Item(v, rest) => Size(v) + ItemsSize(rest)
  }

  function FieldsSize(fs: Fields): nat {
    match fs case NoField => 0 case Field(_, v, rest) => Size(v) + FieldsSize(rest)
  }

  // ----- normal form -----

  /** The order of `sort()` on keys. */
  predicate Lexical(a: string, b: string)
    decreases |a|
  {
    b != [] && (a == [] || a[0] < b[0] || (a[0] == b[0] && Lexical(a[1..], b[1..])))
  }

  /** A key that is an array index. */
  predicate IsIndex(key: string) {
    DigitsOnly(key) && Canonical(key) && Value(key) < 0xFFFF_FFFF
  }

  /**
   The order of the keys of an object filled in that order: array indices first, by value (section 10.1.11 of
   ECMA-262).
   */
  predicate Before(a: string, b: string) {
    if IsIndex(a) then IsIndex(b) ==> Value(a) < Value(b) else !IsIndex(b) && Lexical(a, b)
  }

  function Insert(key: string, value: Json, fs: Fields): Fields {
    match fs
    case NoField => Field(key, value, NoField)
    case Field(k, v, rest) => if Before(key, k) then Field(key, value, fs) else Field(k, v, Insert(key, value, rest))
  }

  /** An entry that has a value; assigning `__proto__` makes no entry. */
  predicate Counts(key: string, value: Json) {
    !value.Undefined? && key != "__proto__"
  }

  /**
   `stableNormalize`: keys in order, entries that do not count dropped, texts trimmed, in lower case and with
   single spaces.
   */
  function Normalize(lower: string -> string, v: Json): Json {
    match v
    case Undefined => Null
    case Null => Null
    case Bool(_) => v
    case Num(_) => v
    case Str(s) => Str(Normal(lower, s))
    case Arr(items) => Arr(NormalizeItems(lower, items))
    case Obj(fields) => Obj(NormalizeFields(lower, fields))
  }

  function NormalizeItems(lower: string -> string, items: Items): Items {
    match items case NoItem => NoItem case Item(v, rest) => Item(Normalize(lower, v), NormalizeItems(lower, rest))
  }

  function NormalizeFields(lower: string -> string, fs: Fields): Fields {
    match fs
    case NoField => NoField
    case Field(k, v, rest) => if Counts(k, v) then Insert(k, Normalize(lower, v), NormalizeFields(lower, rest))
      else NormalizeFields(lower, rest)
  }

  // ----- what is the same thing -----

  /** The value of a key, if it has one. */
  function Get(fs: Fields, key: string): (r: Option<Json>)
    ensures r.Some? ==> Size(r.value) <= FieldsSize(fs)
  {
    match fs
    case NoField => None
    case Field(k, v, rest) => if k == key then (if Counts(k, v) then Some(v) else None) else Get(rest, key)
  }

  predicate Has(fs: Fields, key: string) {
    match fs case NoField => false case Field(k, _, rest) => k == key || Has(rest, key)
  }

  /** No key twice in an object, at any depth. */
  predicate Proper(v: Json) {
    match v
    case Arr(items) => ProperItems(items)
    case Obj(fields) => ProperFields(fields)
    case _ => true
  }

  predicate ProperItems(items: Items) {
    match items case NoItem => true case Item(v, rest) => Proper(v) && ProperItems(rest)
  }

  predicate ProperFields(fs: Fields) {
    match fs case NoField => true case Field(k, v, rest) => !Has(rest, k) && Proper(v) && ProperFields(rest)
  }

  /**
   Same words whatever their case, same numbers, same items in the same order, same value for each key
   that has one. An item without value is a null; a key without value is no key, nor is `__proto__`.
   */
  ghost predicate Same(lower: string -> string, a: Json, b: Json)
    decreases Size(a), 1
  {
    match a
    case Undefined => b.Undefined? || b.Null?
    case Null => b.Undefined? || b.Null?
    case Bool(_) => b == a
    case Num(_) => b == a
    case Str(s) => b.Str? && LowerAll(lower, Words(s)) == LowerAll(lower, Words(b.s))
    case Arr(items) => b.Arr? && SameItems(lower, items, b.items)
    case Obj(fields) => b.Obj? && SameFields(lower, fields, b.fields)
  }

  ghost predicate SameItems(lower: string -> string, a: Items, b: Items)
    decreases ItemsSize(a), 2
  {
    match a
    case NoItem => b.NoItem?
    case Item(v, rest) => b.Item? && Same(lower, v, b.head) && SameItems(lower, rest, b.tail)
  }

  ghost predicate SameFields(lower: string -> string, a: Fields, b: Fields)
    decreases FieldsSize(a), 3
  {
    forall key :: SameAt(lower, a, b, key)
  }

  ghost predicate SameAt(lower: string -> string, a: Fields, b: Fields, key: string)
    decreases FieldsSize(a), 2
  {
    var v, w := Get(a, key), Get(b, key);
    v.Some? == w.Some? && (v.Some? ==> Same(lower, v.value, w.value))
  }

  // ----- same normal form, same thing -----

  lemma {:induction false} LexicalIsTotal(a: string, b: string)
    ensures a == b || Lexical(a, b) || Lexical(b, a)
    ensures !(Lexical(a, b) && Lexical(b, a)) && !Lexical(a, a)
    decreases |a|
  {
    if a != [] {
      LexicalIsTotal(a[1..], a[1..]);
      if b != [] && a[0] == b[0] {
        LexicalIsTotal(a[1..], b[1..]);
        assert a[1..] == b[1..] ==> a == b by { assert a == [a[0]] + a[1..] && b == [b[0]] + b[1..]; }
      }
    }
  }

  lemma {:induction false} LexicalIsTransitive(a: string, b: string, c: string)
    requires Lexical(a, b) && Lexical(b, c)
    ensures Lexical(a, c)
    decreases |a|
  {
    if a != [] && a[0] == b[0] == c[0] { LexicalIsTransitive(a[1..], b[1..], c[1..]); }
  }

  lemma {:induction false} IndexIsPrinted(key: string)
    requires IsIndex(key)
    ensures IntegerText(key) && Print(Value(key)) == key
  {
    hide Value, Print, Canonical;
    CanonicalIsPrinted(key);
  }

  lemma {:induction false} BeforeIsTotal(a: string, b: string)
    ensures a == b || Before(a, b) || Before(b, a)
    ensures !(Before(a, b) && Before(b, a)) && !Before(a, a)
  {
    hide Lexical, Value, Canonical, DigitsOnly, Print;
    LexicalIsTotal(a, b);
    LexicalIsTotal(a, a);
    if IsIndex(a) && IsIndex(b) {
      IndexIsPrinted(a);
      IndexIsPrinted(b);
    }
  }

  lemma {:induction false} BeforeIsTransitive(a: string, b: string, c: string)
    requires Before(a, b) && Before(b, c)
    ensures Before(a, c)
  {
    hide Lexical, Value, Canonical, DigitsOnly;
    if !IsIndex(a) { LexicalIsTransitive(a, b, c); }
  }

  predicate Sorted(fs: Fields) {
    fs.Field? ==> (fs.rest.Field? ==> Before(fs.key, fs.rest.key)) && Sorted(fs.rest)
  }

  /** Every entry counts. */
  predicate Filled(fs: Fields) {
    fs.Field? ==> Counts(fs.key, fs.value) && Filled(fs.rest)
  }

  lemma {:induction false} HeadIsFirst(fs: Fields, key: string)
    requires Sorted(fs) && fs.Field? && Has(fs.rest, key)
    ensures Before(fs.key, key) && fs.key != key
  {
    BeforeIsTotal(fs.key, fs.key);
    if fs.rest.key != key {
      HeadIsFirst(fs.rest, key);
      BeforeIsTransitive(fs.key, fs.rest.key, key);
    }
  }

  lemma {:induction false} InsertKeeps(key: string, v: Json, fs: Fields)
    requires Sorted(fs) && Filled(fs) && !Has(fs, key) && Counts(key, v)
    ensures Sorted(Insert(key, v, fs)) && Filled(Insert(key, v, fs))
    ensures forall k :: Has(Insert(key, v, fs), k) <==> k == key || Has(fs, k)
    ensures forall k :: Get(Insert(key, v, fs), k) == if k == key then Some(v) else Get(fs, k)
  {
    if fs.Field? {
      BeforeIsTotal(key, fs.key);
      if !Before(key, fs.key) { InsertKeeps(key, v, fs.rest); }
    }
  }

  lemma {:induction false} NormalizedFields(lower: string -> string, fs: Fields)
    requires ProperFields(fs)
    ensures Sorted(NormalizeFields(lower, fs)) && Filled(NormalizeFields(lower, fs))
    ensures forall k :: Has(NormalizeFields(lower, fs), k) ==> Has(fs, k)
    ensures forall k :: Get(NormalizeFields(lower, fs), k) == if Get(fs, k).Some?
      then Some(Normalize(lower, Get(fs, k).value)) else None
  {
    if fs.Field? {
      NormalizedFields(lower, fs.rest);
      assert forall k :: Get(fs.rest, k).Some? ==> Has(fs.rest, k) by {
        forall k | Get(fs.rest, k).Some? ensures Has(fs.rest, k) { GottenIsThere(fs.rest, k); }
      }
      if Counts(fs.key, fs.value) { InsertKeeps(fs.key, Normalize(lower, fs.value), NormalizeFields(lower, fs.rest)); }
    }
  }

  lemma {:induction false} GottenIsThere(fs: Fields, key: string)
    ensures Get(fs, key).Some? ==> Has(fs, key)
    ensures Filled(fs) && Has(fs, key) ==> Get(fs, key).Some?
  {
    if fs.Field? { GottenIsThere(fs.rest, key); }
  }

  /** Ordered entries are determined by the values of their keys. */
  lemma {:induction false} SortedIsUnique(a: Fields, b: Fields)
    requires Sorted(a) && Sorted(b) && Filled(a) && Filled(b) && forall k :: Get(a, k) == Get(b, k)
    ensures a == b
  {
    if a.Field? { assert Get(a, a.key) == Get(b, a.key); GottenIsThere(b, a.key); }
    if b.Field? { assert Get(a, b.key) == Get(b, b.key); GottenIsThere(a, b.key); }
    if a.Field? && b.Field? {
      if a.key != b.key {
        HeadIsFirst(a, b.key);
        HeadIsFirst(b, a.key);
        BeforeIsTotal(a.key, b.key);
      }
      forall k ensures Get(a.rest, k) == Get(b.rest, k) {
        if k == a.key {
          GottenIsThere(a.rest, k);
          GottenIsThere(b.rest, k);
          if Has(a.rest, k) { HeadIsFirst(a, k); }
          if Has(b.rest, k) { HeadIsFirst(b, k); }
        } else {
          assert Get(a, k) == Get(b, k);
        }
      }
      SortedIsUnique(a.rest, b.rest);
    }
  }

  lemma {:induction false} ProperInside(fs: Fields, key: string)
    requires ProperFields(fs) && Get(fs, key).Some?
    ensures Proper(Get(fs, key).value)
  {
    if fs.key != key { ProperInside(fs.rest, key); }
  }

  lemma {:induction false} NormalIffSame(lower: string -> string, a: Json, b: Json)
    requires Lowering(lower) && Proper(a) && Proper(b)
    ensures Normalize(lower, a) == Normalize(lower, b) <==> Same(lower, a, b)
    decreases Size(a), 1
  {
    hide Lowering, Words, LowerAll, Normal, NormalizeItems, NormalizeFields, SameItems, SameFields;
    match a {
      case Undefined =>
      case Null =>
      case Bool(_) =>
      case Num(_) =>
      case Str(s) => if b.Str? { NormalIsWordsIff(lower, s, b.s); }
      case Arr(items) => if b.Arr? { NormalItemsIffSame(lower, items, b.items); }
      case Obj(fields) => if b.Obj? { NormalFieldsIffSame(lower, fields, b.fields); }
    }
  }

  lemma {:induction false} NormalItemsIffSame(lower: string -> string, a: Items, b: Items)
    requires Lowering(lower) && ProperItems(a) && ProperItems(b)
    ensures NormalizeItems(lower, a) == NormalizeItems(lower, b) <==> SameItems(lower, a, b)
    decreases ItemsSize(a), 2
  {
    if a.Item? && b.Item? {
      SizeIsPositive(a.head);
      NormalIffSame(lower, a.head, b.head);
      NormalItemsIffSame(lower, a.tail, b.tail);
    }
  }

  lemma {:induction false} SizeIsPositive(v: Json)
    ensures Size(v) > 0
  {
  }

  lemma {:induction false} NormalFieldsIffSame(lower: string -> string, a: Fields, b: Fields)
    requires Lowering(lower) && ProperFields(a) && ProperFields(b)
    ensures NormalizeFields(lower, a) == NormalizeFields(lower, b) <==> SameFields(lower, a, b)
    decreases FieldsSize(a), 2
  {
    var x, y := NormalizeFields(lower, a), NormalizeFields(lower, b);
    NormalizedFields(lower, a);
    NormalizedFields(lower, b);
    forall key ensures Get(x, key) == Get(y, key) <==> SameAt(lower, a, b, key) {
      var v, w := Get(a, key), Get(b, key);
      if v.Some? && w.Some? {
        ProperInside(a, key);
        ProperInside(b, key);
        NormalIffSame(lower, v.value, w.value);
      }
    }
    if SameFields(lower, a, b) {
      assert forall key :: Get(x, key) == Get(y, key) by {
        forall key ensures Get(x, key) == Get(y, key) { assert SameAt(lower, a, b, key); }
      }
      SortedIsUnique(x, y);
    }
    if x == y {
      forall key ensures SameAt(lower, a, b, key) { assert Get(x, key) == Get(y, key); }
    }
  }

  // ----- normalising twice -----

  predicate Stable(lower: string -> string, fs: Fields) {
    fs.Field? ==> Normalize(lower, fs.value) == fs.value && Stable(lower, fs.rest)
  }

  lemma {:induction false} InsertStable(lower: string -> string, key: string, v: Json, fs: Fields)
    requires Stable(lower, fs) && Normalize(lower, v) == v
    ensures Stable(lower, Insert(key, v, fs))
  {
    if fs.Field? && !Before(key, fs.key) { InsertStable(lower, key, v, fs.rest); }
  }

  lemma {:induction false} StableFieldsStay(lower: string -> string, fs: Fields)
    requires Stable(lower, fs) && Sorted(fs) && Filled(fs)
    ensures NormalizeFields(lower, fs) == fs
  {
    if fs.Field? { StableFieldsStay(lower, fs.rest); }
  }

  lemma {:induction false} NormalizedIsStable(lower: string -> string, fs: Fields)
    requires Lowering(lower) && ProperFields(fs)
    ensures Stable(lower, NormalizeFields(lower, fs))
    decreases FieldsSize(fs), fs, 2
  {
    if fs.Field? {
      SizeIsPositive(fs.value);
      NormalizedIsStable(lower, fs.rest);
      if Counts(fs.key, fs.value) {
        NormalizeTwice(lower, fs.value);
        InsertStable(lower, fs.key, Normalize(lower, fs.value), NormalizeFields(lower, fs.rest));
      }
    }
  }

  lemma {:induction false} NormalizeTwice(lower: string -> string, v: Json)
    requires Lowering(lower) && Proper(v)
    ensures Normalize(lower, Normalize(lower, v)) == Normalize(lower, v)
    decreases Size(v), v, 3
  {
    match v {
      case Undefined =>
      case Null =>
      case Bool(_) =>
      case Num(_) =>
      case Str(s) => NormalTwice(lower, s);
      case Arr(items) => NormalizeItemsTwice(lower, items);
      case Obj(fields) =>
        NormalizedIsStable(lower, fields);
        NormalizedFields(lower, fields);
        StableFieldsStay(lower, NormalizeFields(lower, fields));
    }
  }

  lemma {:induction false} NormalizeItemsTwice(lower: string -> string, items: Items)
    requires Lowering(lower) && ProperItems(items)
    ensures NormalizeItems(lower, NormalizeItems(lower, items)) == NormalizeItems(lower, items)
    decreases ItemsSize(items), items, 4
  {
    if items.Item? {
      SizeIsPositive(items.head);
      NormalizeTwice(lower, items.head);
      NormalizeItemsTwice(lower, items.tail);
    }
  }

  // ----- printing -----

  function HexDigit(n: nat): char
    requires n < 16
  {
    if n < 10 then ('0' as int + n) as char else ('a' as int + n - 10) as char
  }

  /** A character between quotes. */
  function Escape(c: char): string {
    if c == '"' then "\\\""
    else if c == '\\' then "\\\\"
    else if c == '\n' then "\\n"
    else if c == '\r' then "\\r"
    else if c == '\t' then "\\t"
    else if c as int == 8 then "\\b"
    else if c as int == 12 then "\\f"
    else if c < ' ' then "\\u00" + [HexDigit(c as int / 16), HexDigit(c as int % 16)]
    else [c]
  }

  function EscapeAll(s: string): string {
    if s == [] then [] else Escape(s[0]) + EscapeAll(s[1..])
  }

  const QUOTE := ['"']

  function Quoted(s: string): string {
    QUOTE + EscapeAll(s) + QUOTE
  }

  /** `JSON.stringify`, without spaces. */
  function PrintJson(v: Json): string {
    match v
    case Undefined => "null"
    case Null => "null"
    case Bool(b) => if b then "true" else "false"
    case Num(n) => n
    case Str(s) => Quoted(s)
    case Arr(items) => (match items case NoItem => "[]" case Item(w, rest) => "[" + PrintJson(w) + PrintItems(rest))
    case Obj(fields) =>
      (match fields
       case NoField => "{}"
       case Field(k, w, rest) => "{" + Quoted(k) + ":" + PrintJson(w) + PrintFields(rest))
  }

  /** The items after the first. */
  function PrintItems(items: Items): string {
    match items case NoItem => "]" case Item(v, rest) => "," + PrintJson(v) + PrintItems(rest)
  }

  function PrintFields(fs: Fields): string {
    match fs case NoField => "}" case Field(k, v, rest) => "," + Quoted(k) + ":" + PrintJson(v) + PrintFields(rest)
  }

  /** `buildAiCacheKey` */
  function Key(lower: string -> string, scope: string, parts: Fields): string {
    scope + ":" + PrintJson(Normalize(lower, Obj(parts)))
  }

  // ----- printing loses nothing -----

  lemma {:induction false} Split<T>(a: seq<T>, x: seq<T>, b: seq<T>, y: seq<T>)
    requires a + x == b + y && |a| == |b|
    ensures a == b && x == y
  {
    assert a == (a + x)[..|a|] && x == (a + x)[|a|..];
    assert b == (b + y)[..|b|] && y == (b + y)[|b|..];
  }

  function HexValue(c: char): Option<nat> {
    if Digit(c) then Some(c as int - '0' as int)
    else if 'a' <= c <= 'f' then Some(c as int - 'a' as int + 10)
    else if 'A' <= c <= 'F' then Some(c as int - 'A' as int + 10)
    else None
  }

  /**
   The first character of a text between quotes, and what follows it: section 7 of RFC 8259. Of the codes,
   those of two digits are enough.
   */
  function ReadChar(t: string): (r: Option<(char, string)>)
    requires t != []
    ensures r.Some? ==> |r.value.1| < |t|
  {
    if t[0] != '\\' then if t[0] < ' ' then None else Some((t[0], t[1..]))
    else if |t| < 2 then None
    else if t[1] == 'u' then
      if |t| < 6 || t[2] != '0' || t[3] != '0' then None
      else
        var high, low := HexValue(t[4]), HexValue(t[5]);
        if high.None? || low.None? then None else Some(((16 * high.value + low.value) as char, t[6..]))
    else
      var c := match t[1]
        case 'b' => Some(8 as char)
        case 'f' => Some(12 as char)
        case 'n' => Some('\n')
        case 'r' => Some('\r')
        case 't' => Some('\t')
        case _ => if t[1] in "\"\\/" then Some(t[1]) else None;
      if c.None? then None else Some((c.value, t[2..]))
  }

  /** A text up to its closing quote, and what follows. */
  function ReadText(t: string): Option<(string, string)>
    decreases |t|
  {
    if t == [] then None
    else if t[0] == '"' then Some(([], t[1..]))
    else
      var c := ReadChar(t);
      if c.None? then None
      else
        var rest := ReadText(c.value.1);
        if rest.None? then None else Some(([c.value.0] + rest.value.0, rest.value.1))
  }

  lemma {:induction false} EscapedIsRead(c: char, x: string)
    ensures var t := Escape(c) + x; t != [] && ReadChar(t) == Some((c, x))
  {
    var e, t := Escape(c), Escape(c) + x;
    assert t[0] == e[0] && t[|e|..] == x;
    if |e| > 1 { assert t[1] == e[1]; }
    if |e| == 6 { assert t[2] == e[2] && t[3] == e[3] && t[4] == e[4] && t[5] == e[5]; }
  }

  lemma {:induction false} EscapeIsNoQuote(c: char)
    ensures Escape(c) != [] && Escape(c)[0] != '"'
  {
  }

  /** The closing quote is the first one. */
  lemma {:induction false} EscapedHead(s: string, x: string)
    ensures var a := EscapeAll(s) + QUOTE + x;
      (a[0] == '"' <==> s == []) && (s != [] ==> a == Escape(s[0]) + (EscapeAll(s[1..]) + QUOTE + x))
  {
    hide Escape, EscapeAll;
    EscapeStep(s);
    if s != [] {
      EscapeIsNoQuote(s[0]);
      Regroup(Escape(s[0]), EscapeAll(s[1..]), QUOTE, x);
    }
  }

  lemma {:induction false} EscapeStep(s: string)
    ensures EscapeAll(s) == if s == [] then [] else Escape(s[0]) + EscapeAll(s[1..])
  {
  }

  lemma {:induction false} Regroup<T>(a: seq<T>, b: seq<T>, c: seq<T>, d: seq<T>)
    ensures (a + b) + c + d == a + (b + c + d)
  {
  }

  /** A reader of JSON finds the text that was printed, whatever follows it. */
  lemma {:induction false} QuotedIsRead(s: string, x: string)
    ensures ReadText(EscapeAll(s) + QUOTE + x) == Some((s, x))
  {
    hide Escape, EscapeAll, ReadChar;
    var t := EscapeAll(s) + QUOTE + x;
    EscapedHead(s, x);
    if s == [] {
      assert EscapeAll(s) == [] by { EscapeStep(s); }
      assert t[1..] == x;
    } else {
      EscapedIsRead(s[0], EscapeAll(s[1..]) + QUOTE + x);
      EscapeIsNoQuote(s[0]);
      QuotedIsRead(s[1..], x);
      assert s == [s[0]] + s[1..];
    }
  }

  lemma {:induction false} QuotedIsPrefixFree(s: string, x: string, t: string, y: string)
    requires Quoted(s) + x == Quoted(t) + y
    ensures s == t && x == y
  {
    hide EscapeAll;
    Regroup(QUOTE, EscapeAll(s), QUOTE, x);
    Regroup(QUOTE, EscapeAll(t), QUOTE, y);
    Split(QUOTE, EscapeAll(s) + QUOTE + x, QUOTE, EscapeAll(t) + QUOTE + y);
    QuotedIsRead(s, x);
    QuotedIsRead(t, y);
  }

  /** What may follow a value. */
  predicate Ends(x: string) {
    x == [] || x[0] in {',', ']', '}'}
  }

  /** A number ends where its characters do. */
  lemma {:induction false} NumberThen(d: string, x: string, e: string, y: string)
    requires d + x == e + y && Ends(x) && Ends(y)
    requires (forall i :: 0 <= i < |d| ==> NumberChar(d[i])) && (forall i :: 0 <= i < |e| ==> NumberChar(e[i]))
    ensures d == e && x == y
  {
    var a, b := d + x, e + y;
    assert if d == [] then a == x else a[0] == d[0] && a[1..] == d[1..] + x;
    assert if e == [] then b == y else b[0] == e[0] && b[1..] == e[1..] + y;
    if d != [] {
      NumberThen(d[1..], x, e[1..], y);
      assert d == [d[0]] + d[1..] && e == [e[0]] + e[1..];
    }
  }

  /** Nothing without value, at any depth. */
  predicate Full(v: Json) {
    match v
    case Undefined => false
    case Arr(items) => FullItems(items)
    case Obj(fields) => FullFields(fields)
    case _ => true
  }

  predicate FullItems(items: Items) {
    match items case NoItem => true case Item(v, rest) => Full(v) && FullItems(rest)
  }

  predicate FullFields(fs: Fields) {
    match fs case NoField => true case Field(_, v, rest) => Full(v) && FullFields(rest)
  }

  /** The first character says what kind of value is printed. */
  lemma {:induction false} FirstCharacter(v: Json)
    requires Full(v)
    ensures PrintJson(v) != [] && var c := PrintJson(v)[0];
      && (v.Null? <==> c == 'n') && (v.Bool? <==> c == 't' || c == 'f') && (v.Num? <==> c == '-' || Digit(c))
      && (v.Str? <==> c == '"') && (v.Arr? <==> c == '[') && (v.Obj? <==> c == '{')
  {
    hide EscapeAll;
  }

  lemma {:induction false} HeadOf<T>(a: seq<T>, x: seq<T>)
    requires a != []
    ensures (a + x)[0] == a[0]
  {
  }

  /** A printed value ends where it does, whatever follows. */
  lemma {:induction false} JsonIsPrefixFree(a: Json, x: string, b: Json, y: string)
    requires Full(a) && Full(b) && Ends(x) && Ends(y) && PrintJson(a) + x == PrintJson(b) + y
    ensures a == b && x == y
    decreases Size(a), a, 1
  {
    FirstCharacter(a);
    FirstCharacter(b);
    HeadOf(PrintJson(a), x);
    HeadOf(PrintJson(b), y);
    hide PrintJson;
    match a {
      case Null => KeywordIsPrefixFree(a, x, b, y);
      case Bool(_) => KeywordIsPrefixFree(a, x, b, y);
      case Num(n) => PrintedParts(a); PrintedParts(b); NumberThen(n, x, b.n, y);
      case Str(s) => PrintedParts(a); PrintedParts(b); QuotedIsPrefixFree(s, x, b.s, y);
      case Arr(items) => ArrayIsPrefixFree(items, x, b.items, y);
      case Obj(fields) => ObjectIsPrefixFree(fields, x, b.fields, y);
    }
  }

  lemma {:induction false} PrintedParts(v: Json)
    ensures v.Num? ==> PrintJson(v) == v.n
    ensures v.Str? ==> PrintJson(v) == Quoted(v.s)
    ensures v.Arr? && v.items.NoItem? ==> PrintJson(v) == "[]"
    ensures v.Arr? && v.items.Item? ==> PrintJson(v) == "[" + PrintJson(v.items.head) + PrintItems(v.items.tail)
    ensures v.Obj? && v.fields.NoField? ==> PrintJson(v) == "{}"
    ensures v.Obj? && v.fields.Field? ==> PrintJson(v) == "{" + PrintEntry(v.fields)
  {
  }

  /** An entry and those after it. */
  function PrintEntry(fs: Fields): string
    requires fs.Field?
  {
    Quoted(fs.key) + ":" + PrintJson(fs.value) + PrintFields(fs.rest)
  }

  lemma {:induction false} KeywordIsPrefixFree(a: Json, x: string, b: Json, y: string)
    requires (a.Null? && b.Null?) || (a.Bool? && b.Bool?)
    requires PrintJson(a) + x == PrintJson(b) + y
    ensures a == b && x == y
  {
    HeadOf(PrintJson(a), x);
    HeadOf(PrintJson(b), y);
    assert a == b;
    Split(PrintJson(a), x, PrintJson(b), y);
  }

  lemma {:induction false} ItemsEnd(items: Items, x: string)
    ensures PrintItems(items) != [] && (PrintItems(items)[0] == ']' <==> items.NoItem?) && Ends(PrintItems(items) + x)
  {
    hide PrintJson;
  }

  lemma {:induction false} FieldsEnd(fs: Fields, x: string)
    ensures PrintFields(fs) != [] && (PrintFields(fs)[0] == '}' <==> fs.NoField?) && Ends(PrintFields(fs) + x)
  {
    hide PrintJson, Quoted;
  }

  /** A value, what comes after it in its array, and what follows. */
  function ItemThen(items: Items, x: string): string
    requires items.Item?
  {
    PrintJson(items.head) + (PrintItems(items.tail) + x)
  }

  lemma {:induction false} ItemShape(items: Items, x: string)
    requires items.Item? && FullItems(items)
    ensures PrintItems(items) + x == "," + ItemThen(items, x)
    ensures PrintJson(Arr(items)) + x == "[" + ItemThen(items, x)
    ensures ItemThen(items, x) != [] && ItemThen(items, x)[0] != ']'
  {
    PrintedParts(Arr(items));
    FirstCharacter(items.head);
    HeadOf(PrintJson(items.head), PrintItems(items.tail) + x);
    hide PrintJson;
    Regroup(",", PrintJson(items.head), PrintItems(items.tail), x);
    Regroup("[", PrintJson(items.head), PrintItems(items.tail), x);
    Tail(PrintJson(items.head), PrintItems(items.tail), x);
  }

  lemma {:induction false} Tail<T>(a: seq<T>, b: seq<T>, c: seq<T>)
    ensures a + b + c == a + (b + c)
  {
  }

  lemma {:induction false} ItemIsPrefixFree(a: Items, x: string, b: Items, y: string)
    requires a.Item? && b.Item? && FullItems(a) && FullItems(b) && ItemThen(a, x) == ItemThen(b, y)
    ensures a == b && x == y
    decreases ItemsSize(a), a, 2
  {
    hide PrintJson, PrintItems;
    SizeIsPositive(a.head);
    ItemsEnd(a.tail, x);
    ItemsEnd(b.tail, y);
    JsonIsPrefixFree(a.head, PrintItems(a.tail) + x, b.head, PrintItems(b.tail) + y);
    ItemsArePrefixFree(a.tail, x, b.tail, y);
  }

  lemma {:induction false} ItemsArePrefixFree(a: Items, x: string, b: Items, y: string)
    requires FullItems(a) && FullItems(b) && PrintItems(a) + x == PrintItems(b) + y
    ensures a == b && x == y
    decreases ItemsSize(a), a, 3
  {
    ItemsEnd(a, x);
    ItemsEnd(b, y);
    HeadOf(PrintItems(a), x);
    HeadOf(PrintItems(b), y);
    if a.NoItem? {
      Split(PrintItems(a), x, PrintItems(b), y);
    } else {
      hide PrintItems, ItemThen;
      ItemShape(a, x);
      ItemShape(b, y);
      Split(",", ItemThen(a, x), ",", ItemThen(b, y));
      ItemIsPrefixFree(a, x, b, y);
    }
  }

  lemma {:induction false} EmptyArray(x: string)
    ensures PrintJson(Arr(NoItem)) + x == "[" + ("]" + x)
  {
  }

  lemma {:induction false} ArrayIsPrefixFree(a: Items, x: string, b: Items, y: string)
    requires FullItems(a) && FullItems(b) && PrintJson(Arr(a)) + x == PrintJson(Arr(b)) + y
    ensures a == b && x == y
    decreases ItemsSize(a), a, 3
  {
    hide PrintJson, ItemThen;
    EmptyArray(x);
    EmptyArray(y);
    if a.Item? { ItemShape(a, x); }
    if b.Item? { ItemShape(b, y); }
    Split("[", if a.Item? then ItemThen(a, x) else "]" + x, "[", if b.Item? then ItemThen(b, y) else "]" + y);
    if a.Item? { ItemIsPrefixFree(a, x, b, y); } else { Split("]", x, "]", y); }
  }

  /** The key, the value, the entries after it, and what follows. */
  function EntryThen(fs: Fields, x: string): string
    requires fs.Field?
  {
    Quoted(fs.key) + (":" + (PrintJson(fs.value) + (PrintFields(fs.rest) + x)))
  }

  lemma {:induction false} EntryShape(fs: Fields, x: string)
    requires fs.Field?
    ensures PrintFields(fs) + x == "," + EntryThen(fs, x)
    ensures PrintJson(Obj(fs)) + x == "{" + EntryThen(fs, x)
    ensures EntryThen(fs, x) != [] && EntryThen(fs, x)[0] == '"'
  {
    PrintedParts(Obj(fs));
    FieldsOf(fs);
    hide PrintJson, PrintFields, EscapeAll;
    var q, v, r := Quoted(fs.key), PrintJson(fs.value), PrintFields(fs.rest);
    EntryParts(q, v, r, x);
    Tail(",", PrintEntry(fs), x);
    Tail("{", PrintEntry(fs), x);
    HeadOf(q, ":" + (v + (r + x)));
  }

  lemma {:induction false} FieldsOf(fs: Fields)
    requires fs.Field?
    ensures PrintFields(fs) == "," + PrintEntry(fs)
  {
    hide PrintJson, Quoted;
    Tail(",", Quoted(fs.key) + ":" + PrintJson(fs.value), PrintFields(fs.rest));
    Tail(",", Quoted(fs.key) + ":", PrintJson(fs.value));
    Tail(",", Quoted(fs.key), ":");
  }

  lemma {:induction false} EntryParts(q: string, v: string, r: string, x: string)
    ensures q + ":" + v + r + x == q + (":" + (v + (r + x)))
  {
    Tail(q + ":" + v, r, x);
    Tail(q + ":", v, r + x);
    Tail(q, ":", v + (r + x));
  }

  lemma {:induction false} EntryIsPrefixFree(a: Fields, x: string, b: Fields, y: string)
    requires a.Field? && b.Field? && FullFields(a) && FullFields(b) && EntryThen(a, x) == EntryThen(b, y)
    ensures a == b && x == y
    decreases FieldsSize(a), a, 2
  {
    hide PrintJson, PrintFields, Quoted;
    SizeIsPositive(a.value);
    FieldsEnd(a.rest, x);
    FieldsEnd(b.rest, y);
    var u, v := PrintJson(a.value) + (PrintFields(a.rest) + x), PrintJson(b.value) + (PrintFields(b.rest) + y);
    QuotedIsPrefixFree(a.key, ":" + u, b.key, ":" + v);
    Split(":", u, ":", v);
    JsonIsPrefixFree(a.value, PrintFields(a.rest) + x, b.value, PrintFields(b.rest) + y);
    FieldsArePrefixFree(a.rest, x, b.rest, y);
  }

  lemma {:induction false} FieldsArePrefixFree(a: Fields, x: string, b: Fields, y: string)
    requires FullFields(a) && FullFields(b) && PrintFields(a) + x == PrintFields(b) + y
    ensures a == b && x == y
    decreases FieldsSize(a), a, 3
  {
    FieldsEnd(a, x);
    FieldsEnd(b, y);
    HeadOf(PrintFields(a), x);
    HeadOf(PrintFields(b), y);
    if a.NoField? {
      Split(PrintFields(a), x, PrintFields(b), y);
    } else {
      hide PrintFields, EntryThen;
      EntryShape(a, x);
      EntryShape(b, y);
      Split(",", EntryThen(a, x), ",", EntryThen(b, y));
      EntryIsPrefixFree(a, x, b, y);
    }
  }

  lemma {:induction false} EmptyObject(x: string)
    ensures PrintJson(Obj(NoField)) + x == "{" + ("}" + x)
  {
  }

  lemma {:induction false} ObjectIsPrefixFree(a: Fields, x: string, b: Fields, y: string)
    requires FullFields(a) && FullFields(b) && PrintJson(Obj(a)) + x == PrintJson(Obj(b)) + y
    ensures a == b && x == y
    decreases FieldsSize(a), a, 3
  {
    hide PrintJson, EntryThen;
    EmptyObject(x);
    EmptyObject(y);
    if a.Field? { EntryShape(a, x); }
    if b.Field? { EntryShape(b, y); }
    Split("{", if a.Field? then EntryThen(a, x) else "}" + x, "{", if b.Field? then EntryThen(b, y) else "}" + y);
    if a.Field? { EntryIsPrefixFree(a, x, b, y); } else { Split("}", x, "}", y); }
  }

  // ----- the key -----

  lemma {:induction false} InsertFull(key: string, v: Json, fs: Fields)
    requires FullFields(fs) && Full(v)
    ensures FullFields(Insert(key, v, fs))
  {
    if fs.Field? && !Before(key, fs.key) { InsertFull(key, v, fs.rest); }
  }

  lemma {:induction false} NormalizedIsFull(lower: string -> string, v: Json)
    ensures Full(Normalize(lower, v))
    decreases Size(v), v, 1
  {
    match v {
      case Arr(items) => NormalizedItemsAreFull(lower, items);
      case Obj(fields) => NormalizedFieldsAreFull(lower, fields);
      case _ =>
    }
  }

  lemma {:induction false} NormalizedItemsAreFull(lower: string -> string, items: Items)
    ensures FullItems(NormalizeItems(lower, items))
    decreases ItemsSize(items), items, 2
  {
    if items.Item? {
      SizeIsPositive(items.head);
      NormalizedIsFull(lower, items.head);
      NormalizedItemsAreFull(lower, items.tail);
    }
  }

  lemma {:induction false} NormalizedFieldsAreFull(lower: string -> string, fs: Fields)
    ensures FullFields(NormalizeFields(lower, fs))
    decreases FieldsSize(fs), fs, 2
  {
    if fs.Field? {
      SizeIsPositive(fs.value);
      NormalizedIsFull(lower, fs.value);
      NormalizedFieldsAreFull(lower, fs.rest);
      if Counts(fs.key, fs.value) { InsertFull(fs.key, Normalize(lower, fs.value), NormalizeFields(lower, fs.rest)); }
    }
  }

  /** In a scope, two objects have the same key exactly when they say the same thing. */
  lemma {:induction false} KeyIsCanonical(lower: string -> string, scope: string, a: Fields, b: Fields)
    requires Lowering(lower) && ProperFields(a) && ProperFields(b)
    ensures Key(lower, scope, a) == Key(lower, scope, b) <==> Same(lower, Obj(a), Obj(b))
  {
    hide PrintJson, Normalize, Same, Full;
    var x, y := Normalize(lower, Obj(a)), Normalize(lower, Obj(b));
    NormalIffSame(lower, Obj(a), Obj(b));
    if Key(lower, scope, a) == Key(lower, scope, b) {
      Split(scope + ":", PrintJson(x), scope + ":", PrintJson(y));
      NormalizedIsFull(lower, Obj(a));
      NormalizedIsFull(lower, Obj(b));
      assert PrintJson(x) + [] == PrintJson(x) && PrintJson(y) + [] == PrintJson(y);
      JsonIsPrefixFree(x, [], y, []);
    }
  }

  /** A null entry is an entry: only entries without value are dropped. */
  lemma {:induction false} NullEntryCounts(lower: string -> string, scope: string, key: string)
    requires Lowering(lower) && key != "__proto__"
    ensures Key(lower, scope, Field(key, Null, NoField)) != Key(lower, scope, NoField)
    ensures Key(lower, scope, Field(key, Undefined, NoField)) == Key(lower, scope, NoField)
  {
    KeyIsCanonical(lower, scope, Field(key, Null, NoField), NoField);
    assert !SameAt(lower, Field(key, Null, NoField), NoField, key);
    assert NormalizeFields(lower, Field(key, Undefined, NoField)) == NormalizeFields(lower, NoField);
  }

  /** An entry named `__proto__` says nothing: objects that differ by it only share their key. */
  lemma {:induction false} ProtoIsIgnored(lower: string -> string, scope: string, value: Json, rest: Fields)
    ensures Key(lower, scope, Field("__proto__", value, rest)) == Key(lower, scope, rest)
  {
    assert NormalizeFields(lower, Field("__proto__", value, rest)) == NormalizeFields(lower, rest);
  }
}
