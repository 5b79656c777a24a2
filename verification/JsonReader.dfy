/**
 A reader of JSON texts without insignificant white space, after the grammar of RFC 8259
 (values and literals in section 3, objects in 4, arrays in 5, numbers in 6, strings in 7),
 and the proof that it reads every canonical text back.  Escaped surrogate pairs are not
 read; the canonical text has none.
 */
module JsonReader {
  import opened CanonicalJson
  import opened CanonicalPrint
  import opened Text
  import opened Wrappers

  // What was read, and the text after it.
  type Reading<T> = Option<(T, string)>

  // ---- Strings ----

  function HexValue(c: char): Option<nat> {
    if '0' <= c <= '9' then Some((c - '0') as nat)
    else if 'a' <= c <= 'f' then Some(10 + (c - 'a') as nat)
    else if 'A' <= c <= 'F' then Some(10 + (c - 'A') as nat)
    else None
  }

  /** The character that `\uXXXX` names. */
  function CodeUnit(hex: string): Option<char>
    requires |hex| == 4
  {
    var a, b, c, d := HexValue(hex[0]), HexValue(hex[1]), HexValue(hex[2]), HexValue(hex[3]);
    if a.None? || b.None? || c.None? || d.None? then None
    else
      var code := ((a.value * 16 + b.value) * 16 + c.value) * 16 + d.value;
      if code < 0xD800 || (0xE000 <= code < 0x10000) then Some(code as char) else None
  }

  function Escaped(c: char): Option<char> {
    match c
    case '"' => Some('"')
    case '\\' => Some('\\')
    case '/' => Some('/')
    case 'b' => Some('\U{0008}')
    case 'f' => Some('\U{000C}')
    case 'n' => Some('\U{000A}')
    case 'r' => Some('\U{000D}')
    case 't' => Some('\U{0009}')
    case _ => None
  }

  /** One character of a string, escaped or not. */
  function ReadChar(s: string): (r: Reading<char>)
    ensures r.Some? ==> |r.value.1| < |s|
  {
    if s == "" || s[0] < '\U{0020}' || s[0] == '"' then None
    else if s[0] != '\\' then Some((s[0], s[1..]))
    else if |s| >= 6 && s[1] == 'u' then
      var c := CodeUnit(s[2..6]);
      if c.None? then None else Some((c.value, s[6..]))
    else if |s| >= 2 then
      var c := Escaped(s[1]);
      if c.None? then None else Some((c.value, s[2..]))
    else None
  }

  /** The rest of a string, from after its opening quote to after its closing one. */
  function ReadChars(s: string): (r: Reading<string>)
    ensures r.Some? ==> |r.value.1| < |s|
    decreases |s|
  {
    if s != "" && s[0] == '"' then Some(("", s[1..]))
    else
      var c := ReadChar(s);
      if c.None? then None
      else
        var t := ReadChars(c.value.1);
        if t.None? then None else Some(([c.value.0] + t.value.0, t.value.1))
  }

  // ---- Numbers ----

  function DropDigits(s: string): string {
    if s != "" && '0' <= s[0] <= '9' then DropDigits(s[1..]) else s
  }

  predicate SomeDigits(s: string) { s != "" && '0' <= s[0] <= '9' }

  predicate IsExponent(s: string) {
    || s == ""
    || ((s[0] == 'e' || s[0] == 'E')
        && var t := if |s| > 1 && (s[1] == '+' || s[1] == '-') then s[2..] else s[1..];
           SomeDigits(t) && DropDigits(t) == "")
  }

  predicate IsFraction(s: string) {
    if s != "" && s[0] == '.' then SomeDigits(s[1..]) && IsExponent(DropDigits(s[1..])) else IsExponent(s)
  }

  /** number = [ minus ] int [ frac ] [ exp ] */
  predicate IsNumber(s: string) {
    var t := if s != "" && s[0] == '-' then s[1..] else s;
    SomeDigits(t) && IsFraction(if t[0] == '0' then t[1..] else DropDigits(t))
  }

  // The longest run of characters that occur in numbers, and the rest.
  function Run(s: string): (r: (string, string))
    ensures s == r.0 + r.1
  {
    if s != "" && (('0' <= s[0] <= '9') || s[0] in "+-.eE") then
      var (a, b) := Run(s[1..]);
      ([s[0]] + a, b)
    else ("", s)
  }

  function ReadNumber(s: string): (r: Reading<Json>)
    ensures r.Some? ==> |r.value.1| < |s|
  {
    var (text, rest) := Run(s);
    if text != "" && IsNumber(text) then Some((Number(text), rest)) else None
  }

  // ---- Values ----

  function ReadValue(s: string): (r: Reading<Json>)
    ensures r.Some? ==> |r.value.1| < |s|
    decreases |s|, 0
  {
    if s == "" then None
    else if s[0] == '{' then
      if |s| > 1 && s[1] == '}' then Some((Obj(Nil), s[2..]))
      else
        var f := ReadMembers(s[1..]);
        if f.None? then None else Some((Obj(f.value.0), f.value.1))
    else if s[0] == '[' then
      if |s| > 1 && s[1] == ']' then Some((Arr(Nil), s[2..]))
      else
        var l := ReadElements(s[1..]);
        if l.None? then None else Some((Arr(l.value.0), l.value.1))
    else if s[0] == '"' then
      var t := ReadChars(s[1..]);
      if t.None? then None else Some((Str(t.value.0), t.value.1))
    else if "false" <= s then Some((Bool(false), s[5..]))
    else if "null" <= s then Some((Null, s[4..]))
    else if "true" <= s then Some((Bool(true), s[4..]))
    else ReadNumber(s)
  }

  /** value *( "," value ) "]" */
  function ReadElements(s: string): (r: Reading<List<Json>>)
    ensures r.Some? ==> |r.value.1| < |s|
    decreases |s|, 1
  {
    var v := ReadValue(s);
    if v.None? then None
    else
      var rest := v.value.1;
      if rest != "" && rest[0] == ']' then Some((Cons(v.value.0, Nil), rest[1..]))
      else if rest != "" && rest[0] == ',' then
        var more := ReadElements(rest[1..]);
        if more.None? then None else Some((Cons(v.value.0, more.value.0), more.value.1))
      else None
  }

  /** string ":" value */
  function ReadMember(s: string): (r: Reading<Field>)
    ensures r.Some? ==> |r.value.1| < |s|
    decreases |s|, 1
  {
    if s == "" || s[0] != '"' then None
    else
      var key := ReadChars(s[1..]);
      if key.None? || key.value.1 == "" || key.value.1[0] != ':' then None
      else
        var v := ReadValue(key.value.1[1..]);
        if v.None? then None else Some((Field(key.value.0, v.value.0), v.value.1))
  }

  /** member *( "," member ) "}" */
  function ReadMembers(s: string): (r: Reading<List<Field>>)
    ensures r.Some? ==> |r.value.1| < |s|
    decreases |s|, 2
  {
    var m := ReadMember(s);
    if m.None? then None
    else
      var rest := m.value.1;
      if rest != "" && rest[0] == '}' then Some((Cons(m.value.0, Nil), rest[1..]))
      else if rest != "" && rest[0] == ',' then
        var more := ReadMembers(rest[1..]);
        if more.None? then None else Some((Cons(m.value.0, more.value.0), more.value.1))
      else None
  }

  // ---- Strings read back ----

  lemma EscapeReads(c: char, rest: string)
    ensures ReadChar(Escape(c) + rest) == Some((c, rest))
  {
    var s, e := Escape(c) + rest, Escape(c);
    assert s[..|e|] == e && s[|e|..] == rest;
    if |e| == 6 {
      var n := c as int;
      assert s[1] == 'u' && s[2..6] == e[2..6];
      assert HexValue(HexDigit(n / 16)) == Some(n / 16) && HexValue(HexDigit(n % 16)) == Some(n % 16);
    }
  }

  /** Only quotes, backslashes and control characters are escaped, as shortly as the grammar allows
      and in lower case. */
  lemma EscapeIsShortest(c: char)
    ensures Escape(c) == [c] <==> c != '"' && c != '\\' && c >= '\U{0020}'
    ensures |Escape(c)| == (if Escape(c) == [c] then 1
                            else if c in ['"', '\\', '\U{0008}', '\U{0009}', '\U{000A}', '\U{000C}', '\U{000D}'] then 2 else 6)
    ensures forall i | 0 <= i < |Escape(c)| && Escape(c) != [c] :: !('A' <= Escape(c)[i] <= 'Z')
  {
    assert forall n: nat | n < 16 :: !('A' <= HexDigit(n) <= 'Z');
  }

  lemma {:induction false} CharsRead(t: string, rest: string)
    ensures ReadChars(EscapeAll(t) + ("\"" + rest)) == Some((t, rest))
    decreases |t|
  {
    var s := EscapeAll(t) + ("\"" + rest);
    if t == "" {
      assert s == "\"" + rest && s[1..] == rest;
    } else {
      var after := EscapeAll(t[1..]) + ("\"" + rest);
      assert s == Escape(t[0]) + after;
      EscapeReads(t[0], after);
      EscapeOpens(t[0], after);
      hide Escape, ReadChar;
      CharsRead(t[1..], rest);
      assert t == [t[0]] + t[1..];
    }
  }

  lemma EscapeOpens(c: char, rest: string)
    ensures (Escape(c) + rest)[0] != '"'
  {}

  // A quoted string, from its opening quote.
  lemma QuoteReads(t: string, rest: string)
    ensures Quote(t) + rest != "" && (Quote(t) + rest)[0] == '"'
    ensures ReadChars((Quote(t) + rest)[1..]) == Some((t, rest))
  {
    var s := Quote(t) + rest;
    assert s[0] == '"' && s[1..] == EscapeAll(t) + ("\"" + rest);
    CharsRead(t, rest);
  }

  // ---- Numbers read back ----

  lemma {:induction false} RunStops(text: string, rest: string)
    requires (forall i | 0 <= i < |text| :: NumberChar(text[i])) && Follows(rest)
    ensures Run(text + rest) == (text, rest)
  {
    if text == "" {
      assert text + rest == rest;
    } else {
      assert (text + rest)[1..] == text[1..] + rest;
      RunStops(text[1..], rest);
      assert text == [text[0]] + text[1..];
    }
  }

  // ---- Values read back ----

  /** Every number of the value is in the grammar, as serde_json writes it. */
  predicate NumbersOk(v: Json) {
    match v
    case Number(text) => IsNumber(text)
    case Arr(items) => ItemNumbersOk(items)
    case Obj(fields) => FieldNumbersOk(fields)
    case _ => true
  }

  predicate ItemNumbersOk(l: List<Json>) { l.Cons? ==> NumbersOk(l.head) && ItemNumbersOk(l.tail) }

  predicate FieldNumbersOk(f: List<Field>) { f.Cons? ==> NumbersOk(f.head.value) && FieldNumbersOk(f.tail) }

  /** The keys of every object come in ascending order, the order of their code points. */
  predicate Ascends(v: Json) {
    match v
    case Arr(items) => ItemsAscend(items)
    case Obj(fields) => Sorted(fields) && FieldsAscend(fields)
    case _ => true
  }

  predicate ItemsAscend(l: List<Json>) { l.Cons? ==> Ascends(l.head) && ItemsAscend(l.tail) }

  predicate FieldsAscend(f: List<Field>) { f.Cons? ==> Ascends(f.head.value) && FieldsAscend(f.tail) }

  lemma {:induction false} InsertKeepsNumbers(e: Field, f: List<Field>)
    requires NumbersOk(e.value) && FieldNumbersOk(f)
    ensures FieldNumbersOk(Insert(e, f))
  {
    if f.Cons? && KeyLess(f.head.key, e.key) { InsertKeepsNumbers(e, f.tail); }
  }

  lemma {:induction false} SortKeepsNumbers(f: List<Field>)
    requires FieldNumbersOk(f)
    ensures FieldNumbersOk(Sort(f))
  {
    if f.Cons? {
      SortKeepsNumbers(f.tail);
      InsertKeepsNumbers(f.head, Sort(f.tail));
    }
  }

  /** Reading the canonical text of a value, whatever may follow it, gives an equal value with the
      keys of every object in ascending order, and leaves what followed. */
  lemma {:induction false} PrintReads(v: Json, rest: string) returns (w: Json)
    requires WellFormed(v) && NumbersOk(v) && Follows(rest)
    ensures ReadValue(Print(v) + rest) == Some((w, rest))
    ensures Equivalent(v, w) && Ascends(w)
    decreases Size(v), 1
  {
    match v
    case Str(s) => QuoteReads(s, rest); w := v; hide Quote, ReadChars;
    case Number(text) => NumberReads(text, rest); w := v;
    case Arr(items) => w := ArrayReads(items, rest);
    case Obj(fields) => w := ObjectReads(fields, rest);
    case _ => w := v; LiteralReads(v, rest);
  }

  lemma LiteralReads(v: Json, rest: string)
    requires v.Null? || v.Bool?
    ensures ReadValue(Print(v) + rest) == Some((v, rest))
  {
    var s := Print(v) + rest;
    assert s[..|Print(v)|] == Print(v) && s[|Print(v)|..] == rest;
  }

  lemma NumberReads(text: string, rest: string)
    requires NumberText(text) && IsNumber(text) && Follows(rest)
    ensures ReadValue(Print(Number(text)) + rest) == Some((Number(text), rest))
  {
    hide ReadValue, IsNumber;
    RunStops(text, rest);
    assert (text + rest)[0] == text[0];
    NumberIsNoLiteral(text + rest);
    hide Run;
  }

  lemma NumberIsNoLiteral(s: string)
    requires s != "" && (Digit(s[0]) || s[0] == '-')
    ensures ReadValue(s) == ReadNumber(s)
  {
    hide ReadNumber;
    NotPrefix("false", s);
    NotPrefix("null", s);
    NotPrefix("true", s);
  }

  lemma NotPrefix(p: string, s: string)
    requires p != "" && s != "" && p[0] != s[0]
    ensures !(p <= s)
  {}

  lemma ArrayReads(items: List<Json>, rest: string) returns (w: Json)
    requires ItemsWellFormed(items) && ItemNumbersOk(items)
    ensures ReadValue(Print(Arr(items)) + rest) == Some((w, rest))
    ensures Equivalent(Arr(items), w) && Ascends(w)
    decreases SizeItems(items), 3
  {
    hide ReadValue, PrintItems, ItemsWellFormed, ItemNumbersOk;
    var x := PrintItems(items, true);
    assert Print(Arr(items)) == "[" + x + "]";
    hide Print;
    var s := "[" + x + "]" + rest;
    Regroup("[", x, "]", rest);
    assert s[0] == '[' && s[1..] == x + ("]" + rest);
    ItemsStart(items, true, rest);
    var l := Nil;
    if items.Cons? { l := ItemsRead(items, true, rest); }
    if items.Nil? { NoItems(s, rest); }
    BracketReads(s, l, rest);
    w := Arr(l);
  }

  lemma NoItems(s: string, rest: string)
    requires s == "[" + PrintItems(Nil, true) + "]" + rest
    ensures s[2..] == rest
  {
    assert PrintItems(Nil, true) == "" && s == "[]" + rest;
  }

  // What a bracket opens.
  lemma BracketReads(s: string, l: List<Json>, rest: string)
    requires |s| > 1 && s[0] == '['
    requires if s[1] == ']' then l.Nil? && s[2..] == rest else ReadElements(s[1..]) == Some((l, rest))
    ensures ReadValue(s) == Some((Arr(l), rest))
  {
    hide ReadElements;
  }

  lemma {:induction false} ItemsRead(items: List<Json>, first: bool, rest: string) returns (l: List<Json>)
    requires items.Cons? && ItemsWellFormed(items) && ItemNumbersOk(items)
    ensures ReadElements((PrintItems(items, first) + ("]" + rest))[|Comma(first)|..]) == Some((l, rest))
    ensures EquivalentItems(items, l) && ItemsAscend(l)
    decreases SizeItems(items), 2
  {
    hide Print, ReadValue, Equivalent, WellFormed, NumbersOk, Ascends;
    var more := PrintItems(items.tail, false) + ("]" + rest);
    var s := (PrintItems(items, first) + ("]" + rest))[|Comma(first)|..];
    assert s == Print(items.head) + more;
    ItemsFollow(items.tail, rest);
    var v := PrintReads(items.head, more);
    if items.tail.Nil? {
      assert more == "]" + rest && more[1..] == rest;
      l := Cons(v, Nil);
    } else {
      var t := ItemsRead(items.tail, false, rest);
      assert more[0] == ',' && more[1..] == more[|Comma(false)|..];
      l := Cons(v, t);
    }
  }

  lemma ObjectReads(fields: List<Field>, rest: string) returns (w: Json)
    requires Distinct(fields) && FieldsWellFormed(fields) && FieldNumbersOk(fields)
    ensures ReadValue(Print(Obj(fields)) + rest) == Some((w, rest))
    ensures Equivalent(Obj(fields), w) && Ascends(w)
    decreases SizeFields(fields), 3
  {
    hide ReadValue, PrintFields, Sort, FieldsWellFormed, FieldNumbersOk, Equivalent, Ascends, Distinct;
    var g := Sort(fields);
    var x := PrintFields(g, true);
    assert Print(Obj(fields)) == "{" + x + "}";
    hide Print;
    var s := "{" + x + "}" + rest;
    Regroup("{", x, "}", rest);
    assert s[0] == '{' && s[1..] == x + ("}" + rest);
    SortKeepsMap(fields, "");
    SortKeepsNumbers(fields);
    FieldsStart(g, true, rest);
    var f := Nil;
    if g.Cons? { f := FieldsRead(g, true, rest); }
    if g.Nil? { NoFields(s, f, rest); }
    BraceReads(s, f, rest);
    w := ObjectOf(fields, f);
  }

  lemma NoFields(s: string, f: List<Field>, rest: string)
    requires s == "{" + PrintFields(Nil, true) + "}" + rest && f.Nil?
    ensures s[2..] == rest && EquivalentFields(Nil, f) && FieldsAscend(f)
  {
    assert PrintFields(Nil, true) == "" && s == "{}" + rest;
  }

  // What a brace opens.
  lemma BraceReads(s: string, f: List<Field>, rest: string)
    requires |s| > 1 && s[0] == '{'
    requires if s[1] == '}' then f.Nil? && s[2..] == rest else ReadMembers(s[1..]) == Some((f, rest))
    ensures ReadValue(s) == Some((Obj(f), rest))
  {
    hide ReadMembers;
  }

  // The object read is the one printed.
  lemma ObjectOf(fields: List<Field>, f: List<Field>) returns (w: Json)
    requires Distinct(fields) && EquivalentFields(Sort(fields), f) && FieldsAscend(f)
    ensures w == Obj(f) && Equivalent(Obj(fields), w) && Ascends(w)
  {
    w := Obj(f);
    SortedReading(fields, f);
    hide EquivalentMaps, FieldsAscend, Sorted;
  }

  // Sorted entries that agree place by place with the sorted entries of an object are that object.
  lemma SortedReading(fields: List<Field>, f: List<Field>)
    requires Distinct(fields) && EquivalentFields(Sort(fields), f)
    ensures EquivalentMaps(fields, f) && Sorted(f)
  {
    var g := Sort(fields);
    SortSorts(fields);
    SortedIsDistinct(g);
    PlacesHaveSameKeys(g, f);
    SameKeysSorted(g, f);
    SortedIsDistinct(f);
    FieldsByPlace(g, f);
    SortKeepsAll(fields);
    hide Equivalent, EquivalentMaps, EquivalentFields, Sort, Sorted, HasKey, Get, SameKeys, Distinct;
    SameMaps(g, f, fields, f);
  }

  lemma {:induction false} SameKeysSorted(f: List<Field>, g: List<Field>)
    requires SameKeys(f, g) && Sorted(f)
    ensures Sorted(g)
  {
    if f.Cons? && f.tail.Cons? { SameKeysSorted(f.tail, g.tail); }
  }

  lemma {:induction false} FieldsRead(f: List<Field>, first: bool, rest: string) returns (r: List<Field>)
    requires f.Cons? && FieldsWellFormed(f) && FieldNumbersOk(f)
    ensures ReadMembers((PrintFields(f, first) + ("}" + rest))[|Comma(first)|..]) == Some((r, rest))
    ensures EquivalentFields(f, r) && FieldsAscend(r)
    decreases SizeFields(f), 2
  {
    hide PrintField, ReadMember, Equivalent, WellFormed, NumbersOk, Ascends;
    var more := PrintFields(f.tail, false) + ("}" + rest);
    var s := (PrintFields(f, first) + ("}" + rest))[|Comma(first)|..];
    assert s == PrintField(f.head) + more;
    FieldsFollow(f.tail, rest);
    var e := FieldReads(f.head, more);
    if f.tail.Nil? {
      assert more == "}" + rest && more[1..] == rest;
      r := Cons(e, Nil);
    } else {
      var t := FieldsRead(f.tail, false, rest);
      assert more[0] == ',' && more[1..] == more[|Comma(false)|..];
      r := Cons(e, t);
    }
  }

  lemma FieldReads(f: Field, rest: string) returns (e: Field)
    requires WellFormed(f.value) && NumbersOk(f.value) && Follows(rest)
    ensures ReadMember(PrintField(f) + rest) == Some((e, rest))
    ensures e.key == f.key && Equivalent(f.value, e.value) && Ascends(e.value)
    decreases Size(f.value), 2
  {
    hide Print, ReadValue, Equivalent, WellFormed, NumbersOk, Ascends, Quote, ReadChars;
    var after := ":" + (Print(f.value) + rest);
    Regroup(Quote(f.key), ":", Print(f.value), rest);
    assert PrintField(f) + rest == Quote(f.key) + after;
    QuoteReads(f.key, after);
    assert after[1..] == Print(f.value) + rest;
    var v := PrintReads(f.value, rest);
    e := Field(f.key, v);
  }

  /** The canonical text is a JSON text: reading it gives back an equal value, with the keys of
      every object in ascending order. */
  lemma CanonicalTextIsJson(v: Json) returns (w: Json)
    requires WellFormed(v) && NumbersOk(v)
    ensures ReadValue(Print(v)) == Some((w, ""))
    ensures Equivalent(v, w) && Ascends(w)
  {
    w := PrintReads(v, "");
    assert Print(v) + "" == Print(v);
  }
}
