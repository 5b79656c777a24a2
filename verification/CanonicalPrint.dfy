/** The canonical text of a JSON value, and why equal texts mean equal values. */
module CanonicalPrint {
  import opened CanonicalJson

  function HexDigit(n: nat): char
    requires n < 16
  {
    if n < 10 then '0' + n as char else 'a' + (n - 10) as char
  }

  /** How serde_json writes one character inside a string. */
  function Escape(c: char): (r: string)
    ensures r != "" && r[0] != '"'
  {
    if c == '"' then "\\\""
    else if c == '\\' then "\\\\"
    else if c == '\U{8}' then "\\b"
    else if c == '\U{c}' then "\\f"
    else if c == '\n' then "\\n"
    else if c == '\r' then "\\r"
    else if c == '\t' then "\\t"
    else if c < ' ' then "\\u00" + [HexDigit(c as int / 16), HexDigit(c as int % 16)]
    else [c]
  }

  function EscapeAll(s: string): (r: string)
    ensures s != "" ==> r != "" && r[0] != '"'
  {
    if s == "" then "" else Escape(s[0]) + EscapeAll(s[1..])
  }

  function Quote(s: string): string { "\"" + EscapeAll(s) + "\"" }

  function Print(v: Json): string
    decreases Size(v), 0
  {
    match v
    case Null => "null"
    case Bool(b) => if b then "true" else "false"
    case Number(text) => text
    case Str(s) => Quote(s)
    case Arr(items) => "[" + PrintItems(items, true) + "]"
    case Obj(fields) => "{" + PrintFields(Sort(fields), true) + "}"
  }

  function Comma(first: bool): string { if first then "" else "," }

  function PrintItems(l: List<Json>, first: bool): string
    decreases SizeItems(l), 0
  {
    match l case Nil => "" case Cons(h, t) => Comma(first) + Print(h) + PrintItems(t, false)
  }

  function PrintField(f: Field): string
    decreases Size(f.value), 1
  {
    Quote(f.key) + ":" + Print(f.value)
  }

  function PrintFields(f: List<Field>, first: bool): string
    decreases SizeFields(f), 0
  {
    match f case Nil => "" case Cons(h, t) => Comma(first) + PrintField(h) + PrintFields(t, false)
  }

  // ---- Strings ----

  /** No escape is a prefix of another, and none starts with a quote. */
  lemma EscapePrefixFree(c: char, d: char, u: string, w: string)
    requires Escape(c) + u == Escape(d) + w
    ensures c == d && u == w
  {
    var x, y := Escape(c) + u, Escape(d) + w;
    assert x[0] == y[0];
    if x[0] == '\\' {
      assert x[1] == y[1];
      if x[1] == 'u' {
        assert x[4] == y[4] && x[5] == y[5];
        assert c as int == 16 * (c as int / 16) + c as int % 16;
        assert d as int == 16 * (d as int / 16) + d as int % 16;
      }
    }
    assert c == d;
    assert u == x[|Escape(c)|..] == y[|Escape(d)|..] == w;
  }

  lemma {:induction false} QuotedPrefix(s: string, t: string, u: string, w: string)
    requires EscapeAll(s) + ("\"" + u) == EscapeAll(t) + ("\"" + w)
    ensures s == t && u == w
    decreases |s|
  {
    hide Escape;
    var x, y := EscapeAll(s) + ("\"" + u), EscapeAll(t) + ("\"" + w);
    assert x[0] == y[0];
    if s == "" && t == "" {
      assert u == x[1..] == y[1..] == w;
    } else if s != "" && t != "" {
      var xs, ys := EscapeAll(s[1..]) + ("\"" + u), EscapeAll(t[1..]) + ("\"" + w);
      assert x == Escape(s[0]) + xs && y == Escape(t[0]) + ys;
      EscapePrefixFree(s[0], t[0], xs, ys);
      QuotedPrefix(s[1..], t[1..], u, w);
      assert s == [s[0]] + s[1..] && t == [t[0]] + t[1..];
    }
  }

  /** A quoted string is self-delimiting. */
  lemma QuotesDelimit(s: string, t: string, u: string, w: string)
    requires Quote(s) + u == Quote(t) + w
    ensures s == t && u == w
  {
    hide EscapeAll;
    Regroup("\"", EscapeAll(s), "\"", u);
    Regroup("\"", EscapeAll(t), "\"", w);
    Cancel("\"", EscapeAll(s) + ("\"" + u), EscapeAll(t) + ("\"" + w));
    QuotedPrefix(s, t, u, w);
  }

  // ---- Numbers ----

  // What may follow a value: nothing, a separator or a closing bracket.
  predicate Follows(u: string) { u == "" || u[0] == ',' || u[0] == ']' || u[0] == '}' }

  // Where the shorter of two overlapping texts ends, the longer goes on.
  lemma Overlap(s: string, t: string, u: string, w: string)
    requires s + u == t + w && |s| < |t|
    ensures u != "" && u[0] == t[|s|]
  {
    assert (s + u)[|s|] == (t + w)[|s|];
  }

  /** A number ends where its characters end. */
  lemma NumbersDelimit(s: string, t: string, u: string, w: string)
    requires NumberText(s) && NumberText(t) && Follows(u) && Follows(w) && s + u == t + w
    ensures s == t && u == w
  {
    if |s| < |t| {
      Overlap(s, t, u, w);
      assert false;
    }
    if |t| < |s| {
      Overlap(t, s, w, u);
      assert false;
    }
    assert s == (s + u)[..|s|] == t && u == (s + u)[|s|..] == w;
  }

  // ---- Values ----

  // The first character of a printed value tells its kind.
  function Kind(v: Json): nat {
    match v case Null => 0 case Bool(b) => if b then 1 else 2 case Number(_) => 3 case Str(_) => 4 case Arr(_) => 5 case Obj(_) => 6
  }

  predicate Opens(c: char, kind: nat) {
    match kind
    case 0 => c == 'n'
    case 1 => c == 't'
    case 2 => c == 'f'
    case 3 => Digit(c) || c == '-'
    case 4 => c == '"'
    case 5 => c == '['
    case _ => c == '{'
  }

  lemma PrintOpens(v: Json)
    requires WellFormed(v)
    ensures Print(v) != "" && Opens(Print(v)[0], Kind(v))
  {
    hide Quote, PrintItems, PrintFields, Sort;
    if v.Str? {
      assert Quote(v.s)[0] == '"' by { StartsQuoted(v.s); }
      StartsQuoted(v.s);
    }
  }

  lemma StartsQuoted(s: string)
    ensures Quote(s) != "" && Quote(s)[0] == '"'
  {}

  lemma SameKind(a: Json, b: Json, u: string, w: string)
    requires WellFormed(a) && WellFormed(b) && Print(a) + u == Print(b) + w
    ensures Kind(a) == Kind(b)
  {
    PrintOpens(a);
    PrintOpens(b);
    hide Print, WellFormed;
    assert (Print(a) + u)[0] == Print(a)[0] && (Print(b) + w)[0] == Print(b)[0];
  }

  /** Equal texts come from equivalent values, and leave equal rests. */
  lemma {:induction false} PrintDelimits(a: Json, b: Json, u: string, w: string)
    requires WellFormed(a) && WellFormed(b) && Follows(u) && Follows(w)
    requires Print(a) + u == Print(b) + w
    ensures Equivalent(a, b) && u == w
    decreases Size(a), 1
  {
    SameKind(a, b, u, w);
    match a
    case Number(text) => NumbersDelimit(text, b.text, u, w);
    case Str(s) => QuotesDelimit(s, b.s, u, w);
    case Arr(items) => ArraysDelimit(items, b.items, u, w);
    case Obj(fields) => ObjectsDelimit(fields, b.fields, u, w);
    case _ => assert u == (Print(a) + u)[|Print(a)|..] == (Print(b) + w)[|Print(b)|..] == w;
  }

  lemma Regroup(a: string, b: string, c: string, d: string)
    ensures (a + b + c) + d == a + (b + (c + d))
  {}

  lemma Cancel(p: string, u: string, w: string)
    requires p + u == p + w
    ensures u == w
  {
    assert u == (p + u)[|p|..] == (p + w)[|p|..] == w;
  }

  lemma ArraysDelimit(l: List<Json>, m: List<Json>, u: string, w: string)
    requires ItemsWellFormed(l) && ItemsWellFormed(m) && Print(Arr(l)) + u == Print(Arr(m)) + w
    ensures Equivalent(Arr(l), Arr(m)) && u == w
    decreases SizeItems(l), 3
  {
    var x, y := PrintItems(l, true), PrintItems(m, true);
    assert Print(Arr(l)) == "[" + x + "]" && Print(Arr(m)) == "[" + y + "]";
    hide Print, PrintItems, ItemsWellFormed;
    Regroup("[", x, "]", u);
    Regroup("[", y, "]", w);
    Cancel("[", x + ("]" + u), y + ("]" + w));
    ItemsDelimit(l, m, true, u, w);
  }

  lemma {:induction false} ItemsDelimit(l: List<Json>, m: List<Json>, first: bool, u: string, w: string)
    requires ItemsWellFormed(l) && ItemsWellFormed(m)
    requires PrintItems(l, first) + ("]" + u) == PrintItems(m, first) + ("]" + w)
    ensures EquivalentItems(l, m) && u == w
    decreases SizeItems(l), 2
  {
    hide Print, WellFormed, Equivalent, Comma;
    if l.Nil? && m.Nil? {
      assert "" + ("]" + u) == "]" + u && "" + ("]" + w) == "]" + w;
      Cancel("]", u, w);
    } else if l.Nil? || m.Nil? {
      ItemsStart(l, first, u);
      ItemsStart(m, first, w);
      assert false;
    } else {
      var xs, ys := PrintItems(l.tail, false) + ("]" + u), PrintItems(m.tail, false) + ("]" + w);
      Regroup(Comma(first), Print(l.head), PrintItems(l.tail, false), "]" + u);
      Regroup(Comma(first), Print(m.head), PrintItems(m.tail, false), "]" + w);
      Cancel(Comma(first), Print(l.head) + xs, Print(m.head) + ys);
      ItemsFollow(l.tail, u);
      ItemsFollow(m.tail, w);
      PrintDelimits(l.head, m.head, xs, ys);
      ItemsDelimit(l.tail, m.tail, false, u, w);
    }
  }

  lemma ItemsStart(l: List<Json>, first: bool, u: string)
    requires ItemsWellFormed(l)
    ensures (PrintItems(l, first) + ("]" + u))[0] == ']' <==> l.Nil?
  {
    if l.Cons? {
      PrintOpens(l.head);
      hide Print, WellFormed;
      assert PrintItems(l, first)[0] == (if first then Print(l.head)[0] else ',');
    }
  }

  lemma ItemsFollow(l: List<Json>, u: string)
    ensures Follows(PrintItems(l, false) + ("]" + u))
  {
    hide Print;
  }

  lemma ObjectsDelimit(f: List<Field>, g: List<Field>, u: string, w: string)
    requires Distinct(f) && FieldsWellFormed(f) && Distinct(g) && FieldsWellFormed(g)
    requires Print(Obj(f)) + u == Print(Obj(g)) + w
    ensures Equivalent(Obj(f), Obj(g)) && u == w
    decreases SizeFields(f), 3
  {
    var x, y := PrintFields(Sort(f), true), PrintFields(Sort(g), true);
    assert Print(Obj(f)) == "{" + x + "}" && Print(Obj(g)) == "{" + y + "}";
    hide Print, PrintFields, FieldsWellFormed, Sort, Distinct, EquivalentMaps, EquivalentFields, HasKey, Get;
    Regroup("{", x, "}", u);
    Regroup("{", y, "}", w);
    Cancel("{", x + ("}" + u), y + ("}" + w));
    SortKeepsMap(f, "");
    SortKeepsMap(g, "");
    FieldsDelimit(Sort(f), Sort(g), true, u, w);
    SortedFieldsDecide(f, g);
  }

  lemma {:induction false} FieldsDelimit(f: List<Field>, g: List<Field>, first: bool, u: string, w: string)
    requires FieldsWellFormed(f) && FieldsWellFormed(g)
    requires PrintFields(f, first) + ("}" + u) == PrintFields(g, first) + ("}" + w)
    ensures EquivalentFields(f, g) && u == w
    decreases SizeFields(f), 2
  {
    hide PrintField, WellFormed, Equivalent, Comma;
    if f.Nil? && g.Nil? {
      assert "" + ("}" + u) == "}" + u && "" + ("}" + w) == "}" + w;
      Cancel("}", u, w);
    } else if f.Nil? || g.Nil? {
      FieldsStart(f, first, u);
      FieldsStart(g, first, w);
      assert false;
    } else {
      var xs, ys := PrintFields(f.tail, false) + ("}" + u), PrintFields(g.tail, false) + ("}" + w);
      Regroup(Comma(first), PrintField(f.head), PrintFields(f.tail, false), "}" + u);
      Regroup(Comma(first), PrintField(g.head), PrintFields(g.tail, false), "}" + w);
      Cancel(Comma(first), PrintField(f.head) + xs, PrintField(g.head) + ys);
      FieldsFollow(f.tail, u);
      FieldsFollow(g.tail, w);
      FieldDelimits(f.head, g.head, xs, ys);
      FieldsDelimit(f.tail, g.tail, false, u, w);
    }
  }

  lemma FieldDelimits(f: Field, g: Field, u: string, w: string)
    requires WellFormed(f.value) && WellFormed(g.value) && Follows(u) && Follows(w)
    requires PrintField(f) + u == PrintField(g) + w
    ensures f.key == g.key && Equivalent(f.value, g.value) && u == w
    decreases Size(f.value), 2
  {
    hide Print, WellFormed, Equivalent, Quote;
    Regroup(Quote(f.key), ":", Print(f.value), u);
    Regroup(Quote(g.key), ":", Print(g.value), w);
    QuotesDelimit(f.key, g.key, ":" + (Print(f.value) + u), ":" + (Print(g.value) + w));
    Cancel(":", Print(f.value) + u, Print(g.value) + w);
    PrintDelimits(f.value, g.value, u, w);
  }

  lemma FieldsStart(f: List<Field>, first: bool, u: string)
    ensures (PrintFields(f, first) + ("}" + u))[0] == '}' <==> f.Nil?
  {
    if f.Cons? {
      hide Print, Quote;
      StartsQuoted(f.head.key);
      assert PrintFields(f, first)[0] == (if first then '"' else ',');
    }
  }

  lemma FieldsFollow(f: List<Field>, u: string)
    ensures Follows(PrintFields(f, false) + ("}" + u))
  {
    hide PrintField;
  }

  // ---- Equivalent values print alike ----

  lemma {:induction false} EquivalentPrint(a: Json, b: Json)
    requires WellFormed(a) && WellFormed(b) && Equivalent(a, b)
    ensures Print(a) == Print(b)
    decreases Size(a), 1
  {
    if a.Arr? {
      EquivalentItemsPrint(a.items, b.items, true);
    } else if a.Obj? {
      SortedFieldsDecide(a.fields, b.fields);
      SortKeepsMap(a.fields, "");
      SortKeepsMap(b.fields, "");
      EquivalentFieldsPrint(Sort(a.fields), Sort(b.fields), true);
    }
  }

  lemma {:induction false} EquivalentItemsPrint(l: List<Json>, m: List<Json>, first: bool)
    requires ItemsWellFormed(l) && ItemsWellFormed(m) && EquivalentItems(l, m)
    ensures PrintItems(l, first) == PrintItems(m, first)
    decreases SizeItems(l), 2
  {
    hide Print, WellFormed, Equivalent;
    if l.Cons? {
      EquivalentPrint(l.head, m.head);
      EquivalentItemsPrint(l.tail, m.tail, false);
    }
  }

  lemma {:induction false} EquivalentFieldsPrint(f: List<Field>, g: List<Field>, first: bool)
    requires FieldsWellFormed(f) && FieldsWellFormed(g) && EquivalentFields(f, g)
    ensures PrintFields(f, first) == PrintFields(g, first)
    decreases SizeFields(f), 2
  {
    hide Print, WellFormed, Equivalent, Quote;
    if f.Cons? {
      EquivalentPrint(f.head.value, g.head.value);
      EquivalentFieldsPrint(f.tail, g.tail, false);
    }
  }

  /** The canonical text is a complete invariant: two values print alike exactly when they are
      equal as JSON values. */
  lemma CanonicalTextDecides(a: Json, b: Json)
    requires WellFormed(a) && WellFormed(b)
    ensures Print(a) == Print(b) <==> Equivalent(a, b)
  {
    hide Print, Equivalent, WellFormed;
    if Print(a) == Print(b) {
      assert Print(a) + "" == Print(b) + "";
      PrintDelimits(a, b, "", "");
    }
    if Equivalent(a, b) {
      EquivalentPrint(a, b);
    }
  }

  // ---- The writer ----

  class Output {
    var text: string

    constructor ()
      ensures text == ""
    {
      text := "";
    }

    /** write_canonical_json: appends the canonical text to the buffer. */
    method WriteCanonicalJson(v: Json)
      modifies this
      ensures text == old(text) + Print(v)
      decreases Size(v), 0
    {
      hide Sort, Quote, PrintItems, PrintFields;
      match v
      case Null => text := text + "null";
      case Bool(b) => text := text + if b then "true" else "false";
      case Number(t) => text := text + t;
      case Str(s) => text := text + Quote(s);
      case Arr(items) =>
        text := text + "[";
        WriteItems(items);
        text := text + "]";
      case Obj(fields) =>
        text := text + "{";
        WriteEntries(Sort(fields));
        text := text + "}";
    }

    method WriteItems(items: List<Json>)
      modifies this
      ensures text == old(text) + PrintItems(items, true)
      decreases SizeItems(items), 1
    {
      hide Print, Comma;
      var rest, first := items, true;
      while rest.Cons?
        invariant SizeItems(rest) <= SizeItems(items)
        invariant text + PrintItems(rest, first) == old(text) + PrintItems(items, true)
        decreases rest
      {
        ghost var was := text;
        if !first { text := text + ","; }
        Separated(was, text, first);
        WriteCanonicalJson(rest.head);
        Regroup4(was, Comma(first), Print(rest.head), PrintItems(rest.tail, false));
        rest, first := rest.tail, false;
      }
      assert text + "" == text;
    }

    method WriteEntries(entries: List<Field>)
      modifies this
      ensures text == old(text) + PrintFields(entries, true)
      decreases SizeFields(entries), 1
    {
      hide Print, Comma, Quote;
      var rest, first := entries, true;
      while rest.Cons?
        invariant SizeFields(rest) <= SizeFields(entries)
        invariant text + PrintFields(rest, first) == old(text) + PrintFields(entries, true)
        decreases rest
      {
        ghost var was := text;
        if !first { text := text + ","; }
        Separated(was, text, first);
        WriteEntry(rest.head);
        Regroup4(was, Comma(first), PrintField(rest.head), PrintFields(rest.tail, false));
        rest, first := rest.tail, false;
      }
      assert text + "" == text;
    }

    method WriteEntry(entry: Field)
      modifies this
      ensures text == old(text) + PrintField(entry)
      decreases Size(entry.value), 1
    {
      hide Print, Quote;
      ghost var was := text;
      text := text + Quote(entry.key);
      text := text + ":";
      WriteCanonicalJson(entry.value);
      Regroup4(was, Quote(entry.key), ":", Print(entry.value));
    }
  }

  lemma Separated(was: string, text: string, first: bool)
    requires text == if first then was else was + ","
    ensures text == was + Comma(first)
  {}

  lemma Regroup4(a: string, b: string, c: string, d: string)
    ensures a + b + c + d == a + (b + c + d)
  {}
}
