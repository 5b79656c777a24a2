/**
 Canonical JSON behind the snapshot hashes (crates/erabi-domain/src/crawl_snapshot.rs,
 write_canonical_json): objects printed with their entries sorted by key, strings
 escaped as serde_json does (section 7 of RFC 8259), numbers by their text.  The
 printer is injective up to the order of object entries, which it ignores.
 */
module CanonicalJson {
  import opened Text

  datatype List<T> = Nil | Cons(head: T, tail: List<T>)

  datatype Field = Field(key: string, value: Json)

  // A number is identified with its text, which serde_json makes unique.
  datatype Json =
    | Null | Bool(b: bool) | Number(text: string) | Str(s: string)
    | Arr(items: List<Json>) | Obj(fields: List<Field>)

  // ---- Values ----

  function Size(v: Json): nat {
    match v
    case Arr(items) => 1 + SizeItems(items)
    case Obj(fields) => 1 + SizeFields(fields)
    case _ => 1
  }

  function SizeItems(l: List<Json>): nat {
    match l case Nil => 0 case Cons(h, t) => 1 + Size(h) + SizeItems(t)
  }

  function SizeFields(f: List<Field>): nat {
    match f case Nil => 0 case Cons(h, t) => 1 + Size(h.value) + SizeFields(t)
  }

  predicate HasKey(f: List<Field>, k: string) {
    f.Cons? && (f.head.key == k || HasKey(f.tail, k))
  }

  function Get(f: List<Field>, k: string): (v: Json)
    requires HasKey(f, k)
    ensures Size(v) < SizeFields(f)
  {
    if f.head.key == k then f.head.value else Get(f.tail, k)
  }

  predicate Distinct(f: List<Field>) {
    f.Cons? ==> !HasKey(f.tail, f.head.key) && Distinct(f.tail)
  }

  predicate Digit(c: char) { '0' <= c <= '9' }
  predicate NumberChar(c: char) { Digit(c) || c == '-' || c == '+' || c == '.' || c == 'e' || c == 'E' }

  predicate NumberText(s: string) {
    s != "" && (Digit(s[0]) || s[0] == '-') && forall i | 0 <= i < |s| :: NumberChar(s[i])
  }

  /** A value as serde_json builds it: number texts, and keys that occur once per object. */
  predicate WellFormed(v: Json) {
    match v
    case Number(text) => NumberText(text)
    case Arr(items) => ItemsWellFormed(items)
    case Obj(fields) => Distinct(fields) && FieldsWellFormed(fields)
    case _ => true
  }

  predicate ItemsWellFormed(l: List<Json>) {
    l.Cons? ==> WellFormed(l.head) && ItemsWellFormed(l.tail)
  }

  predicate FieldsWellFormed(f: List<Field>) {
    f.Cons? ==> WellFormed(f.head.value) && FieldsWellFormed(f.tail)
  }

  /** Equality of JSON values: an object is the map from its keys to its values. */
  ghost predicate Equivalent(a: Json, b: Json)
    decreases Size(a)
  {
    match a
    case Arr(l) => b.Arr? && EquivalentItems(l, b.items)
    case Obj(f) => b.Obj? && EquivalentMaps(f, b.fields)
    case _ => a == b
  }

  ghost predicate EquivalentMaps(f: List<Field>, g: List<Field>)
    decreases SizeFields(f)
  {
    && (forall k: string :: HasKey(f, k) <==> HasKey(g, k))
    && (forall k: string | HasKey(f, k) && HasKey(g, k) :: Equivalent(Get(f, k), Get(g, k)))
  }

  ghost predicate EquivalentItems(l: List<Json>, m: List<Json>)
    decreases SizeItems(l)
  {
    if l.Nil? then m.Nil? else m.Cons? && Equivalent(l.head, m.head) && EquivalentItems(l.tail, m.tail)
  }

  // ---- Sorting by key ----

  function Insert(e: Field, f: List<Field>): (r: List<Field>)
    ensures SizeFields(r) == 1 + Size(e.value) + SizeFields(f)
  {
    if f.Nil? || !KeyLess(f.head.key, e.key) then Cons(e, f) else Cons(f.head, Insert(e, f.tail))
  }

  function Sort(f: List<Field>): (r: List<Field>)
    ensures SizeFields(r) == SizeFields(f)
  {
    if f.Nil? then Nil else Insert(f.head, Sort(f.tail))
  }

  predicate Sorted(f: List<Field>) {
    f.Cons? && f.tail.Cons? ==> KeyLess(f.head.key, f.tail.head.key) && Sorted(f.tail)
  }

  lemma {:induction false} InsertIsMember(e: Field, f: List<Field>, k: string)
    ensures HasKey(Insert(e, f), k) <==> k == e.key || HasKey(f, k)
    ensures !HasKey(f, e.key) && HasKey(Insert(e, f), k) ==>
              Get(Insert(e, f), k) == if k == e.key then e.value else Get(f, k)
    ensures WellFormed(e.value) && FieldsWellFormed(f) ==> FieldsWellFormed(Insert(e, f))
  {
    if f.Cons? && KeyLess(f.head.key, e.key) {
      InsertIsMember(e, f.tail, k);
    }
  }

  /** Sorting keeps the map an object stands for. */
  lemma {:induction false} SortKeepsMap(f: List<Field>, k: string)
    requires Distinct(f)
    ensures HasKey(Sort(f), k) <==> HasKey(f, k)
    ensures HasKey(f, k) ==> Get(Sort(f), k) == Get(f, k)
    ensures FieldsWellFormed(f) ==> FieldsWellFormed(Sort(f))
  {
    if f.Cons? {
      SortKeepsMap(f.tail, k);
      SortKeepsMap(f.tail, f.head.key);
      InsertIsMember(f.head, Sort(f.tail), k);
    }
  }

  lemma {:induction false} InsertSorts(e: Field, f: List<Field>)
    requires Sorted(f) && !HasKey(f, e.key)
    ensures Sorted(Insert(e, f))
  {
    if f.Cons? {
      KeyTrichotomy(f.head.key, e.key);
      if KeyLess(f.head.key, e.key) {
        InsertSorts(e, f.tail);
      }
    }
  }

  lemma {:induction false} SortSorts(f: List<Field>)
    requires Distinct(f)
    ensures Sorted(Sort(f))
  {
    if f.Cons? {
      SortSorts(f.tail);
      SortKeepsMap(f.tail, f.head.key);
      InsertSorts(f.head, Sort(f.tail));
    }
  }

  lemma {:induction false} HeadIsLeast(f: List<Field>, k: string)
    requires Sorted(f) && f.Cons? && HasKey(f.tail, k)
    ensures KeyLess(f.head.key, k)
  {
    if f.tail.head.key != k {
      HeadIsLeast(f.tail, k);
      KeyTransitive(f.head.key, f.tail.head.key, k);
    }
  }

  lemma {:induction false} SortedIsDistinct(f: List<Field>)
    requires Sorted(f)
    ensures Distinct(f)
  {
    if f.Cons? {
      if HasKey(f.tail, f.head.key) {
        HeadIsLeast(f, f.head.key);
        KeyTrichotomy(f.head.key, f.head.key);
      }
      SortedIsDistinct(f.tail);
    }
  }

  predicate SameKeys(f: List<Field>, g: List<Field>) {
    if f.Nil? then g.Nil? else g.Cons? && f.head.key == g.head.key && SameKeys(f.tail, g.tail)
  }

  /** Two sorted lists with the same set of keys list them in the same order. */
  lemma {:induction false} SortedKeysAgree(f: List<Field>, g: List<Field>)
    requires Sorted(f) && Sorted(g) && forall k: string :: HasKey(f, k) <==> HasKey(g, k)
    ensures SameKeys(f, g)
  {
    if f.Nil? {
      if g.Cons? { assert HasKey(g, g.head.key); }
    } else {
      assert HasKey(f, f.head.key);
      assert HasKey(g, g.head.key);
      var a, b := f.head.key, g.head.key;
      KeyTrichotomy(a, b);
      if a != b {
        HeadIsLeast(f, b);
        HeadIsLeast(g, a);
      }
      forall k: string ensures HasKey(f.tail, k) <==> HasKey(g.tail, k) {
        SortedIsDistinct(f);
        SortedIsDistinct(g);
        assert HasKey(f, k) <==> HasKey(g, k);
      }
      SortedKeysAgree(f.tail, g.tail);
    }
  }

  // Values equivalent place by place, under the same keys.
  ghost predicate EquivalentFields(f: List<Field>, g: List<Field>) {
    if f.Nil? then g.Nil?
    else g.Cons? && f.head.key == g.head.key && Equivalent(f.head.value, g.head.value) && EquivalentFields(f.tail, g.tail)
  }

  lemma {:induction false} FieldsByPlace(f: List<Field>, g: List<Field>)
    requires SameKeys(f, g) && Distinct(f) && Distinct(g)
    ensures EquivalentMaps(f, g) <==> EquivalentFields(f, g)
  {
    hide Equivalent;
    SameKeysSameSet(f, g);
    if EquivalentFields(f, g) {
      forall k: string | HasKey(f, k) && HasKey(g, k) ensures Equivalent(Get(f, k), Get(g, k)) {
        PlaceGivesValue(f, g, k);
      }
    }
    if EquivalentMaps(f, g) {
      ValuesGivePlaces(f, g);
    }
  }

  // Equivalence of maps depends only on the maps.
  lemma SameMaps(f: List<Field>, g: List<Field>, s: List<Field>, t: List<Field>)
    requires EquivalentMaps(f, g)
    requires forall k: string :: (HasKey(s, k) <==> HasKey(f, k)) && (HasKey(f, k) ==> Get(s, k) == Get(f, k))
    requires forall k: string :: (HasKey(t, k) <==> HasKey(g, k)) && (HasKey(g, k) ==> Get(t, k) == Get(g, k))
    ensures EquivalentMaps(s, t)
  {
    hide Equivalent;
    forall k: string | HasKey(s, k) && HasKey(t, k) ensures Equivalent(Get(s, k), Get(t, k)) {
      assert HasKey(f, k) && HasKey(g, k);
    }
  }

  lemma {:induction false} SameKeysSameSet(f: List<Field>, g: List<Field>)
    requires SameKeys(f, g)
    ensures forall k: string :: HasKey(f, k) <==> HasKey(g, k)
  {
    if f.Cons? {
      SameKeysSameSet(f.tail, g.tail);
    }
  }

  lemma {:induction false} PlaceGivesValue(f: List<Field>, g: List<Field>, k: string)
    requires EquivalentFields(f, g) && HasKey(f, k) && HasKey(g, k)
    ensures Equivalent(Get(f, k), Get(g, k))
  {
    hide Equivalent;
    if f.head.key != k {
      PlaceGivesValue(f.tail, g.tail, k);
    }
  }

  lemma {:induction false} ValuesGivePlaces(f: List<Field>, g: List<Field>)
    requires SameKeys(f, g) && Distinct(f) && Distinct(g)
    requires forall k: string | HasKey(f, k) && HasKey(g, k) :: Equivalent(Get(f, k), Get(g, k))
    ensures EquivalentFields(f, g)
  {
    hide Equivalent;
    if f.Cons? {
      assert HasKey(f, f.head.key) && HasKey(g, f.head.key);
      forall k: string | HasKey(f.tail, k) && HasKey(g.tail, k) ensures Equivalent(Get(f.tail, k), Get(g.tail, k)) {
        assert HasKey(f, k) && HasKey(g, k);
      }
      ValuesGivePlaces(f.tail, g.tail);
    }
  }

  /** Objects are equivalent exactly when their sorted fields agree place by place. */
  lemma SortedFieldsDecide(f: List<Field>, g: List<Field>)
    requires Distinct(f) && Distinct(g)
    ensures EquivalentMaps(f, g) <==> EquivalentFields(Sort(f), Sort(g))
  {
    var s, t := Sort(f), Sort(g);
    SortSorts(f);
    SortSorts(g);
    SortedIsDistinct(s);
    SortedIsDistinct(t);
    hide Equivalent, EquivalentMaps, EquivalentFields, Sort, Sorted, HasKey, Get, SameKeys, Distinct;
    SortKeepsAll(f);
    SortKeepsAll(g);
    if EquivalentMaps(f, g) {
      SameMaps(f, g, s, t);
      KeysOfEquivalent(s, t);
      SortedKeysAgree(s, t);
      FieldsByPlace(s, t);
    }
    if EquivalentFields(s, t) {
      PlacesHaveSameKeys(s, t);
      FieldsByPlace(s, t);
      SameMaps(s, t, f, g);
    }
  }

  lemma SortKeepsAll(f: List<Field>)
    requires Distinct(f)
    ensures forall k: string :: (HasKey(Sort(f), k) <==> HasKey(f, k)) && (HasKey(f, k) ==> Get(Sort(f), k) == Get(f, k))
  {
    forall k: string
      ensures (HasKey(Sort(f), k) <==> HasKey(f, k)) && (HasKey(f, k) ==> Get(Sort(f), k) == Get(f, k))
    {
      SortKeepsMap(f, k);
    }
  }

  lemma KeysOfEquivalent(f: List<Field>, g: List<Field>)
    requires EquivalentMaps(f, g)
    ensures forall k: string :: HasKey(f, k) <==> HasKey(g, k)
  {}

  lemma {:induction false} PlacesHaveSameKeys(f: List<Field>, g: List<Field>)
    requires EquivalentFields(f, g)
    ensures SameKeys(f, g)
  {
    hide Equivalent;
    if f.Cons? {
      PlacesHaveSameKeys(f.tail, g.tail);
    }
  }
}
