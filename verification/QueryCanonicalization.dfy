/**
 The query part of URL canonicalization (crates/erabi-domain/src/canonicalization.rs):
 the raw pairs between `&` are sorted by decoded name and then by raw text, pairs the
 policy drops are removed, and a query with nothing left is no query.  `name` stands
 for the form-urlencoded decoding of a pair's name.
 */
module QueryCanonicalization {
  import opened Text
  import opened Wrappers

  const CANONICALIZATION_POLICY_VERSION: nat := 1

  datatype Policy = Policy(version: nat, keep: set<string>, drop: set<string>)
  datatype PolicyError = UnsupportedVersion | BadRule | RulesOverlap

  datatype Decision =
    | QuerySorted
    | TrackingParameterRemoved(parameter: string)
    | CustomParameterDropped(parameter: string)
    | ExplicitParameterKept(parameter: string)

  type Namer = string -> string

  // ---- The policy ----

  predicate ValidName(s: string) {
    s != "" && forall c <- s :: !Control(c) && c != '&' && c != '=' && c != '#'
  }

  function Validate(p: Policy): Option<PolicyError> {
    if p.version != CANONICALIZATION_POLICY_VERSION then Some(UnsupportedVersion)
    else if exists s <- p.keep + p.drop :: !ValidName(s) then Some(BadRule)
    else if p.keep * p.drop != {} then Some(RulesOverlap)
    else None
  }

  predicate Tracking(parameter: string) {
    "utm_" <= parameter || parameter == "fbclid" || parameter == "gclid"
  }

  /** An explicit rule wins over the tracking default. */
  predicate Kept(p: Policy, parameter: string) {
    parameter in p.keep || (parameter !in p.drop && !Tracking(parameter))
  }

  function Explain(p: Policy, parameter: string): seq<Decision> {
    if parameter in p.keep then [ExplicitParameterKept(parameter)]
    else if parameter in p.drop then [CustomParameterDropped(parameter)]
    else if Tracking(parameter) then [TrackingParameterRemoved(parameter)]
    else []
  }

  // ---- Sorting pairs ----

  predicate PairLess(a: string, b: string, name: Namer) {
    KeyLess(name(a), name(b)) || (name(a) == name(b) && KeyLess(a, b))
  }

  function InsertPair(x: string, s: seq<string>, name: Namer): seq<string> {
    if s == [] || !PairLess(s[0], x, name) then [x] + s else [s[0]] + InsertPair(x, s[1..], name)
  }

  function SortPairs(s: seq<string>, name: Namer): seq<string> {
    if s == [] then [] else InsertPair(s[0], SortPairs(s[1..], name), name)
  }

  predicate Ordered(s: seq<string>, name: Namer) {
    forall i, j | 0 <= i < j < |s| :: !PairLess(s[j], s[i], name)
  }

  lemma PairTotal(a: string, b: string, name: Namer)
    ensures PairLess(a, b, name) || PairLess(b, a, name) || a == b
    ensures !(PairLess(a, b, name) && PairLess(b, a, name)) && !PairLess(a, a, name)
  {
    KeyTrichotomy(name(a), name(b));
    KeyTrichotomy(a, b);
    KeyTrichotomy(a, a);
    KeyTrichotomy(name(a), name(a));
  }

  lemma PairTransitive(a: string, b: string, c: string, name: Namer)
    requires PairLess(a, b, name) && PairLess(b, c, name)
    ensures PairLess(a, c, name)
  {
    if KeyLess(name(a), name(b)) && KeyLess(name(b), name(c)) { KeyTransitive(name(a), name(b), name(c)); }
    if KeyLess(a, b) && KeyLess(b, c) { KeyTransitive(a, b, c); }
  }

  lemma {:induction false} InsertIsPermutation(x: string, s: seq<string>, name: Namer)
    ensures multiset(InsertPair(x, s, name)) == multiset(s) + multiset{x}
  {
    if s != [] && PairLess(s[0], x, name) {
      InsertIsPermutation(x, s[1..], name);
      assert s == [s[0]] + s[1..];
    }
  }

  lemma {:induction false} SortIsPermutation(s: seq<string>, name: Namer)
    ensures multiset(SortPairs(s, name)) == multiset(s)
  {
    if s != [] {
      SortIsPermutation(s[1..], name);
      InsertIsPermutation(s[0], SortPairs(s[1..], name), name);
      assert s == [s[0]] + s[1..];
    }
  }

  lemma {:induction false} InsertOrders(x: string, s: seq<string>, name: Namer)
    requires Ordered(s, name)
    ensures Ordered(InsertPair(x, s, name), name)
  {
    hide PairLess;
    if s == [] {
    } else if PairLess(s[0], x, name) {
      assert Ordered(s[1..], name);
      InsertOrders(x, s[1..], name);
      InsertIsPermutation(x, s[1..], name);
      var rest := InsertPair(x, s[1..], name);
      forall k | 0 <= k < |rest| ensures !PairLess(rest[k], s[0], name) {
        assert rest[k] in multiset(s[1..]) + multiset{x};
        PairTotal(s[0], x, name);
      }
    } else {
      forall k | 0 <= k < |s| ensures !PairLess(s[k], x, name) {
        if PairLess(s[k], x, name) {
          PairTotal(s[0], x, name);
          PairTotal(s[0], s[k], name);
          if s[0] != x && s[0] != s[k] {
            PairTransitive(s[k], x, s[0], name);
          }
        }
      }
    }
  }

  lemma {:induction false} SortOrders(s: seq<string>, name: Namer)
    ensures Ordered(SortPairs(s, name), name)
  {
    if s != [] {
      SortOrders(s[1..], name);
      InsertOrders(s[0], SortPairs(s[1..], name), name);
    }
  }

  lemma HeadIsLeast(s: seq<string>, x: string, name: Namer)
    requires Ordered(s, name) && x in s
    ensures !PairLess(x, s[0], name)
  {
    PairTotal(x, x, name);
    hide PairLess;
    var i :| 0 <= i < |s| && s[i] == x;
  }

  lemma SameRest(a: seq<string>, b: seq<string>)
    requires a != [] && b != [] && a[0] == b[0] && multiset(a) == multiset(b)
    ensures multiset(a[1..]) == multiset(b[1..])
  {
    assert a == [a[0]] + a[1..] && b == [b[0]] + b[1..];
    assert multiset(a[1..]) == multiset(a) - multiset{a[0]};
    assert multiset(b[1..]) == multiset(b) - multiset{b[0]};
  }

  /** Raw text breaks every tie, so there is only one order for a multiset of pairs. */
  lemma {:induction false} OrderIsUnique(a: seq<string>, b: seq<string>, name: Namer)
    requires Ordered(a, name) && Ordered(b, name) && multiset(a) == multiset(b)
    ensures a == b
  {
    assert |a| == |multiset(a)| == |multiset(b)| == |b|;
    if a != [] {
      assert a[0] in multiset(b) && b[0] in multiset(a);
      HeadIsLeast(a, b[0], name);
      HeadIsLeast(b, a[0], name);
      PairTotal(a[0], b[0], name);
      SameRest(a, b);
      hide PairLess;
      OrderIsUnique(a[1..], b[1..], name);
      assert a == [a[0]] + a[1..] && b == [b[0]] + b[1..];
    }
  }

  // ---- Filtering ----

  function Retain(p: Policy, s: seq<string>, name: Namer): seq<string> {
    if s == [] then [] else (if Kept(p, name(s[0])) then [s[0]] else []) + Retain(p, s[1..], name)
  }

  lemma {:induction false} RetainCounts(p: Policy, s: seq<string>, name: Namer, x: string)
    ensures multiset(Retain(p, s, name))[x] == if Kept(p, name(x)) then multiset(s)[x] else 0
  {
    hide Kept;
    if s != [] {
      RetainCounts(p, s[1..], name, x);
      assert s == [s[0]] + s[1..];
    }
  }

  lemma {:induction false} RetainOrders(p: Policy, s: seq<string>, name: Namer)
    requires Ordered(s, name)
    ensures Ordered(Retain(p, s, name), name)
  {
    hide Kept, PairLess;
    if s != [] {
      assert Ordered(s[1..], name);
      RetainOrders(p, s[1..], name);
      var rest := Retain(p, s[1..], name);
      forall k | 0 <= k < |rest| ensures !PairLess(rest[k], s[0], name) {
        assert rest[k] in multiset(rest);
        RetainCounts(p, s[1..], name, rest[k]);
        assert rest[k] in s[1..];
      }
    }
  }

  lemma {:induction false} RetainAll(p: Policy, s: seq<string>, name: Namer)
    requires forall x <- s :: Kept(p, name(x))
    ensures Retain(p, s, name) == s
  {
    hide Kept;
    if s != [] {
      assert s[0] in s && forall x <- s[1..] :: x in s;
      RetainAll(p, s[1..], name);
      assert s == [s[0]] + s[1..];
    }
  }

  // ---- Joining ----

  function Join(parts: seq<string>, sep: char): string {
    if parts == [] then "" else if |parts| == 1 then parts[0] else parts[0] + [sep] + Join(parts[1..], sep)
  }

  lemma {:induction false} SplitJoin(parts: seq<string>, sep: char)
    requires parts != [] && forall x <- parts :: sep !in x
    ensures Split(Join(parts, sep), sep) == parts
  {
    assert parts[0] in parts;
    if |parts| == 1 {
      SplitPiece(parts[0], "", sep);
    } else {
      assert forall x <- parts[1..] :: x in parts;
      SplitJoin(parts[1..], sep);
      SplitPiece(parts[0], Join(parts[1..], sep), sep);
    }
  }

  // ---- Canonical queries ----

  /** The canonical query: none if there was none or nothing is kept. */
  function Canonical(p: Policy, name: Namer, query: Option<string>): Option<string> {
    if query.None? then None
    else
      var kept := Retain(p, SortPairs(Split(query.value, '&'), name), name);
      if kept == [] then None else Some(Join(kept, '&'))
  }

  // The pairs of a query that the policy keeps.
  function KeptPairs(p: Policy, name: Namer, query: Option<string>): multiset<string> {
    if query.None? then multiset{} else multiset(Retain(p, Split(query.value, '&'), name))
  }

  lemma RetainSorted(p: Policy, s: seq<string>, name: Namer)
    ensures Ordered(Retain(p, SortPairs(s, name), name), name)
    ensures multiset(Retain(p, SortPairs(s, name), name)) == multiset(Retain(p, s, name))
  {
    SortOrders(s, name);
    RetainOrders(p, SortPairs(s, name), name);
    SortIsPermutation(s, name);
    forall x ensures multiset(Retain(p, SortPairs(s, name), name))[x] == multiset(Retain(p, s, name))[x] {
      RetainCounts(p, SortPairs(s, name), name, x);
      RetainCounts(p, s, name, x);
    }
  }

  lemma RetainedLack(p: Policy, raw: string, name: Namer)
    ensures forall x <- Retain(p, SortPairs(Split(raw, '&'), name), name) :: '&' !in x && Kept(p, name(x))
  {
    hide Kept;
    PiecesLack(raw, '&');
    var s := Split(raw, '&');
    SortIsPermutation(s, name);
    var kept := Retain(p, SortPairs(s, name), name);
    forall x <- kept ensures '&' !in x && Kept(p, name(x)) {
      assert x in multiset(kept);
      RetainCounts(p, SortPairs(s, name), name, x);
      assert x in multiset(s);
    }
  }

  /** Two queries have the same canonical form exactly when the policy keeps the same pairs of
      them, each as often: order, dropped pairs and tracking pairs play no part. */
  lemma SameCanonicalExactly(p: Policy, name: Namer, q: Option<string>, r: Option<string>)
    ensures Canonical(p, name, q) == Canonical(p, name, r) <==> KeptPairs(p, name, q) == KeptPairs(p, name, r)
  {
    hide Retain, SortPairs, Split, Join, Ordered;
    KeptDecides(p, name, q);
    KeptDecides(p, name, r);
    var x, y := SortedKept(p, name, q), SortedKept(p, name, r);
    if KeptPairs(p, name, q) == KeptPairs(p, name, r) {
      OrderIsUnique(x, y, name);
    }
  }

  // The kept pairs in canonical order.
  function SortedKept(p: Policy, name: Namer, q: Option<string>): seq<string> {
    if q.None? then [] else Retain(p, SortPairs(Split(q.value, '&'), name), name)
  }

  lemma KeptDecides(p: Policy, name: Namer, q: Option<string>)
    ensures Ordered(SortedKept(p, name, q), name)
    ensures multiset(SortedKept(p, name, q)) == KeptPairs(p, name, q)
    ensures Canonical(p, name, q) == if SortedKept(p, name, q) == [] then None else Some(Join(SortedKept(p, name, q), '&'))
    ensures Canonical(p, name, q).Some? ==> Split(Canonical(p, name, q).value, '&') == SortedKept(p, name, q)
  {
    hide Retain, SortPairs, Split, Join, Kept;
    if q.Some? {
      RetainSorted(p, Split(q.value, '&'), name);
      RetainedLack(p, q.value, name);
      var kept := SortedKept(p, name, q);
      if kept != [] {
        SplitJoin(kept, '&');
      }
    }
  }

  /** Canonicalizing a canonical query changes nothing. */
  lemma Idempotent(p: Policy, name: Namer, q: Option<string>)
    ensures Canonical(p, name, Canonical(p, name, q)) == Canonical(p, name, q)
  {
    var c := Canonical(p, name, q);
    if c.Some? {
      KeptDecides(p, name, q);
      var kept := SortedKept(p, name, q);
      RetainedLack(p, q.value, name);
      hide Retain, SortPairs, Split, Join, Kept, Ordered;
      RetainAll(p, kept, name);
      SameCanonicalExactly(p, name, c, q);
    }
  }

  /** The order of the pairs does not matter. */
  lemma PermutationInvariant(p: Policy, name: Namer, q: string, r: string)
    requires multiset(Split(q, '&')) == multiset(Split(r, '&'))
    ensures Canonical(p, name, Some(q)) == Canonical(p, name, Some(r))
  {
    var s, t := Split(q, '&'), Split(r, '&');
    hide Split, Retain;
    forall x ensures multiset(Retain(p, s, name))[x] == multiset(Retain(p, t, name))[x] {
      RetainCounts(p, s, name, x);
      RetainCounts(p, t, name, x);
    }
    SameCanonicalExactly(p, name, Some(q), Some(r));
  }

  /** A pair the policy drops may be inserted anywhere, even where there was no query. */
  lemma DroppedPairsDoNotMatter(p: Policy, name: Namer, pairs: seq<string>, i: nat, x: string)
    requires i <= |pairs| && !Kept(p, name(x)) && '&' !in x && forall y <- pairs :: '&' !in y
    ensures var before := if pairs == [] then None else Some(Join(pairs, '&'));
            Canonical(p, name, Some(Join(pairs[..i] + [x] + pairs[i..], '&'))) == Canonical(p, name, before)
  {
    var before := if pairs == [] then None else Some(Join(pairs, '&'));
    var more := pairs[..i] + [x] + pairs[i..];
    assert pairs == pairs[..i] + pairs[i..];
    hide Join, Split, Retain, Kept, Canonical;
    SplitJoin(more, '&');
    if pairs != [] { SplitJoin(pairs, '&'); }
    RetainWithout(p, pairs, i, x, name);
    if pairs == [] { RetainNone(p, name); }
    SameCanonicalExactly(p, name, Some(Join(more, '&')), before);
  }

  /** An empty query is not the same as none: its one empty pair is always kept, for no valid
      rule names it. */
  lemma EmptyQueryStays(p: Policy, name: Namer)
    requires Validate(p).None? && name("") == ""
    ensures Canonical(p, name, Some("")) == Some("") != Canonical(p, name, None)
  {
    assert !ValidName("");
    assert "" in p.drop ==> "" in p.keep + p.drop;
    assert !Tracking("");
    assert Split("", '&') == [""];
    assert SortPairs([""], name) == [""] by { assert [""][1..] == []; }
    assert Retain(p, [""], name) == [""] by { assert [""][1..] == []; }
  }

  lemma RetainWithout(p: Policy, pairs: seq<string>, i: nat, x: string, name: Namer)
    requires i <= |pairs| && !Kept(p, name(x))
    ensures multiset(Retain(p, pairs[..i] + [x] + pairs[i..], name)) == multiset(Retain(p, pairs, name))
  {
    var more := pairs[..i] + [x] + pairs[i..];
    assert pairs == pairs[..i] + pairs[i..];
    assert multiset(more) == multiset(pairs) + multiset{x};
    hide Retain, Kept;
    forall y ensures multiset(Retain(p, more, name))[y] == multiset(Retain(p, pairs, name))[y] {
      RetainCounts(p, more, name, y);
      RetainCounts(p, pairs, name, y);
    }
  }

  lemma RetainNone(p: Policy, name: Namer)
    ensures Retain(p, [], name) == [] && ExplainAll(p, [], name) == []
  {}

  lemma {:induction false} Snoc(p: Policy, s: seq<string>, i: nat, name: Namer)
    requires i < |s|
    ensures Retain(p, s[..i + 1], name) == Retain(p, s[..i], name) + (if Kept(p, name(s[i])) then [s[i]] else [])
    ensures ExplainAll(p, s[..i + 1], name) == ExplainAll(p, s[..i], name) + Explain(p, name(s[i]))
  {
    hide Kept, Explain;
    if i == 0 {
      assert s[..1] == [s[0]];
    } else {
      assert s[..i + 1][1..] == s[1..][..i] && s[..i][1..] == s[1..][..i - 1];
      Snoc(p, s[1..], i - 1, name);
      Regroup(Explain(p, name(s[0])), ExplainAll(p, s[1..][..i - 1], name), Explain(p, name(s[i])));
    }
  }

  lemma Regroup<T>(a: seq<T>, b: seq<T>, c: seq<T>)
    ensures (a + b) + c == a + (b + c)
  {}

  // ---- The program ----

  function ExplainAll(p: Policy, s: seq<string>, name: Namer): seq<Decision> {
    if s == [] then [] else Explain(p, name(s[0])) + ExplainAll(p, s[1..], name)
  }

  /** The query part of canonicalize, with its explanation. */
  method CanonicalizeQuery(p: Policy, name: Namer, query: Option<string>)
    returns (r: Option<string>, decisions: seq<Decision>)
    requires Validate(p).None?
    ensures r == Canonical(p, name, query)
    ensures var pairs := Split(if query.Some? then query.value else "", '&');
            decisions == (if Ordered(pairs, name) then [] else [QuerySorted]) + ExplainAll(p, SortPairs(pairs, name), name)
  {
    hide Ordered, SortPairs, Split, Tracking, Join, Validate, Retain, ExplainAll;
    RetainNone(p, name);
    var rawQuery := if query.Some? then query.value else "";
    var original := Split(rawQuery, '&');
    var sorted := SortPairs(original, name);
    OrderedIffSorted(original, name);
    decisions := if sorted != original then [QuerySorted] else [];
    ghost var first := decisions;
    assert first == first + [];
    var retained: seq<string> := [];
    for i := 0 to |sorted|
      invariant retained == Retain(p, sorted[..i], name)
      invariant decisions == first + ExplainAll(p, sorted[..i], name)
    {
      Snoc(p, sorted, i, name);
      ghost var was := decisions;
      var parameter := name(sorted[i]);
      var tracking := Tracking(parameter);
      if parameter in p.keep {
        decisions := decisions + [ExplicitParameterKept(parameter)];
        retained := retained + [sorted[i]];
      } else if parameter in p.drop {
        decisions := decisions + [CustomParameterDropped(parameter)];
      } else if tracking {
        decisions := decisions + [TrackingParameterRemoved(parameter)];
      } else {
        retained := retained + [sorted[i]];
      }
      assert decisions == was + Explain(p, parameter);
      Regroup(first, ExplainAll(p, sorted[..i], name), Explain(p, parameter));
    }
    assert sorted[..|sorted|] == sorted;
    if query.None? || (rawQuery == "" && retained == []) {
      r := None;
    } else if retained == [] {
      r := None;
    } else {
      r := Some(Join(retained, '&'));
    }
  }

  lemma OrderedIffSorted(s: seq<string>, name: Namer)
    ensures SortPairs(s, name) == s <==> Ordered(s, name)
  {
    SortOrders(s, name);
    SortIsPermutation(s, name);
    if Ordered(s, name) {
      OrderIsUnique(SortPairs(s, name), s, name);
    }
  }
}
