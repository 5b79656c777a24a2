/**
 What a canonicalization policy means for the pairs of a query: which rules are valid, which
 pairs are left, in which order, and how every removed pair is accounted for.
 */
module QueryPolicy {
  import opened QueryCanonicalization
  import opened Text
  import opened Wrappers

  // ---- Valid rules ----

  /** A name that can stand in a query: not empty, no control character and no separator. */
  predicate NameOk(s: string) {
    s != "" && forall i | 0 <= i < |s| ::
      ' ' <= s[i] && !('\U{007F}' <= s[i] <= '\U{009F}') && s[i] !in ['&', '=', '#']
  }

  lemma NamesDecided(s: string)
    ensures ValidName(s) <==> NameOk(s)
  {
    if ValidName(s) {
      forall i | 0 <= i < |s| ensures ' ' <= s[i] && !('\U{007F}' <= s[i] <= '\U{009F}') && s[i] !in ['&', '=', '#'] {
        assert s[i] in s;
      }
    }
  }

  /** A policy is valid exactly when it is of version 1, its rules name parameters that a query can
      have, and none is kept and dropped; the first of these that fails is reported. */
  lemma ValidExactly(p: Policy)
    ensures Validate(p) ==
              if p.version != 1 then Some(UnsupportedVersion)
              else if exists s: string :: (s in p.keep || s in p.drop) && !NameOk(s) then Some(BadRule)
              else if exists s: string :: s in p.keep && s in p.drop then Some(RulesOverlap)
              else None
  {
    forall s: string ensures ValidName(s) <==> NameOk(s) { NamesDecided(s); }
    hide ValidName, NameOk;
    assert p.keep * p.drop != {} <==> exists s: string :: s in p.keep && s in p.drop by {
      if p.keep * p.drop != {} { var s :| s in p.keep * p.drop; }
      if s: string :| s in p.keep && s in p.drop { assert s in p.keep * p.drop; }
    }
    assert (exists s <- p.keep + p.drop :: !ValidName(s)) <==> exists s: string :: (s in p.keep || s in p.drop) && !NameOk(s) by {
      if s: string :| (s in p.keep || s in p.drop) && !NameOk(s) { assert s in p.keep + p.drop; }
    }
  }

  // ---- Which pairs are left ----

  /** A parameter that only tracks: it starts with `utm_`, or is one of two click identifiers. */
  ghost predicate Tracks(n: string) { (exists rest: string :: n == "utm_" + rest) || n in ["fbclid", "gclid"] }

  /** Explicit rules come first: a kept parameter stays, a dropped or tracking one goes. */
  ghost predicate Goes(p: Policy, n: string) { n !in p.keep && (n in p.drop || Tracks(n)) }

  lemma TracksDecided(n: string)
    ensures Tracking(n) <==> Tracks(n)
  {
    if "utm_" <= n { assert n == "utm_" + n[4..]; }
    if rest: string :| n == "utm_" + rest { assert "utm_" <= n; }
  }

  lemma KeptDecided(p: Policy, n: string)
    ensures Kept(p, n) <==> !Goes(p, n)
  {
    TracksDecided(n);
    hide Tracking, Tracks;
  }

  // The pairs of a query, none if there is no query.
  function PairsOf(q: Option<string>): seq<string> { if q.None? then [] else Split(q.value, '&') }

  /** The canonical query has exactly those pairs of the query that do not go, each as often. */
  lemma CanonicalPairs(p: Policy, name: Namer, q: Option<string>, x: string)
    ensures multiset(PairsOf(Canonical(p, name, q)))[x] == if Goes(p, name(x)) then 0 else multiset(PairsOf(q))[x]
  {
    KeptDecided(p, name(x));
    KeptDecides(p, name, q);
    hide Canonical, Kept, Goes, SortedKept, Retain, Split;
    if q.Some? { RetainCounts(p, Split(q.value, '&'), name, x); }
    assert PairsOf(Canonical(p, name, q)) == SortedKept(p, name, q);
  }

  /** Its pairs come in the order of their names, and those of one name in the order of their text. */
  lemma CanonicalOrder(p: Policy, name: Namer, q: Option<string>, i: nat, k: nat)
    requires i < k < |PairsOf(Canonical(p, name, q))|
    ensures var pairs := PairsOf(Canonical(p, name, q));
            && !KeyLess(name(pairs[k]), name(pairs[i]))
            && (name(pairs[k]) == name(pairs[i]) ==> !KeyLess(pairs[k], pairs[i]))
  {
    KeptDecides(p, name, q);
    hide Canonical, SortedKept, Split;
    assert PairsOf(Canonical(p, name, q)) == SortedKept(p, name, q);
  }

  // ---- The explanation ----

  function Removals(decisions: seq<Decision>): nat {
    if decisions == [] then 0
    else (if decisions[0].TrackingParameterRemoved? || decisions[0].CustomParameterDropped? then 1 else 0) + Removals(decisions[1..])
  }

  // What a decision says about its parameter.
  ghost predicate Says(p: Policy, d: Decision) {
    match d
    case QuerySorted => true
    case ExplicitParameterKept(n) => n in p.keep
    case CustomParameterDropped(n) => n !in p.keep && n in p.drop
    case TrackingParameterRemoved(n) => n !in p.keep && n !in p.drop && Tracks(n)
  }

  lemma {:induction false} RemovalsAdd(a: seq<Decision>, b: seq<Decision>)
    ensures Removals(a + b) == Removals(a) + Removals(b)
  {
    if a == [] {
      assert a + b == b;
    } else {
      assert (a + b)[1..] == a[1..] + b;
      RemovalsAdd(a[1..], b);
    }
  }

  lemma ExplainOne(p: Policy, n: string)
    ensures Removals(Explain(p, n)) == if Goes(p, n) then 1 else 0
    ensures forall d <- Explain(p, n) :: Says(p, d)
    ensures n in p.keep ==> ExplicitParameterKept(n) in Explain(p, n)
  {
    TracksDecided(n);
    hide Tracking, Tracks;
    assert forall d: Decision :: [d][1..] == [];
  }

  /** Every removed pair is accounted for by one decision and no other pair is, each decision gives
      the reason that holds, and every explicitly kept pair is mentioned. */
  lemma {:induction false} ExplanationAccounts(p: Policy, s: seq<string>, name: Namer)
    ensures |Retain(p, s, name)| + Removals(ExplainAll(p, s, name)) == |s|
    ensures forall d <- ExplainAll(p, s, name) :: Says(p, d)
    ensures forall x <- s :: name(x) in p.keep ==> ExplicitParameterKept(name(x)) in ExplainAll(p, s, name)
  {
    hide Says, Goes, Kept, Explain;
    if s != [] {
      var n := name(s[0]);
      KeptDecided(p, n);
      ExplainOne(p, n);
      ExplanationAccounts(p, s[1..], name);
      RemovalsAdd(Explain(p, n), ExplainAll(p, s[1..], name));
    }
  }
}
