/**
 Matching one robots rule against a request path (crates/erabi-crawler/src/robots.rs,
 rule_matches).  The meaning is section 2.2.3 of RFC 9309: `*` stands for any string,
 a trailing `$` for the end of the path.  The program walks the parts of the pattern
 between stars once, taking each at its leftmost place.
 */
module RobotsMatch {
  import opened Text
  import opened Wrappers

  // ---- Meaning ----

  function Stars(pattern: string): nat {
    if pattern == "" then 0 else (if pattern[0] == '*' then 1 else 0) + Stars(pattern[1..])
  }

  /** The pattern with its stars replaced, in order, by `fillers`. */
  function Expand(pattern: string, fillers: seq<string>): string
    requires |fillers| == Stars(pattern)
  {
    if pattern == "" then ""
    else if pattern[0] == '*' then fillers[0] + Expand(pattern[1..], fillers[1..])
    else [pattern[0]] + Expand(pattern[1..], fillers)
  }

  predicate Reaches(s: string, path: string, anchored: bool) {
    if anchored then s == path else s <= path
  }

  ghost predicate Matches(pattern: string, anchored: bool, path: string) {
    exists fillers: seq<string> :: |fillers| == Stars(pattern) && Reaches(Expand(pattern, fillers), path, anchored)
  }

  // ---- String operations ----

  predicate At(text: string, part: string, i: nat) {
    i + |part| <= |text| && text[i..i + |part|] == part
  }

  /** str::find */
  method Find(text: string, part: string) returns (r: Option<nat>)
    ensures r.None? ==> forall i: nat :: !At(text, part, i)
    ensures r.Some? ==> At(text, part, r.value) && forall i: nat :: i < r.value ==> !At(text, part, i)
  {
    var i := 0;
    while i + |part| <= |text|
      invariant forall k: nat :: k < i ==> !At(text, part, k)
      decreases |text| - i
    {
      if text[i..i + |part|] == part {
        return Some(i);
      }
      i := i + 1;
    }
    return None;
  }

  // ---- The parts after the first, each behind a star ----

  function Fill(parts: seq<string>, fillers: seq<string>): string
    requires |fillers| == |parts|
  {
    if parts == [] then "" else fillers[0] + parts[0] + Fill(parts[1..], fillers[1..])
  }

  ghost predicate Starred(parts: seq<string>, text: string, anchored: bool) {
    exists fillers: seq<string> :: |fillers| == |parts| && Reaches(Fill(parts, fillers), text, anchored)
  }

  lemma StarredAt(parts: seq<string>, text: string, anchored: bool, i: nat)
    requires parts != [] && At(text, parts[0], i)
    requires Starred(parts[1..], text[i + |parts[0]|..], anchored)
    ensures Starred(parts, text, anchored)
  {
    var n := i + |parts[0]|;
    var fillers: seq<string> :| |fillers| == |parts| - 1 && Reaches(Fill(parts[1..], fillers), text[n..], anchored);
    var all := [text[..i]] + fillers;
    assert all[1..] == fillers;
    assert text == text[..i] + text[i..n] + text[n..];
    assert Fill(parts, all) == text[..i] + parts[0] + Fill(parts[1..], fillers);
    assert Reaches(Fill(parts, all), text, anchored);
  }

  lemma StarredHead(parts: seq<string>, text: string, anchored: bool) returns (i: nat)
    requires parts != [] && Starred(parts, text, anchored)
    ensures At(text, parts[0], i) && Starred(parts[1..], text[i + |parts[0]|..], anchored)
  {
    var fillers: seq<string> :| |fillers| == |parts| && Reaches(Fill(parts, fillers), text, anchored);
    i := |fillers[0]|;
    var n := i + |parts[0]|;
    var rest := Fill(parts[1..], fillers[1..]);
    assert Fill(parts, fillers) == fillers[0] + parts[0] + rest;
    assert text[..n] == fillers[0] + parts[0];
    assert text[i..n] == parts[0];
    assert Reaches(rest, text[n..], anchored);
  }

  /** A longer remainder matches whatever a shorter suffix of it does: the next star absorbs
      the difference. */
  lemma LongerIsEasier(parts: seq<string>, text: string, anchored: bool, drop: nat)
    requires parts != [] && drop <= |text| && Starred(parts, text[drop..], anchored)
    ensures Starred(parts, text, anchored)
  {
    hide Starred;
    var i := StarredHead(parts, text[drop..], anchored);
    var n := |parts[0]|;
    assert text[drop..][i..i + n] == text[drop + i..drop + i + n];
    assert text[drop..][i + n..] == text[drop + i + n..];
    StarredAt(parts, text, anchored, drop + i);
  }

  /** Taking a part that is not the last at its leftmost place loses no match. */
  lemma LeftmostIsBest(parts: seq<string>, text: string, anchored: bool, first: nat)
    requires |parts| > 1 && At(text, parts[0], first)
    requires forall i: nat :: i < first ==> !At(text, parts[0], i)
    ensures Starred(parts, text, anchored) <==> Starred(parts[1..], text[first + |parts[0]|..], anchored)
  {
    var n := first + |parts[0]|;
    if Starred(parts[1..], text[n..], anchored) {
      StarredAt(parts, text, anchored, first);
    }
    if Starred(parts, text, anchored) {
      var i := StarredHead(parts, text, anchored);
      assert i >= first;
      assert text[n..][i - first..] == text[i + |parts[0]|..];
      LongerIsEasier(parts[1..], text[n..], anchored, i - first);
    }
  }

  predicate EndsWith(text: string, part: string) {
    |part| <= |text| && text[|text| - |part|..] == part
  }

  lemma LastPart(part: string, text: string, anchored: bool)
    ensures Starred([part], text, anchored) <==>
            if anchored then EndsWith(text, part) else exists i: nat :: At(text, part, i)
  {
    if Starred([part], text, anchored) {
      var i := StarredHead([part], text, anchored);
      NoParts(text[i + |part|..], anchored);
      assert anchored ==> i + |part| == |text|;
    }
    if anchored && EndsWith(text, part) {
      NoParts(text[|text|..], true);
      StarredAt([part], text, true, |text| - |part|);
    }
    if i: nat :| !anchored && At(text, part, i) {
      NoParts(text[i + |part|..], false);
      StarredAt([part], text, false, i);
    }
  }

  lemma NoParts(text: string, anchored: bool)
    ensures Starred([], text, anchored) <==> !anchored || text == ""
  {
    assert Fill([], []) == "";
    if !anchored || text == "" { assert Reaches(Fill([], []), text, anchored); }
  }

  // ---- Patterns and their parts ----

  lemma {:induction false} PartsCountStars(pattern: string)
    ensures |Split(pattern, '*')| == Stars(pattern) + 1
  {
    if pattern != "" {
      PartsCountStars(pattern[1..]);
    }
  }

  /** Filling the stars of a pattern is laying its parts out with the fillers between them. */
  lemma {:induction false} ExpandIsFill(pattern: string, fillers: seq<string>)
    requires |fillers| == Stars(pattern)
    ensures |Split(pattern, '*')| == |fillers| + 1
    ensures Expand(pattern, fillers) == Split(pattern, '*')[0] + Fill(Split(pattern, '*')[1..], fillers)
  {
    PartsCountStars(pattern);
    if pattern != "" {
      var rest := Split(pattern[1..], '*');
      if pattern[0] == '*' {
        ExpandIsFill(pattern[1..], fillers[1..]);
        assert Split(pattern, '*')[1..] == rest;
        assert Fill(rest, fillers) == fillers[0] + rest[0] + Fill(rest[1..], fillers[1..]);
      } else {
        ExpandIsFill(pattern[1..], fillers);
        assert Split(pattern, '*')[1..] == rest[1..];
      }
    }
  }

  // Laying `rest` after `part` reaches the path exactly when the path starts with the part and
  // `rest` reaches what is left of it.
  lemma ReachesAfter(part: string, rest: string, path: string, anchored: bool)
    ensures Reaches(part + rest, path, anchored) <==> part <= path && Reaches(rest, path[|part|..], anchored)
  {
    if part <= path {
      assert path == part + path[|part|..];
    }
  }

  lemma MatchesByParts(pattern: string, anchored: bool, path: string)
    ensures var parts := Split(pattern, '*');
            Matches(pattern, anchored, path) <==>
              parts[0] <= path && Starred(parts[1..], path[|parts[0]|..], anchored)
  {
    hide Expand, Fill, Split, Reaches, Stars;
    PartsCountStars(pattern);
    var parts := Split(pattern, '*');
    forall fillers: seq<string> | |fillers| == Stars(pattern)
      ensures Reaches(Expand(pattern, fillers), path, anchored) <==>
                parts[0] <= path && Reaches(Fill(parts[1..], fillers), path[|parts[0]|..], anchored)
    {
      ExpandIsFill(pattern, fillers);
      ReachesAfter(parts[0], Fill(parts[1..], fillers), path, anchored);
    }
  }

  lemma NoPlace(parts: seq<string>, text: string, anchored: bool)
    requires parts != [] && forall i: nat :: !At(text, parts[0], i)
    ensures !Starred(parts, text, anchored)
  {
    if Starred(parts, text, anchored) {
      var i := StarredHead(parts, text, anchored);
      assert false;
    }
  }

  /** rule_matches: the single greedy pass decides the meaning of the pattern. */
  method RuleMatches(pattern: string, anchored: bool, path: string) returns (r: bool)
    ensures r <==> Matches(pattern, anchored, path)
  {
    hide Matches, Starred, Split;
    var parts := Split(pattern, '*');
    MatchesByParts(pattern, anchored, path);
    var first := parts[0];
    if !(first <= path) {
      return false;
    }
    var remaining := path[|first|..];
    var k := 1;
    while k < |parts|
      invariant 1 <= k <= |parts|
      invariant Matches(pattern, anchored, path) <==> Starred(parts[k..], remaining, anchored)
    {
      var part := parts[k];
      k := k + 1;
      if k == |parts| {
        assert parts[k - 1..] == [part];
        LastPart(part, remaining, anchored);
        if anchored {
          return EndsWith(remaining, part);
        }
        var index := Find(remaining, part);
        return index.Some?;
      }
      var index := Find(remaining, part);
      assert parts[k - 1..][0] == part && parts[k - 1..][1..] == parts[k..];
      if index.None? {
        NoPlace(parts[k - 1..], remaining, anchored);
        return false;
      }
      LeftmostIsBest(parts[k - 1..], remaining, anchored, index.value);
      remaining := remaining[index.value + |part|..];
    }
    assert parts[k..] == [];
    NoParts(remaining, anchored);
    return !anchored || remaining == "";
  }

  /** Without an end anchor a rule covers everything below a path it covers. */
  lemma UnanchoredCoversBelow(pattern: string, path: string, more: string)
    requires Matches(pattern, false, path)
    ensures Matches(pattern, false, path + more)
  {
    var fillers: seq<string> :| |fillers| == Stars(pattern) && Reaches(Expand(pattern, fillers), path, false);
    assert Reaches(Expand(pattern, fillers), path + more, false);
  }
}
