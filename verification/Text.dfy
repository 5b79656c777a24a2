/** Character classes that several components share. */
module Text {
  // The Unicode White_Space property.
  predicate White(c: char) {
    '\U{9}' <= c <= '\U{d}' || c == ' ' || c == '\U{85}' || c == '\U{A0}' || c == '\U{1680}'
    || '\U{2000}' <= c <= '\U{200A}' || c == '\U{2028}' || c == '\U{2029}' || c == '\U{202F}'
    || c == '\U{205F}' || c == '\U{3000}'
  }

  /** char::is_control */
  predicate Control(c: char) { c < ' ' || '\U{7F}' <= c <= '\U{9F}' }

  /** `str::trim` leaves something. */
  predicate Filled(s: string) { exists c <- s :: !White(c) }

  function LowerChar(c: char): char { if 'A' <= c <= 'Z' then c - 'A' + 'a' else c }

  /** to_ascii_lowercase */
  function Lower(s: string): (r: string)
    ensures |r| == |s|
  {
    if s == "" then "" else [LowerChar(s[0])] + Lower(s[1..])
  }

  /** str::split on one character */
  function Split(s: string, sep: char): (parts: seq<string>)
    ensures |parts| >= 1
  {
    if s == "" then [""]
    else
      var rest := Split(s[1..], sep);
      if s[0] == sep then [""] + rest else [[s[0]] + rest[0]] + rest[1..]
  }

  /** The order of String: byte order of UTF-8, which is the order of code points. */
  predicate KeyLess(a: string, b: string) {
    b != "" && (a == "" || a[0] < b[0] || (a[0] == b[0] && KeyLess(a[1..], b[1..])))
  }

  lemma {:induction false} KeyTrichotomy(a: string, b: string)
    ensures KeyLess(a, b) || KeyLess(b, a) || a == b
    ensures !(KeyLess(a, b) && KeyLess(b, a)) && (a == b ==> !KeyLess(a, b))
  {
    if a != "" && b != "" && a[0] == b[0] {
      KeyTrichotomy(a[1..], b[1..]);
      assert a == [a[0]] + a[1..] && b == [b[0]] + b[1..];
    }
  }

  lemma {:induction false} KeyTransitive(a: string, b: string, c: string)
    requires KeyLess(a, b) && KeyLess(b, c)
    ensures KeyLess(a, c)
  {
    if a != "" && a[0] == b[0] == c[0] {
      KeyTransitive(a[1..], b[1..], c[1..]);
    }
  }

  /** Keys are ordered by their first difference, and a proper prefix comes first. */
  lemma {:induction false} KeyOrderMeans(a: string, b: string)
    ensures KeyLess(a, b) <==> exists i: nat :: DifferAt(a, b, i)
  {
    if a == "" || b == "" {
      if b != "" { assert DifferAt(a, b, 0); }
    } else {
      KeyOrderMeans(a[1..], b[1..]);
      if a[0] == b[0] && KeyLess(a[1..], b[1..]) {
        var i: nat :| DifferAt(a[1..], b[1..], i);
        assert a[..i + 1] == [a[0]] + a[1..][..i] && b[..i + 1] == [b[0]] + b[1..][..i];
        assert DifferAt(a, b, i + 1);
      } else if a[0] < b[0] {
        assert DifferAt(a, b, 0);
      }
      if i: nat :| DifferAt(a, b, i) && i > 0 {
        assert a[..i][0] == b[..i][0] && a[..i][1..] == a[1..][..i - 1] && b[..i][1..] == b[1..][..i - 1];
        assert DifferAt(a[1..], b[1..], i - 1);
      }
    }
  }

  // They agree before place `i`, and there `a` is smaller or has ended.
  predicate DifferAt(a: string, b: string, i: nat) {
    i <= |a| && i < |b| && a[..i] == b[..i] && (i == |a| || a[i] < b[i])
  }

  // The 25 characters of the Unicode White_Space property.
  const SPACES := "\U{0009}\U{000A}\U{000B}\U{000C}\U{000D}\U{0020}\U{0085}\U{00A0}\U{1680}\U{2000}\U{2001}\U{2002}\U{2003}"
                + "\U{2004}\U{2005}\U{2006}\U{2007}\U{2008}\U{2009}\U{200A}\U{2028}\U{2029}\U{202F}\U{205F}\U{3000}"

  lemma SpacesAreListed(c: char)
    ensures White(c) <==> c in SPACES
    ensures |SPACES| == 25
  {
    if White(c) {
      var n := c as int;
      var i := if n <= 0xD then n - 9 else if n == 0x20 then 5 else if n == 0x85 then 6 else if n == 0xA0 then 7 else if n == 0x1680 then 8
               else if n <= 0x200A then 9 + n - 0x2000 else if n <= 0x2029 then 20 + n - 0x2028
               else if n == 0x202F then 22 else if n == 0x205F then 23 else 24;
      assert SPACES[i] == c;
    }
  }

  // ---- Splitting ----

  function Rejoined(parts: seq<string>, sep: char): string
    requires parts != []
  {
    if |parts| == 1 then parts[0] else parts[0] + [sep] + Rejoined(parts[1..], sep)
  }

  lemma RejoinsFirst(x: string, rest: seq<string>, sep: char)
    requires rest != []
    ensures Rejoined([x] + rest, sep) == x + [sep] + Rejoined(rest, sep)
  {
    assert ([x] + rest)[1..] == rest;
  }

  lemma RejoinsLonger(c: char, parts: seq<string>, sep: char)
    requires parts != []
    ensures Rejoined([[c] + parts[0]] + parts[1..], sep) == [c] + Rejoined(parts, sep)
  {
    if |parts| == 1 {
      assert [[c] + parts[0]] + parts[1..] == [[c] + parts[0]];
    } else {
      RejoinsFirst([c] + parts[0], parts[1..], sep);
      assert [c] + parts[0] + [sep] + Rejoined(parts[1..], sep) == [c] + (parts[0] + [sep] + Rejoined(parts[1..], sep));
    }
  }

  /** Joining the pieces with the separator gives the text back. */
  lemma {:induction false} SplitLosesNothing(s: string, sep: char)
    ensures Rejoined(Split(s, sep), sep) == s
  {
    if s != "" {
      hide Rejoined;
      SplitLosesNothing(s[1..], sep);
      var rest := Split(s[1..], sep);
      assert s == [s[0]] + s[1..];
      if s[0] == sep {
        RejoinsFirst("", rest, sep);
        assert "" + [sep] + s[1..] == s;
      } else {
        RejoinsLonger(s[0], rest, sep);
      }
    }
  }

  lemma {:induction false} SplitPiece(line: string, rest: string, sep: char)
    requires sep !in line
    ensures Split(line, sep) == [line]
    ensures Split(line + [sep] + rest, sep) == [line] + Split(rest, sep)
  {
    if line == "" {
      assert line + [sep] + rest == [sep] + rest;
      assert ([sep] + rest)[1..] == rest;
    } else {
      assert line[0] in line && (line + [sep] + rest)[1..] == line[1..] + [sep] + rest;
      SplitPiece(line[1..], rest, sep);
      assert [line[0]] + line[1..] == line;
    }
  }

  lemma {:induction false} PiecesLack(s: string, sep: char)
    ensures forall x <- Split(s, sep) :: sep !in x
  {
    if s != "" {
      PiecesLack(s[1..], sep);
    }
  }
}
