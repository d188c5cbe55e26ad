/** The string operations the code relies on, over `seq<char>`: trimming a
    character set from both ends, ASCII lower-casing and substring search. */
module Text {

  /** The two `CharacterSet`s the code trims with. */
  datatype CharacterSet = Whitespaces | WhitespacesAndNewlines {
    predicate Has(c: char) {
      IsWhitespace(c) || (this == WhitespacesAndNewlines && IsNewline(c))
    }
  }

  /** `CharacterSet.whitespaces`: tab and the Unicode space separators. */
  predicate IsWhitespace(c: char) {
    c == '\t' || c == ' ' || c == '\U{00A0}' || c == '\U{1680}' || '\U{2000}' <= c <= '\U{200A}'
    || c == '\U{202F}' || c == '\U{205F}' || c == '\U{3000}'
  }

  /** The line and paragraph separators `CharacterSet.newlines` adds: line
      feed, vertical tab, form feed, carriage return, next line and the two
      Unicode separators. */
  predicate IsNewline(c: char) {
    '\n' <= c <= '\r' || c == '\U{0085}' || c == '\U{2028}' || c == '\U{2029}'
  }

  /** The length of the longest prefix of `s` made of characters of `cs`. */
  function LeadingCount(s: string, cs: CharacterSet): (n: nat)
    ensures n <= |s|
    ensures forall k :: 0 <= k < n ==> cs.Has(s[k])
    ensures n < |s| ==> !cs.Has(s[n])
  {
    if s == [] || !cs.Has(s[0]) then 0 else 1 + LeadingCount(s[1..], cs)
  }

  /** The length of the longest suffix of `s` made of characters of `cs`. */
  function TrailingCount(s: string, cs: CharacterSet): (n: nat)
    ensures n <= |s|
    ensures forall k :: |s| - n <= k < |s| ==> cs.Has(s[k])
    ensures n < |s| ==> !cs.Has(s[|s| - 1 - n])
  {
    if s == [] || !cs.Has(s[|s| - 1]) then 0 else 1 + TrailingCount(s[..|s| - 1], cs)
  }

  /** `trimmingCharacters(in: cs)`: `s` without its leading and trailing
      characters from `cs`. */
  function Trim(s: string, cs: CharacterSet): (r: string)
    ensures r == s[LeadingCount(s, cs)..|s| - TrailingCount(s[LeadingCount(s, cs)..], cs)]
    ensures r != [] ==> !cs.Has(r[0]) && !cs.Has(r[|r| - 1])
    ensures forall k :: 0 <= k < |s| && !cs.Has(s[k]) ==> r != []
  {
    var a := LeadingCount(s, cs);
    var t := s[a..];
    t[..|t| - TrailingCount(t, cs)]
  }

  /** Trimming twice is trimming once. */
  lemma TrimIdempotent(s: string, cs: CharacterSet)
    ensures Trim(Trim(s, cs), cs) == Trim(s, cs)
  {
    var r := Trim(s, cs);
    if r != [] {
      assert LeadingCount(r, cs) == 0;
      assert r[0..] == r;
      assert TrailingCount(r, cs) == 0;
    }
  }

  /** Leading characters of the set make no difference to the trimmed string. */
  lemma {:induction false} TrimSkipsLeading(c: char, s: string, cs: CharacterSet)
    requires cs.Has(c)
    ensures Trim([c] + s, cs) == Trim(s, cs)
  {
    assert ([c] + s)[1..] == s;
    assert LeadingCount([c] + s, cs) == 1 + LeadingCount(s, cs);
    assert ([c] + s)[LeadingCount([c] + s, cs)..] == s[LeadingCount(s, cs)..];
  }

  /** `Character.lowercased()` on ASCII letters; every other character is kept. */
  function LowerChar(c: char): char {
    if 'A' <= c <= 'Z' then (c as int + 32) as char else c
  }

  /** `lowercased()`, for the ASCII range. */
  function Lowercased(s: string): (r: string)
    ensures |r| == |s|
    ensures forall k :: 0 <= k < |s| ==> r[k] == LowerChar(s[k])
  {
    seq(|s|, k requires 0 <= k < |s| => LowerChar(s[k]))
  }

  /** Lower-casing twice is lower-casing once. */
  lemma LowercasedIdempotent(s: string)
    ensures Lowercased(Lowercased(s)) == Lowercased(s)
  {
  }

  /** `t` begins `s`. */
  predicate IsPrefix(t: string, s: string) {
    |t| <= |s| && s[..|t|] == t
  }

  /** `t` occurs in `s` starting at offset `i`. */
  predicate OccursAt(s: string, t: string, i: int) {
    0 <= i && i + |t| <= |s| && s[i..i + |t|] == t
  }

  /** `s.contains(t)`, searching from the front; the empty string is
      contained in every string. */
  function Contains(s: string, t: string): bool {
    IsPrefix(t, s) || (s != [] && Contains(s[1..], t))
  }

  /** The search finds `t` exactly when `t` occurs somewhere in `s`. */
  lemma {:induction false} ContainsMeansOccurs(s: string, t: string)
    ensures Contains(s, t) <==> exists i :: OccursAt(s, t, i)
  {
    if IsPrefix(t, s) {
      assert OccursAt(s, t, 0);
    } else if s == [] {
      assert t != [];
    } else {
      ContainsMeansOccurs(s[1..], t);
      if Contains(s[1..], t) {
        var i :| OccursAt(s[1..], t, i);
        assert s[1..][i..i + |t|] == s[i + 1..i + 1 + |t|];
        assert OccursAt(s, t, i + 1);
      }
      if exists i :: OccursAt(s, t, i) {
        var i :| OccursAt(s, t, i);
        assert i != 0;
        assert s[1..][i - 1..i - 1 + |t|] == s[i..i + |t|];
        assert OccursAt(s[1..], t, i - 1);
      }
    }
  }

  /** Every string contains itself, and the empty string. */
  lemma ContainsSelfAndEmpty(s: string)
    ensures Contains(s, s) && Contains(s, [])
  {
    assert s[0..|s|] == s;
    assert s[0..0] == [];
  }

  /** A string whose first character does not occur in `s` is not in `s`. */
  lemma {:induction false} MissingFirstCharNotContained(s: string, t: string)
    requires t != [] && t[0] !in s
    ensures !Contains(s, t)
  {
    if s != [] {
      assert s[1..] == s[|[s[0]]|..] && forall c :: c in s[1..] ==> c in s;
      MissingFirstCharNotContained(s[1..], t);
    }
  }

  /** No string is contained in a shorter one. */
  lemma {:induction false} LongerNotContained(s: string, t: string)
    requires |t| > |s|
    ensures !Contains(s, t)
  {
    if s != [] {
      LongerNotContained(s[1..], t);
    }
  }
}
