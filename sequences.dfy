/** Order-preserving subsequences, and the first element that satisfies a test. */
module Sequences {
  import opened Wrappers

  /** `s` is obtained from `t` by deleting elements, keeping the order of the rest. */
  ghost predicate IsSubsequence<T>(s: seq<T>, t: seq<T>)
    decreases |t|
  {
    if s == [] then true
    else if t == [] then false
    else if s[0] == t[0] then IsSubsequence(s[1..], t[1..])
    else IsSubsequence(s, t[1..])
  }

  /** Skipping one more element of `t` keeps a subsequence a subsequence. */
  lemma {:induction false} SkipHead<T>(s: seq<T>, t: seq<T>)
    requires t != [] && IsSubsequence(s, t[1..])
    ensures IsSubsequence(s, t)
    decreases |t|, 1
  {
    if s != [] && s[0] == t[0] {
      DropFirst(s, t[1..]);
    }
  }

  /** Dropping the first element of a subsequence keeps it a subsequence. */
  lemma {:induction false} DropFirst<T>(s: seq<T>, u: seq<T>)
    requires s != [] && IsSubsequence(s, u)
    ensures IsSubsequence(s[1..], u)
    decreases |u|, 2
  {
    if s[0] == u[0] {
      if s[1..] != [] {
        SkipHead(s[1..], u);
      }
    } else {
      DropFirst(s, u[1..]);
      if s[1..] != [] {
        SkipHead(s[1..], u);
      }
    }
  }

  /** `first(where:)`: the earliest element satisfying `p`, or none. */
  function FirstWhere<T>(s: seq<T>, p: T -> bool): (r: Option<T>)
    ensures r.None? <==> forall i :: 0 <= i < |s| ==> !p(s[i])
    ensures r.Some? ==> exists i :: 0 <= i < |s| && s[i] == r.value && p(s[i])
                                      && forall j :: 0 <= j < i ==> !p(s[j])
  {
    if s == [] then None
    else if p(s[0]) then Some(s[0])
    else
      var rest := FirstWhere(s[1..], p);
      assert forall i :: 1 <= i < |s| ==> s[i] == s[1..][i - 1];
      rest
  }
}
