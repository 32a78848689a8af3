/** Queries over a table kept in insertion order: a document store's `findOne`
    returns the first matching document, and counting says how many match. */
module Lookup {
  import opened Wrappers

  /** Whether some element of `s` satisfies `p`. */
  predicate AnyMatch<T>(s: seq<T>, p: T -> bool)
  {
    exists j :: 0 <= j < |s| && p(s[j])
  }

  /** The index of the first element of `s` that satisfies `p`, or None when none does. */
  function FindFirst<T>(s: seq<T>, p: T -> bool): (r: Option<nat>)
    ensures r.Some? ==> r.value < |s| && p(s[r.value])
    ensures r.Some? ==> forall j :: 0 <= j < r.value ==> !p(s[j])
    ensures r.None? <==> !AnyMatch(s, p)
  {
    if |s| == 0 then None
    else if p(s[0]) then Some(0)
    else match FindFirst(s[1..], p)
      case None => None
      case Some(j) => Some(j + 1)
  }

  /** The number of elements of `s` that satisfy `p`. */
  function Count<T>(s: seq<T>, p: T -> bool): (n: nat)
    ensures n <= |s|
    ensures n == 0 <==> !AnyMatch(s, p)
  {
    if |s| == 0 then 0
    else Count(s[..|s| - 1], p) + (if p(s[|s| - 1]) then 1 else 0)
  }

  /** Appending an element leaves the first match where it was, if there was one;
      otherwise the appended element is the first match exactly when it satisfies `p`. */
  lemma {:induction false} FindFirstAppend<T>(s: seq<T>, x: T, p: T -> bool)
    ensures FindFirst(s + [x], p) ==
      match FindFirst(s, p)
      case Some(i) => Some(i)
      case None => if p(x) then Some(|s|) else None
  {
    if |s| == 0 {
      assert s + [x] == [x];
      assert [x][1..] == [];
    } else if !p(s[0]) {
      assert (s + [x])[0] == s[0];
      assert (s + [x])[1..] == s[1..] + [x];
      FindFirstAppend(s[1..], x, p);
    } else {
      assert (s + [x])[0] == s[0];
    }
  }

  /** Appending an element adds one to the count exactly when it satisfies `p`. */
  lemma CountAppend<T>(s: seq<T>, x: T, p: T -> bool)
    ensures Count(s + [x], p) == Count(s, p) + (if p(x) then 1 else 0)
  {
    assert (s + [x])[..|s|] == s;
  }
}
