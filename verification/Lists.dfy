/**
 Removal of one element from a list.
 */
module Lists {

  // The list without the first occurrence of x
  function Without<T(==)>(s: seq<T>, x: T): seq<T> {
    if s == [] then [] else if s[0] == x then s[1..] else [s[0]] + Without(s[1..], x)
  }

  ghost predicate Distinct<T(!new)>(s: seq<T>) {
    forall i, j :: 0 <= i < j < |s| ==> s[i] != s[j]
  }

  lemma {:induction false} WithoutIs<T(!new)>(s: seq<T>, x: T)
    requires Distinct(s)
    ensures forall k :: k in Without(s, x) <==> k in s && k != x
    ensures Distinct(Without(s, x))
    decreases |s|
  {
    if s != [] {
      assert s == [s[0]] + s[1..];
      assert s[0] !in s[1..];
      if s[0] != x {
        WithoutIs(s[1..], x);
      }
    }
  }

  lemma {:induction false} WithoutIn<T(!new)>(s: seq<T>, x: T)
    ensures forall k :: k in Without(s, x) ==> k in s
    decreases |s|
  {
    if s != [] && s[0] != x {
      WithoutIn(s[1..], x);
    }
  }
}
