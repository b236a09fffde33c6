/** Sequences that hold the same elements in some order. */
module Permutations {

  function Map<T, U>(g: T -> U, s: seq<T>): (r: seq<U>)
    ensures |r| == |s|
    ensures forall i :: 0 <= i < |r| ==> r[i] == g(s[i])
  {
    seq(|s|, i requires 0 <= i < |s| => g(s[i]))
  }

  lemma MapConcat<T, U>(g: T -> U, a: seq<T>, b: seq<T>)
    ensures Map(g, a + b) == Map(g, a) + Map(g, b)
  {
  }

  /** Moving the element between two parts to the front. */
  lemma MapToFront<T, U>(g: T -> U, a: seq<T>, x: T, b: seq<T>)
    ensures multiset(a + [x] + b) == multiset(a + b) + multiset{x}
    ensures multiset(Map(g, a + [x] + b)) == multiset(Map(g, a + b)) + multiset{g(x)}
  {
    MapConcat(g, a + [x], b);
    MapConcat(g, a, [x]);
    MapConcat(g, a, b);
    assert Map(g, [x]) == [g(x)];
  }

  function Without<T>(s: seq<T>, j: nat): seq<T>
    requires j < |s|
  {
    s[..j] + s[j + 1..]
  }

  lemma MapPick<T, U>(g: T -> U, s: seq<T>, j: nat)
    requires j < |s|
    ensures multiset(s) == multiset(Without(s, j)) + multiset{s[j]}
    ensures multiset(Map(g, s)) == multiset(Map(g, Without(s, j))) + multiset{g(s[j])}
  {
    assert s == s[..j] + [s[j]] + s[j + 1..];
    MapToFront(g, s[..j], s[j], s[j + 1..]);
  }

  lemma {:induction false} MapPermutes<T, U>(g: T -> U, a: seq<T>, b: seq<T>)
    requires multiset(a) == multiset(b)
    ensures multiset(Map(g, a)) == multiset(Map(g, b))
    decreases |a|
  {
    if a == [] {
      assert |multiset(b)| == 0;
    } else {
      assert a[0] in multiset(b);
      var j :| 0 <= j < |b| && b[j] == a[0];
      MapPick(g, a, 0);
      MapPick(g, b, j);
      assert multiset(Without(a, 0)) == multiset(a) - multiset{a[0]};
      assert multiset(Without(b, j)) == multiset(b) - multiset{a[0]};
      MapPermutes(g, Without(a, 0), Without(b, j));
    }
  }
}
