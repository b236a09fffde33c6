/** Sums of natural-valued weights over a sequence: used to count threads in a given state,
    to add up what threads hold, and to build the termination measure. */
module Sums {

  ghost function Sum<T>(f: T -> nat, s: seq<T>): nat {
    if |s| == 0 then 0 else f(s[0]) + Sum(f, s[1..])
  }

  lemma {:induction false} SumUpdate<T>(f: T -> nat, s: seq<T>, i: nat, x: T)
    requires i < |s|
    ensures Sum(f, s[i := x]) + f(s[i]) == Sum(f, s) + f(x)
  {
    var u := s[i := x];
    if i == 0 {
      assert u[1..] == s[1..];
    } else {
      assert u[1..] == s[1..][i - 1 := x];
      SumUpdate(f, s[1..], i - 1, x);
    }
  }

  lemma {:induction false} SumPointwise<T>(f: T -> nat, s: seq<T>, u: seq<T>)
    requires |s| == |u|
    requires forall i :: 0 <= i < |s| ==> f(s[i]) == f(u[i])
    ensures Sum(f, s) == Sum(f, u)
  {
    if |s| > 0 {
      SumPointwise(f, s[1..], u[1..]);
    }
  }

  lemma {:induction false} SumSame<T>(f: T -> nat, g: T -> nat, s: seq<T>)
    requires forall i :: 0 <= i < |s| ==> f(s[i]) == g(s[i])
    ensures Sum(f, s) == Sum(g, s)
  {
    if |s| > 0 {
      SumSame(f, g, s[1..]);
    }
  }

  /** Only the term at `i` changes its weight. */
  lemma SumChange<T>(f: T -> nat, s: seq<T>, u: seq<T>, i: nat)
    requires i < |s| == |u|
    requires forall j :: 0 <= j < |s| && j != i ==> f(s[j]) == f(u[j])
    ensures Sum(f, u) + f(s[i]) == Sum(f, s) + f(u[i])
  {
    SumUpdate(f, s, i, u[i]);
    SumPointwise(f, s[i := u[i]], u);
  }

  lemma {:induction false} SumAppend<T>(f: T -> nat, s: seq<T>, x: T)
    ensures Sum(f, s + [x]) == Sum(f, s) + f(x)
  {
    if |s| == 0 {
      assert s + [x] == [x];
    } else {
      assert (s + [x])[1..] == s[1..] + [x];
      SumAppend(f, s[1..], x);
    }
  }

  /** A sum dominates each of its terms. */
  lemma {:induction false} SumAtLeast<T>(f: T -> nat, s: seq<T>, i: nat)
    requires i < |s|
    ensures f(s[i]) <= Sum(f, s)
  {
    if i > 0 {
      SumAtLeast(f, s[1..], i - 1);
    }
  }

  lemma {:induction false} SumZero<T>(f: T -> nat, s: seq<T>)
    ensures Sum(f, s) == 0 <==> forall i :: 0 <= i < |s| ==> f(s[i]) == 0
  {
    if |s| > 0 {
      SumZero(f, s[1..]);
      if Sum(f, s) == 0 {
        forall i | 0 <= i < |s| ensures f(s[i]) == 0 {
          if i > 0 {
            assert s[i] == s[1..][i - 1];
          }
        }
      }
      assert forall i :: 0 <= i < |s| - 1 ==> s[1..][i] == s[i + 1];
    }
  }

  lemma {:induction false} SumBounded<T>(f: T -> nat, s: seq<T>, b: nat)
    requires forall i :: 0 <= i < |s| ==> f(s[i]) <= b
    ensures Sum(f, s) <= b * |s|
  {
    if |s| > 0 {
      SumBounded(f, s[1..], b);
      assert b * |s| == b + b * |s[1..]|;
    }
  }

  /** When every term is at least `b`, so is the average. */
  lemma {:induction false} SumAllAtLeast<T>(f: T -> nat, s: seq<T>, b: nat)
    requires forall i :: 0 <= i < |s| ==> b <= f(s[i])
    ensures b * |s| <= Sum(f, s)
  {
    if |s| > 0 {
      SumAllAtLeast(f, s[1..], b);
      assert b * |s| == b + b * |s[1..]|;
    }
  }

  /** Multisets contributed by the elements of a sequence. */
  ghost function Bag<T, U>(f: T -> multiset<U>, s: seq<T>): multiset<U> {
    if |s| == 0 then multiset{} else f(s[0]) + Bag(f, s[1..])
  }

  lemma {:induction false} BagUpdate<T, U>(f: T -> multiset<U>, s: seq<T>, i: nat, x: T)
    requires i < |s|
    ensures Bag(f, s[i := x]) + f(s[i]) == Bag(f, s) + f(x)
  {
    var u := s[i := x];
    if i == 0 {
      assert u[1..] == s[1..];
    } else {
      assert u[1..] == s[1..][i - 1 := x];
      BagUpdate(f, s[1..], i - 1, x);
      var rest, rest' := Bag(f, s[1..]), Bag(f, u[1..]);
      assert (f(s[0]) + rest') + f(s[i]) == f(s[0]) + (rest' + f(s[i]));
      assert f(s[0]) + (rest + f(x)) == (f(s[0]) + rest) + f(x);
    }
  }

  lemma {:induction false} BagPointwise<T, U>(f: T -> multiset<U>, s: seq<T>, u: seq<T>)
    requires |s| == |u|
    requires forall i :: 0 <= i < |s| ==> f(s[i]) == f(u[i])
    ensures Bag(f, s) == Bag(f, u)
  {
    if |s| > 0 {
      BagPointwise(f, s[1..], u[1..]);
    }
  }

  lemma {:induction false} BagEmpty<T, U>(f: T -> multiset<U>, s: seq<T>)
    requires forall i :: 0 <= i < |s| ==> f(s[i]) == multiset{}
    ensures Bag(f, s) == multiset{}
  {
    if |s| > 0 {
      BagEmpty(f, s[1..]);
    }
  }
}
