/**
 Sums over sequences, the way every total in the model is taken: money in a
 ledger, rows of a kind in an outbox, operations in a phase.
 */
module Sums {

  function Sum<T>(f: T -> int, s: seq<T>): int {
    if s == [] then 0 else Sum(f, s[..|s| - 1]) + f(s[|s| - 1])
  }

  lemma Push<T>(f: T -> int, s: seq<T>, x: T)
    ensures Sum(f, s + [x]) == Sum(f, s) + f(x)
  {
    assert (s + [x])[..|s|] == s;
  }

  lemma {:induction false} Set<T>(f: T -> int, s: seq<T>, i: nat, x: T)
    requires i < |s|
    ensures Sum(f, s[i := x]) == Sum(f, s) - f(s[i]) + f(x)
  {
    var last := |s| - 1;
    if i == last {
      assert s[i := x][..last] == s[..last];
    } else {
      assert s[i := x][..last] == s[..last][i := x];
      Set(f, s[..last], i, x);
    }
  }

  lemma {:induction false} Concat<T>(f: T -> int, s: seq<T>, t: seq<T>)
    ensures Sum(f, s + t) == Sum(f, s) + Sum(f, t)
  {
    if t == [] {
      assert s + t == s;
    } else {
      var last := |t| - 1;
      assert s + t == (s + t[..last]) + [t[last]];
      Concat(f, s, t[..last]);
      Push(f, s + t[..last], t[last]);
    }
  }

  // A weight that is never larger gives a sum that is never larger.
  lemma {:induction false} Monotone<T>(f: T -> int, g: T -> int, s: seq<T>)
    requires forall x <- s :: f(x) <= g(x)
    ensures Sum(f, s) <= Sum(g, s)
  {
    if s != [] {
      assert forall x <- s[..|s| - 1] :: x in s;
      Monotone(f, g, s[..|s| - 1]);
    }
  }

  lemma {:induction false} NonNegative<T>(f: T -> int, s: seq<T>)
    requires forall x <- s :: 0 <= f(x)
    ensures 0 <= Sum(f, s)
  {
    if s != [] {
      assert forall x <- s[..|s| - 1] :: x in s;
      NonNegative(f, s[..|s| - 1]);
    }
  }

  // One element of positive weight is enough, and is needed, for a positive sum.
  lemma {:induction false} Zero<T>(f: T -> int, s: seq<T>)
    requires forall x <- s :: 0 <= f(x)
    ensures Sum(f, s) == 0 <==> forall x <- s :: f(x) == 0
  {
    NonNegative(f, s);
    if s != [] {
      var front := s[..|s| - 1];
      assert s == front + [s[|s| - 1]];
      assert forall x <- front :: x in s;
      NonNegative(f, front);
      Zero(f, front);
    }
  }

  lemma {:induction false} Combine<T>(f: T -> int, g: T -> int, h: T -> int, s: seq<T>)
    requires forall x <- s :: f(x) == g(x) + h(x)
    ensures Sum(f, s) == Sum(g, s) + Sum(h, s)
  {
    if s != [] {
      assert forall x <- s[..|s| - 1] :: x in s;
      Combine(f, g, h, s[..|s| - 1]);
    }
  }
}
