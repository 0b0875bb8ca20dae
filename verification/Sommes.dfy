/** Sums over sequences: the reference meaning of every accumulator of the source. */
module Sommes {

  /** f(s[0]) + ... + f(s[|s|-1]). */
  function Somme<T>(s: seq<T>, f: T -> int): int {
    if s == [] then 0 else Somme(s[..|s| - 1], f) + f(s[|s| - 1])
  }

  lemma SommeAjout<T>(s: seq<T>, x: T, f: T -> int)
    ensures Somme(s + [x], f) == Somme(s, f) + f(x)
  {
    assert (s + [x])[..|s|] == s;
  }

  lemma SommePrefixe<T>(s: seq<T>, i: nat, f: T -> int)
    requires i < |s|
    ensures Somme(s[..i + 1], f) == Somme(s[..i], f) + f(s[i])
  {
    assert s[..i + 1][..i] == s[..i];
  }

  lemma SommeVide<T>(f: T -> int)
    ensures Somme([], f) == 0
  {
  }

  lemma {:induction false} SommeConcat<T>(a: seq<T>, b: seq<T>, f: T -> int)
    ensures Somme(a + b, f) == Somme(a, f) + Somme(b, f)
  {
    if b == [] {
      assert a + b == a;
    } else {
      assert a + b == (a + b[..|b| - 1]) + [b[|b| - 1]];
      SommeAjout(a + b[..|b| - 1], b[|b| - 1], f);
      SommeConcat(a, b[..|b| - 1], f);
    }
  }

  /** Taking out one term. */
  lemma SommeRetrait<T>(s: seq<T>, k: nat, f: T -> int)
    requires k < |s|
    ensures Somme(s, f) == Somme(s[..k] + s[k + 1..], f) + f(s[k])
    ensures multiset(s[..k] + s[k + 1..]) == multiset(s) - multiset{s[k]}
  {
    hide Somme;
    var debut, fin := s[..k + 1], s[k + 1..];
    assert s == debut + fin && debut == s[..k] + [s[k]];
    SommeConcat(debut, fin, f);
    SommePrefixe(s, k, f);
    SommeConcat(s[..k], fin, f);
  }

  /** A sum does not depend on the order of its terms. */
  lemma {:induction false} SommePermutation<T>(a: seq<T>, b: seq<T>, f: T -> int)
    requires multiset(a) == multiset(b)
    ensures Somme(a, f) == Somme(b, f)
    decreases |a|
  {
    assert |a| == |multiset(a)| == |multiset(b)| == |b|;
    if a != [] {
      assert a[0] in multiset(b);
      var k :| 0 <= k < |b| && b[k] == a[0];
      SommeRetrait(a, 0, f);
      SommeRetrait(b, k, f);
      SommePermutation(a[..0] + a[1..], b[..k] + b[k + 1..], f);
    }
  }

  lemma {:induction false} SommeEgale<T>(s: seq<T>, f: T -> int, g: T -> int)
    requires forall i :: 0 <= i < |s| ==> f(s[i]) == g(s[i])
    ensures Somme(s, f) == Somme(s, g)
  {
    if s != [] {
      SommeEgale(s[..|s| - 1], f, g);
    }
  }

  lemma {:induction false} SommePositive<T>(s: seq<T>, f: T -> int)
    requires forall i :: 0 <= i < |s| ==> f(s[i]) >= 0
    ensures Somme(s, f) >= 0
  {
    if s != [] {
      SommePositive(s[..|s| - 1], f);
    }
  }

  lemma {:induction false} SommeMemes<S, T>(a: seq<S>, f: S -> int, b: seq<T>, g: T -> int)
    requires |a| == |b| && forall i :: 0 <= i < |a| ==> f(a[i]) == g(b[i])
    ensures Somme(a, f) == Somme(b, g)
  {
    if a != [] {
      SommeMemes(a[..|a| - 1], f, b[..|b| - 1], g);
    }
  }

  lemma {:induction false} SommeAjoutee<T>(s: seq<T>, f: T -> int, g: T -> int, h: T -> int)
    requires forall i :: 0 <= i < |s| ==> h(s[i]) == f(s[i]) + g(s[i])
    ensures Somme(s, h) == Somme(s, f) + Somme(s, g)
  {
    if s != [] {
      SommeAjoutee(s[..|s| - 1], f, g, h);
    }
  }

  lemma {:induction false} SommeNulle<T>(s: seq<T>, f: T -> int)
    requires forall i :: 0 <= i < |s| ==> f(s[i]) == 0
    ensures Somme(s, f) == 0
  {
    if s != [] {
      SommeNulle(s[..|s| - 1], f);
    }
  }

  lemma {:induction false} SommeUnChange<T>(s: seq<T>, i: nat, x: T, f: T -> int)
    requires i < |s|
    ensures Somme(s[i := x], f) == Somme(s, f) - f(s[i]) + f(x)
  {
    var n := |s| - 1;
    if i < n {
      assert s[i := x][..n] == s[..n][i := x];
      SommeUnChange(s[..n], i, x, f);
    } else {
      assert s[i := x][..n] == s[..n];
    }
  }
}
