// Sums over the rows of a table, as SQL's SUM computes them: in no particular order.
module Sums {

  ghost function Sum<K(!new)>(ks: set<K>, f: K -> int): int {
    if ks == {} then 0 else
      var k :| k in ks;
      f(k) + Sum(ks - {k}, f)
  }

  /** The order in which rows are added does not matter: any row can be split off first. */
  lemma {:induction false} Split<K(!new)>(ks: set<K>, f: K -> int, k: K)
    requires k in ks
    ensures Sum(ks, f) == f(k) + Sum(ks - {k}, f)
    decreases ks
  {
    var first :| first in ks && Sum(ks, f) == f(first) + Sum(ks - {first}, f);
    if first != k {
      Split(ks - {first}, f, k);
      Split(ks - {k}, f, first);
      assert ks - {first} - {k} == ks - {k} - {first};
    }
  }

  lemma {:induction false} Monotone<K(!new)>(ks: set<K>, f: K -> int, g: K -> int)
    requires forall k | k in ks :: f(k) <= g(k)
    ensures Sum(ks, f) <= Sum(ks, g)
    decreases ks
  {
    if ks != {} {
      var k :| k in ks;
      Split(ks, f, k);
      Split(ks, g, k);
      Monotone(ks - {k}, f, g);
    }
  }

  lemma Same<K(!new)>(ks: set<K>, f: K -> int, g: K -> int)
    requires forall k | k in ks :: f(k) == g(k)
    ensures Sum(ks, f) == Sum(ks, g)
  {
    Monotone(ks, f, g);
    Monotone(ks, g, f);
  }

  lemma {:induction false} NonNegative<K(!new)>(ks: set<K>, f: K -> int)
    requires forall k | k in ks :: 0 <= f(k)
    ensures 0 <= Sum(ks, f)
    decreases ks
  {
    if ks != {} {
      var k :| k in ks;
      Split(ks, f, k);
      NonNegative(ks - {k}, f);
    }
  }

  lemma Single<K(!new)>(f: K -> int, k: K)
    ensures Sum({k}, f) == f(k)
  {
    Split({k}, f, k);
    assert {k} - {k} == {};
  }

  lemma {:induction false} AllZero<K(!new)>(ks: set<K>, f: K -> int)
    requires forall k | k in ks :: f(k) == 0
    ensures Sum(ks, f) == 0
    decreases ks
  {
    if ks != {} {
      var k :| k in ks;
      Split(ks, f, k);
      AllZero(ks - {k}, f);
    }
  }

  lemma {:induction false} Added<K(!new)>(ks: set<K>, f: K -> int, g: K -> int, h: K -> int)
    requires forall k | k in ks :: h(k) == f(k) + g(k)
    ensures Sum(ks, h) == Sum(ks, f) + Sum(ks, g)
    decreases ks
  {
    if ks != {} {
      var k :| k in ks;
      Split(ks, f, k);
      Split(ks, g, k);
      Split(ks, h, k);
      Added(ks - {k}, f, g, h);
    }
  }

  /** Only the rows that add something matter. */
  lemma {:induction false} Restricted<K(!new)>(ks: set<K>, f: K -> int, part: set<K>, g: K -> int)
    requires part <= ks && (forall k | k in part :: f(k) == g(k)) && forall k | k in ks - part :: f(k) == 0
    ensures Sum(ks, f) == Sum(part, g)
    decreases ks
  {
    if ks != {} {
      var k :| k in ks;
      Split(ks, f, k);
      if k in part { Split(part, g, k); }
      Restricted(ks - {k}, f, part - {k}, g);
      if k !in part { assert part - {k} == part; }
    }
  }

  ghost function Part<K(!new)>(ks: set<K>, f: K -> int, k: K): int {
    if k in ks then f(k) else 0
  }

  /** One row inserted, rewritten or removed moves the sum by exactly that row's share. */
  lemma Changed<K(!new)>(ks: set<K>, f: K -> int, ks': set<K>, f': K -> int, k: K)
    requires ks - {k} == ks' - {k}
    requires forall j | j in ks && j != k :: f(j) == f'(j)
    ensures Sum(ks', f') == Sum(ks, f) - Part(ks, f, k) + Part(ks', f', k)
  {
    Same(ks - {k}, f, f');
    if k in ks { Split(ks, f, k); } else { assert ks - {k} == ks; }
    if k in ks' { Split(ks', f', k); } else { assert ks' - {k} == ks'; }
  }
}
