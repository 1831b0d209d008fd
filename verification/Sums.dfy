/** Sums of natural numbers over a finite set of keys, and multiples as repeated sums. */
module Sums {

  ghost function Sum<T(!new)>(keys: set<T>, f: map<T, nat>): nat
    requires keys <= f.Keys
  {
    if keys == {} then 0
    else
      var k :| k in keys;
      f[k] + Sum(keys - {k}, f)
  }

  /** Any key may be taken out first. */
  lemma {:induction false} SumSplit<T(!new)>(keys: set<T>, f: map<T, nat>, k: T)
    requires keys <= f.Keys && k in keys
    ensures Sum(keys, f) == f[k] + Sum(keys - {k}, f)
  {
    var first :| first in keys && Sum(keys, f) == f[first] + Sum(keys - {first}, f);
    if first != k {
      SumSplit(keys - {first}, f, k);
      SumSplit(keys - {k}, f, first);
      assert keys - {first} - {k} == keys - {k} - {first};
    }
  }

  lemma {:induction false} SumAgrees<T(!new)>(keys: set<T>, f: map<T, nat>, g: map<T, nat>)
    requires keys <= f.Keys && keys <= g.Keys && forall k | k in keys :: f[k] == g[k]
    ensures Sum(keys, f) == Sum(keys, g)
  {
    if keys != {} {
      var k :| k in keys;
      SumSplit(keys, f, k);
      SumSplit(keys, g, k);
      SumAgrees(keys - {k}, f, g);
    }
  }

  /** A sum changes by as much as the one value that changes. */
  lemma SumChange<T(!new)>(keys: set<T>, f: map<T, nat>, g: map<T, nat>, k: T)
    requires keys <= f.Keys && keys <= g.Keys && k in keys
    requires forall j | j in keys && j != k :: f[j] == g[j]
    ensures Sum(keys, g) + f[k] == Sum(keys, f) + g[k]
  {
    SumSplit(keys, f, k);
    SumSplit(keys, g, k);
    SumAgrees(keys - {k}, f, g);
  }

  lemma SumChangeTwo<T(!new)>(keys: set<T>, f: map<T, nat>, g: map<T, nat>, k: T, l: T)
    requires keys <= f.Keys && keys <= g.Keys && k in keys && l in keys && k != l
    requires forall j | j in keys && j != k && j != l :: f[j] == g[j]
    ensures Sum(keys, g) + f[k] + f[l] == Sum(keys, f) + g[k] + g[l]
  {
    var half := f[k := g[k]];
    SumChange(keys, f, half, k);
    SumChange(keys, half, g, l);
  }

  /** `n` times `x`. */
  function Times(n: nat, x: nat): nat {
    if n == 0 then 0 else x + Times(n - 1, x)
  }

  lemma {:induction false} TimesAdd(m: nat, n: nat, x: nat)
    ensures Times(m + n, x) == Times(m, x) + Times(n, x)
  {
    if m > 0 { TimesAdd(m - 1, n, x); }
  }

  lemma {:induction false} TimesSum(n: nat, x: nat, y: nat)
    ensures Times(n, x + y) == Times(n, x) + Times(n, y)
  {
    if n > 0 { TimesSum(n - 1, x, y); }
  }

  lemma TimesMonotone(m: nat, n: nat, x: nat)
    requires m <= n
    ensures Times(m, x) <= Times(n, x)
  {
    TimesAdd(m, n - m, x);
  }
}
