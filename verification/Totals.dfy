/** Sums over finite maps and sequences, and how one update changes them. */
module Totals {

  /** The sum of all values of a map. */
  ghost function Total(m: map<nat, nat>): nat
    decreases |m|
  {
    if m == map[] then 0 else
      var k :| k in m;
      m[k] + Total(m - {k})
  }

  /** Any key may be taken out first. */
  lemma {:induction false} TotalRemove(m: map<nat, nat>, k: nat)
    requires k in m
    ensures Total(m) == m[k] + Total(m - {k})
    decreases |m|
  {
    var j :| j in m && Total(m) == m[j] + Total(m - {j});
    if j != k {
      TotalRemove(m - {j}, k);
      TotalRemove(m - {k}, j);
      assert m - {j} - {k} == m - {k} - {j};
    }
  }

  lemma {:induction false} TotalUpdate(m: map<nat, nat>, k: nat, v: nat)
    ensures Total(m[k := v]) == Total(m - {k}) + v
    ensures Total(m[k := v]) + (if k in m then m[k] else 0) == Total(m) + v
  {
    var u := m[k := v];
    TotalRemove(u, k);
    assert u - {k} == m - {k};
    if k in m {
      TotalRemove(m, k);
    } else {
      assert m - {k} == m;
    }
  }

  /** The sum of f over a sequence. */
  ghost function SumBy<T>(f: T -> nat, s: seq<T>): nat
  {
    if s == [] then 0 else SumBy(f, s[..|s| - 1]) + f(s[|s| - 1])
  }

  lemma {:induction false} SumByAppend<T>(f: T -> nat, s: seq<T>, t: T)
    ensures SumBy(f, s + [t]) == SumBy(f, s) + f(t)
  {
    assert (s + [t])[..|s|] == s;
  }

  lemma {:induction false} SumByUpdate<T>(f: T -> nat, s: seq<T>, i: nat, t: T)
    requires i < |s|
    ensures SumBy(f, s[i := t]) + f(s[i]) == SumBy(f, s) + f(t)
  {
    var n := |s| - 1;
    if i == n {
      assert s[i := t][..n] == s[..n];
    } else {
      assert s[i := t][..n] == s[..n][i := t];
      SumByUpdate(f, s[..n], i, t);
    }
  }

  lemma {:induction false} SumByConcat<T>(f: T -> nat, s: seq<T>, t: seq<T>)
    ensures SumBy(f, s + t) == SumBy(f, s) + SumBy(f, t)
  {
    if t == [] {
      assert s + t == s;
    } else {
      var n := |t| - 1;
      assert (s + t)[..|s + t| - 1] == s + t[..n];
      SumByConcat(f, s, t[..n]);
    }
  }

  lemma {:induction false} SumByMember<T>(f: T -> nat, s: seq<T>, i: nat)
    requires i < |s|
    ensures f(s[i]) <= SumBy(f, s)
  {
    var n := |s| - 1;
    if i < n {
      assert s[..n][i] == s[i];
      SumByMember(f, s[..n], i);
    }
  }

  /** Two measures related at every element are related in sum. */
  lemma {:induction false} SumByEqual<T>(f: T -> nat, g: T -> nat, s: seq<T>)
    requires forall t :: t in s ==> f(t) == g(t)
    ensures SumBy(f, s) == SumBy(g, s)
  {
    if s != [] {
      SumByEqual(f, g, s[..|s| - 1]);
    }
  }
}
