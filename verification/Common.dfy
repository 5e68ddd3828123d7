/** Shared helpers: an optional value, and the sum of the values of a finite map. */
module Common {

  datatype Option<+T> = None | Some(value: T)

  /** The sum of all values of m, in whatever order its keys are taken. */
  ghost function Total(m: map<nat, int>): int {
    if m == map[] then 0
    else
      var k :| k in m;
      m[k] + Total(m - {k})
  }

  function At(m: map<nat, int>, k: nat): int {
    if k in m then m[k] else 0
  }

  /** Any key may be split off first. */
  lemma {:induction false} TotalSplit(m: map<nat, int>, k: nat)
    requires k in m
    ensures Total(m) == m[k] + Total(m - {k})
    decreases |m|
  {
    var c :| c in m && Total(m) == m[c] + Total(m - {c});
    if c != k {
      assert (m - {c}) - {k} == (m - {k}) - {c};
      TotalSplit(m - {c}, k);
      TotalSplit(m - {k}, c);
    }
  }

  /** Writing one key changes the sum by the change of that key alone. */
  lemma {:induction false} TotalUpdate(m: map<nat, int>, k: nat, v: int)
    ensures Total(m[k := v]) == Total(m) - At(m, k) + v
  {
    var n := m[k := v];
    TotalSplit(n, k);
    if k in m {
      TotalSplit(m, k);
      assert n - {k} == m - {k};
    } else {
      assert n - {k} == m;
    }
  }
}
