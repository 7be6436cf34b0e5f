/** Sums over finitely many threads, for arguments that some work gets less. */
module Sums {
  ghost function Sum(f: map<nat, nat>, ks: set<nat>): nat
    requires ks <= f.Keys
  {
    if ks == {} then 0
    else
      var k :| k in ks;
      f[k] + Sum(f, ks - {k})
  }

  lemma {:induction false} SumSplit(f: map<nat, nat>, ks: set<nat>, k: nat)
    requires ks <= f.Keys && k in ks
    ensures Sum(f, ks) == f[k] + Sum(f, ks - {k})
  {
    var j :| j in ks && Sum(f, ks) == f[j] + Sum(f, ks - {j});
    if j != k {
      SumSplit(f, ks - {j}, k);
      SumSplit(f, ks - {k}, j);
      assert ks - {j} - {k} == ks - {k} - {j};
    }
  }

  lemma {:induction false} SumSame(f: map<nat, nat>, g: map<nat, nat>, ks: set<nat>)
    requires ks <= f.Keys && ks <= g.Keys && forall k :: k in ks ==> f[k] == g[k]
    ensures Sum(f, ks) == Sum(g, ks)
  {
    if ks != {} {
      var k :| k in ks;
      SumSplit(f, ks, k);
      SumSplit(g, ks, k);
      SumSame(f, g, ks - {k});
    }
  }

  lemma SumLess(f: map<nat, nat>, g: map<nat, nat>, ks: set<nat>, k: nat)
    requires ks <= f.Keys && ks <= g.Keys && k in ks && g[k] < f[k]
    requires forall j :: j in ks && j != k ==> f[j] == g[j]
    ensures Sum(g, ks) < Sum(f, ks)
  {
    SumSplit(f, ks, k);
    SumSplit(g, ks, k);
    SumSame(f, g, ks - {k});
  }
}
