/** Sums of block tables over the holders of references. */
module Balance {
  import opened Common

  /** All references held, each block as often as it is held. */
  ghost function Sum<K>(h: map<K, seq<Block>>): multiset<Block>
    decreases |h|
  {
    if h == map[] then multiset{}
    else var k :| k in h; multiset(h[k]) + Sum(h - {k})
  }

  function At<K>(h: map<K, seq<Block>>, k: K): multiset<Block> {
    if k in h then multiset(h[k]) else multiset{}
  }

  lemma {:induction false} SumSplits<K>(h: map<K, seq<Block>>, k: K)
    requires k in h
    ensures Sum(h) == multiset(h[k]) + Sum(h - {k})
    decreases |h|
  {
    var j :| j in h && Sum(h) == multiset(h[j]) + Sum(h - {j});
    if j != k {
      SumSplits(h - {j}, k);
      SumSplits(h - {k}, j);
      assert h - {j} - {k} == h - {k} - {j};
    }
  }

  /** Changing one holder's table changes the sum by exactly that. */
  lemma SumChanges<K>(h: map<K, seq<Block>>, h': map<K, seq<Block>>, k: K)
    requires h - {k} == h' - {k}
    ensures forall b :: Sum(h')[b] + At(h, k)[b] == Sum(h)[b] + At(h', k)[b]
    ensures forall b :: At(h, k)[b] <= Sum(h)[b]
  {
    if k in h { SumSplits(h, k); } else { assert h - {k} == h; }
    if k in h' { SumSplits(h', k); } else { assert h' - {k} == h'; }
  }
}
