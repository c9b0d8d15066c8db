/** What several of the models share. */
module Common {

  datatype Option<T> = None | Some(value: T)

  /** A page of the KV cache. */
  type Block = int

  function Min(a: int, b: int): int { if a <= b then a else b }

  function Max(a: int, b: int): int { if a >= b then a else b }

  lemma Element<T>(a: set<T>) returns (x: T)
    requires a != {}
    ensures x in a
  {
    x :| x in a;
  }

  lemma {:induction false} SmallerSet<T>(a: set<T>, b: set<T>)
    requires a <= b
    ensures |a| <= |b|
  {
    if a != {} {
      var x :| x in a;
      SmallerSet(a - {x}, b - {x});
    }
  }

  lemma FewerBy1<T>(a: set<T>, b: set<T>, x: T)
    requires a <= b && x in b && x !in a
    ensures |a| < |b|
  {
    SmallerSet(a, b - {x});
  }

  // ---- order ----

  predicate Increasing(a: seq<nat>) { forall i, j :: 0 <= i < j < |a| ==> a[i] < a[j] }

  /** The part is read off the sequence at the places `at`, in their order. */
  ghost predicate Picks<T>(part: seq<T>, q: seq<T>, at: seq<nat>) {
    |at| == |part| && Increasing(at) && forall k :: 0 <= k < |at| ==> at[k] < |q| && part[k] == q[at[k]]
  }

  function Shifted(at: seq<nat>): (r: seq<nat>)
    ensures |r| == |at| && forall k :: 0 <= k < |at| ==> r[k] == at[k] + 1
  {
    seq(|at|, k requires 0 <= k < |at| => at[k] + 1)
  }

  lemma ShiftedHas(at: seq<nat>, i: nat)
    ensures i in Shifted(at) <==> i > 0 && i - 1 in at
  {
    if i > 0 && i - 1 in at {
      var k :| 0 <= k < |at| && at[k] == i - 1;
      assert Shifted(at)[k] == i;
    }
  }

  lemma PicksBehind<T>(part: seq<T>, q: seq<T>, at: seq<nat>, x: T)
    requires Picks(part, q, at)
    ensures Picks(part, [x] + q, Shifted(at)) && Picks([x] + part, [x] + q, [0] + Shifted(at))
  {
  }
}
