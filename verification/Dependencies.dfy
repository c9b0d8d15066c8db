/** The planning-artifact dependency check: a depth-first search that reports
unknown dependencies, self-edges and cycles. */
module Dependencies {

  type Id = string

  type Graph = map<Id, seq<Id>>

  datatype Verdict = Passes | SelfEdge(artifact: Id) | Unknown(artifact: Id, dependency: Id) | Cycle(path: seq<Id>)

  ghost predicate Walk(g: Graph, w: seq<Id>) {
    forall i :: 0 <= i < |w| - 1 ==> w[i] in g && w[i + 1] in g[w[i]]
  }

  ghost predicate IsCycle(g: Graph, w: seq<Id>) { |w| >= 2 && w[0] == w[|w| - 1] && Walk(g, w) }

  ghost predicate Acyclic(g: Graph) { forall w :: !IsCycle(g, w) }

  predicate Known(g: Graph) { forall a :: a in g ==> forall i :: 0 <= i < |g[a]| ==> g[a][i] in g }

  /** Every artifact comes after all its dependencies. */
  ghost predicate Topological(g: Graph, done: seq<Id>) {
    forall i :: 0 <= i < |done| ==> done[i] in g && forall k :: 0 <= k < |g[done[i]]| ==> g[done[i]][k] in done[..i]
  }

  /** A walk inside a topological order goes strictly down. */
  lemma {:induction false} WalksGoDown(g: Graph, done: seq<Id>, w: seq<Id>, i: nat)
    requires Topological(g, done) && Walk(g, w) && |w| >= 2 && i < |done| && w[0] == done[i]
    ensures w[|w| - 1] in done[..i]
    decreases |w|
  {
    assert w[1] in g[w[0]];
    var k :| 0 <= k < |g[done[i]]| && g[done[i]][k] == w[1];
    assert w[1] in done[..i];
    var j :| 0 <= j < i && done[..i][j] == w[1];
    if |w| > 2 {
      assert Walk(g, w[1..]) by {
        forall m | 0 <= m < |w| - 2 ensures w[1..][m] in g && w[1..][m + 1] in g[w[1..][m]] { assert w[m + 1] in g; }
      }
      WalksGoDown(g, done, w[1..], j);
      assert done[..j] <= done[..i];
    }
  }

  lemma TopologicalMeansAcyclic(g: Graph, done: seq<Id>)
    requires Topological(g, done) && forall a :: a in g ==> a in done
    ensures Acyclic(g)
  {
    forall w ensures !IsCycle(g, w) {
      if IsCycle(g, w) {
        assert w[0] in g;
        var i := FirstIndex(done, w[0]);
        WalksGoDown(g, done, w, i);
        assert false;
      }
    }
  }

  lemma {:induction false} FirstIndex(s: seq<Id>, a: Id) returns (i: nat)
    requires a in s
    ensures i < |s| && s[i] == a && a !in s[..i]
  {
    if s[0] == a {
      i := 0;
    } else {
      i := FirstIndex(s[1..], a);
      assert s[..i + 2] == [s[0]] + s[1..][..i + 1];
      i := i + 1;
      assert s[..i] == [s[0]] + s[1..][..i - 1];
    }
  }

  class Checker {
    const graph: Graph
    var visiting: set<Id>
    var visited: set<Id>
    ghost var done: seq<Id>

    constructor (graph: Graph)
      ensures this.graph == graph && visiting == {} && visited == {} && done == []
    {
      this.graph, visiting, visited, done := graph, {}, {}, [];
    }

    ghost predicate Valid()
      reads this
    {
      && Known(graph) && Topological(graph, done)
      && (forall a :: a in visited <==> a in done)
      && visiting <= graph.Keys && visiting !! visited
    }

    /** The path walked so far: the visiting artifacts, each depending on the next,
        the last on id. */
    ghost predicate OnPath(path: seq<Id>, id: Id)
      reads this
    {
      (forall a :: a in visiting <==> a in path) && Walk(graph, path + [id])
    }

    method Visit(id: Id, path: seq<Id>) returns (r: Verdict)
      requires Valid() && id in graph && OnPath(path, id)
      modifies this
      ensures visiting == old(visiting) || r.Cycle?
      ensures r.Passes? ==> Valid() && id in visited && old(visited) <= visited
      ensures r.Passes? || r.Cycle?
      ensures r.Cycle? ==> EndsInACycle(graph, r.path)
      decreases graph.Keys - visiting
    {
      if id in visiting {
        r := Cycle(path + [id]);
        GenuineCycle(graph, path, id);
        return;
      }
      if id in visited {
        return Passes;
      }
      visiting := visiting + {id};
      for k := 0 to |graph[id]|
        invariant Valid() && visiting == old(visiting) + {id} && old(visited) <= visited
        invariant forall j :: 0 <= j < k ==> graph[id][j] in visited
      {
        Extends(graph, path, id, graph[id][k]);
        r := Visit(graph[id][k], path + [id]);
        if r.Cycle? {
          return;
        }
      }
      visiting := visiting - {id};
      visited := visited + {id};
      Finishes(graph, done, id);
      done := done + [id];
      r := Passes;
    }

    method Validate(order: seq<Id>) returns (r: Verdict)
      requires visiting == {} && visited == {} && done == []
      requires forall a :: a in graph <==> a in order
      modifies this
      ensures r.Passes? <==> Known(graph) && Acyclic(graph)
      ensures r.Cycle? ==> EndsInACycle(graph, r.path)
      ensures r.SelfEdge? ==> r.artifact in graph && r.artifact in graph[r.artifact]
      ensures r.Unknown? ==> r.artifact in graph && r.dependency in graph[r.artifact] && r.dependency !in graph
    {
      for i := 0 to |order|
        invariant forall j :: 0 <= j < i ==> forall k :: 0 <= k < |graph[order[j]]| ==> graph[order[j]][k] in graph
        invariant visiting == {} && visited == {} && done == []
      {
        var a := order[i];
        assert a in order;
        for k := 0 to |graph[a]|
          invariant forall m :: 0 <= m < k ==> graph[a][m] in graph
          invariant visiting == {} && visited == {} && done == []
        {
          var dependency := graph[a][k];
          if dependency == a {
            SelfEdgeIsACycle(graph, a);
            return SelfEdge(a);
          }
          if dependency !in graph {
            return Unknown(a, dependency);
          }
        }
      }
      forall a | a in graph
        ensures forall k :: 0 <= k < |graph[a]| ==> graph[a][k] in graph
      {
        var j :| 0 <= j < |order| && order[j] == a;
      }
      for i := 0 to |order|
        invariant Valid() && visiting == {}
        invariant forall j :: 0 <= j < i ==> order[j] in visited
      {
        assert order[i] in order;
        assert [] + [order[i]] == [order[i]];
        r := Visit(order[i], []);
        if r.Cycle? {
          CyclesAreCycles(graph, r.path);
          return;
        }
      }
      TopologicalMeansAcyclic(graph, done);
      r := Passes;
    }
  }

  /** The reported path ends in a closed walk. */
  ghost predicate EndsInACycle(g: Graph, path: seq<Id>) {
    exists i :: 0 <= i < |path| && IsCycle(g, path[i..])
  }

  lemma GenuineCycle(g: Graph, path: seq<Id>, id: Id)
    requires id in path && Walk(g, path + [id])
    ensures EndsInACycle(g, path + [id])
  {
    var w := path + [id];
    var i :| 0 <= i < |path| && path[i] == id;
    var c := w[i..];
    assert c[0] == id && c[|c| - 1] == id;
    forall m | 0 <= m < |c| - 1
      ensures c[m] in g && c[m + 1] in g[c[m]]
    {
      assert w[i + m] in g && w[i + m + 1] in g[w[i + m]];
    }
    assert IsCycle(g, w[i..]);
  }

  lemma CyclesAreCycles(g: Graph, path: seq<Id>)
    requires EndsInACycle(g, path)
    ensures !Acyclic(g)
  {
    var i :| 0 <= i < |path| && IsCycle(g, path[i..]);
  }

  lemma SelfEdgeIsACycle(g: Graph, a: Id)
    requires a in g && a in g[a]
    ensures !Acyclic(g)
  {
    assert IsCycle(g, [a, a]);
  }

  lemma Extends(g: Graph, path: seq<Id>, id: Id, next: Id)
    requires Walk(g, path + [id]) && id in g && next in g[id]
    ensures Walk(g, path + [id] + [next])
  {
    var w := path + [id] + [next];
    forall i | 0 <= i < |w| - 1 ensures w[i] in g && w[i + 1] in g[w[i]] {
      if i < |path| { assert (path + [id])[i] == w[i] && (path + [id])[i + 1] == w[i + 1]; }
    }
  }

  lemma Finishes(g: Graph, done: seq<Id>, id: Id)
    requires Topological(g, done) && id in g && forall k :: 0 <= k < |g[id]| ==> g[id][k] in done
    ensures Topological(g, done + [id])
  {
    var r := done + [id];
    forall i | 0 <= i < |r| ensures r[i] in g && forall k :: 0 <= k < |g[r[i]]| ==> g[r[i]][k] in r[..i] {
      if i < |done| { assert r[..i] == done[..i]; } else { assert r[..i] == done; }
    }
  }
}
