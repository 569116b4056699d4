/** The ordering loop of lineage verification: repeatedly place the smallest digest all of whose parents
    are placed, and count down the parents of its children. */
module LineageOrder {
  import opened Lineage
  import opened LineageGraph

  /** The counts are those of the parents not yet placed. */
  ghost predicate CountsDown(g: Graph, done: set<Digest>, indegree: map<Digest, nat>) {
    indegree.Keys == g.Keys && forall c :: c in g ==> indegree[c] == |g[c] - done|
  }

  /** Part of the way through counting down the children of d: these are counted. */
  ghost predicate Partway(g: Graph, done: set<Digest>, d: Digest, counted: set<Digest>, indegree: map<Digest, nat>,
                          ready: set<Digest>) {
    && indegree.Keys == g.Keys
    && (forall c :: c in g ==> indegree[c] == if c in counted then |g[c] - (done + {d})| else |g[c] - done|)
    && forall c :: c in ready <==>
      c in g && c !in done && c != d && (if c in counted then g[c] <= done + {d} else g[c] <= done)
  }

  /** Placing a parent lowers a child's count by one, to zero exactly when no other parent is missing. */
  lemma CountDrops(parents: set<Digest>, done: set<Digest>, d: Digest)
    requires d in parents && d !in done
    ensures |parents - done| >= 1 && |parents - (done + {d})| == |parents - done| - 1
    ensures |parents - (done + {d})| == 0 <==> parents <= done + {d}
  {
    assert parents - done == (parents - (done + {d})) + {d};
    if parents - (done + {d}) == {} {
      forall p | p in parents ensures p in done + {d} {
        assert p !in parents - (done + {d});
      }
    }
  }

  lemma PartwayBegins(g: Graph, done: set<Digest>, d: Digest, indegree: map<Digest, nat>)
    requires CountsDown(g, done, indegree)
    ensures Partway(g, done, d, {}, indegree, Available(g, done) - {d})
  {
  }

  lemma PartwayStep(g: Graph, done: set<Digest>, d: Digest, counted: set<Digest>, indegree: map<Digest, nat>,
                    ready: set<Digest>, c: Digest)
    requires Partway(g, done, d, counted, indegree, ready) && d !in done && c in g && d in g[c] && c !in counted
      && c !in done && c != d
    ensures c in indegree && indegree[c] >= 1
    ensures var indegree' := indegree[c := indegree[c] - 1];
      Partway(g, done, d, counted + {c}, indegree', if indegree'[c] == 0 then ready + {c} else ready)
  {
    CountDrops(g[c], done, d);
    assert d !in done ==> !(g[c] <= done);
  }

  /** When every child is counted, everything is as if d had been placed all along. */
  lemma PartwayEnds(g: Graph, done: set<Digest>, d: Digest, counted: set<Digest>, indegree: map<Digest, nat>,
                    ready: set<Digest>)
    requires Partway(g, done, d, counted, indegree, ready)
    requires forall c :: c in counted <==> c in g && d in g[c]
    ensures CountsDown(g, done + {d}, indegree) && ready == Available(g, done + {d})
  {
    forall c | c in g ensures indegree[c] == |g[c] - (done + {d})| {
      if d !in g[c] {
        assert g[c] - (done + {d}) == g[c] - done;
      }
    }
    forall c | c in g && c !in counted ensures g[c] <= done <==> g[c] <= done + {d} {
    }
  }

  /** The smallest ready digest, as a heap would give it. */
  method PopSmallest(ready: set<Digest>) returns (d: Digest)
    requires ready != {}
    ensures d in ready && d == Smallest(ready)
  {
    var rest := ready;
    d :| d in rest;
    rest := rest - {d};
    while rest != {}
      invariant rest <= ready && d in ready && forall x :: x in ready ==> x in rest || d <= x
      decreases |rest|
    {
      var x :| x in rest;
      rest := rest - {x};
      d := if x < d then x else d;
    }
    SmallestIs(ready, d);
  }

  /** Whatever is placed has all its parents placed. */
  ghost predicate Settled(g: Graph, done: set<Digest>) {
    forall d :: d in done ==> d in g && g[d] <= done
  }

  /** Count down the children of a digest that has just been placed. */
  method CountDown(ghost g: Graph, children: set<Digest>, d: Digest, indegree: map<Digest, nat>, ready: set<Digest>,
                   ghost done: set<Digest>)
      returns (indegree': map<Digest, nat>, ready': set<Digest>)
    requires CountsDown(g, done, indegree) && ready == Available(g, done) - {d} && d in Available(g, done)
      && Settled(g, done)
    requires forall c :: c in children <==> c in g && d in g[c]
    ensures CountsDown(g, done + {d}, indegree') && ready' == Available(g, done + {d})
  {
    hide CountsDown, Partway, Available, Settled, Smallest;
    PartwayBegins(g, done, d, indegree);
    indegree', ready' := indegree, ready;
    var todo := children;
    ghost var counted: set<Digest> := {};
    while todo != {}
      invariant todo + counted == children && todo !! counted && Partway(g, done, d, counted, indegree', ready')
      decreases |todo|
    {
      var c := PopSmallest(todo);
      ChildWaits(g, done, d, c);
      PartwayStep(g, done, d, counted, indegree', ready', c);
      MoveOne(todo, counted, children, c);
      todo := todo - {c};
      counted := counted + {c};
      indegree' := indegree'[c := indegree'[c] - 1];
      if indegree'[c] == 0 {
        ready' := ready' + {c};
      }
    }
    PartwayEnds(g, done, d, counted, indegree', ready');
  }

  lemma MoveOne(todo: set<Digest>, counted: set<Digest>, all: set<Digest>, c: Digest)
    requires todo + counted == all && todo !! counted && c in todo
    ensures (todo - {c}) + (counted + {c}) == all && todo - {c} !! counted + {c} && |todo - {c}| < |todo| && c in all
      && c !in counted
  {
  }

  lemma ChildWaits(g: Graph, done: set<Digest>, d: Digest, c: Digest)
    requires d in Available(g, done) && Settled(g, done) && c in g && d in g[c]
    ensures c !in done && c != d && d !in done
  {
  }

  /** Order the nodes: exactly the greedy order, the least topological order there is. */
  method Order(index: map<Digest, Node>, edges: Edges) returns (ordered: seq<Digest>)
    requires EdgesCover(edges, GraphOf(index), GraphOf(index).Keys)
    ensures ordered == Greedy(GraphOf(index), {})
  {
    hide CountsDown, Available, Settled, Smallest, Greedy, GraphOf;
    ghost var g := GraphOf(index);
    var indegree, ready := edges.indegree, set d | d in edges.indegree && edges.indegree[d] == 0;
    CountsBegin(g, edges, ready);
    ordered := [];
    ghost var done: set<Digest> := {};
    while ready != {}
      invariant CountsDown(g, done, indegree) && ready == Available(g, done) && Settled(g, done)
      invariant Greedy(g, {}) == ordered + Greedy(g, done)
      decreases |g.Keys - done|
    {
      var d := PopSmallest(ready);
      ready := ready - {d};
      GreedyStep(g, done, d);
      ChildrenOf(g, edges, d);
      indegree, ready := CountDown(g, edges.children[d], d, indegree, ready, done);
      Regroup(ordered, d, Greedy(g, done + {d}));
      ordered := ordered + [d];
      done := done + {d};
    }
    GreedyDone(g, done);
  }

  lemma Regroup(s: seq<Digest>, d: Digest, t: seq<Digest>)
    ensures s + ([d] + t) == (s + [d]) + t
  {
  }

  lemma CountsBegin(g: Graph, edges: Edges, ready: set<Digest>)
    requires EdgesCover(edges, g, g.Keys) && ready == set d | d in edges.indegree && edges.indegree[d] == 0
    ensures CountsDown(g, {}, edges.indegree) && ready == Available(g, {}) && Settled(g, {})
  {
    hide Available, CountsDown, EdgesCover;
    CountsFirst(g, edges);
    ReadyFirst(g, edges.indegree, ready);
  }

  lemma CountsFirst(g: Graph, edges: Edges)
    requires EdgesCover(edges, g, g.Keys)
    ensures CountsDown(g, {}, edges.indegree)
  {
    forall c | c in g ensures edges.indegree[c] == |g[c] - {}| {
      assert g[c] - {} == g[c];
    }
  }

  lemma ReadyFirst(g: Graph, indegree: map<Digest, nat>, ready: set<Digest>)
    requires CountsDown(g, {}, indegree) && ready == set d | d in indegree && indegree[d] == 0
    ensures ready == Available(g, {})
  {
    forall d | d in g ensures indegree[d] == 0 <==> g[d] <= {} {
      assert g[d] - {} == g[d];
    }
  }

  lemma GreedyStep(g: Graph, done: set<Digest>, d: Digest)
    requires Available(g, done) != {} && d == Smallest(Available(g, done)) && Settled(g, done)
    ensures Greedy(g, done) == [d] + Greedy(g, done + {d}) && Settled(g, done + {d}) && d in g && d !in done
    ensures |g.Keys - (done + {d})| < |g.Keys - done|
  {
    SmallestAvailable(g, done);
    SmallerRest(g, done, d);
  }

  lemma GreedyDone(g: Graph, done: set<Digest>)
    requires Available(g, done) == {}
    ensures Greedy(g, done) == []
  {
  }

  lemma ChildrenOf(g: Graph, edges: Edges, d: Digest)
    requires EdgesCover(edges, g, g.Keys) && d in g
    ensures d in edges.children && forall c :: c in edges.children[d] <==> c in g && d in g[c]
  {
  }
}
