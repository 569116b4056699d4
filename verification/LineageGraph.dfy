/** Dependency graphs keyed by digest: acyclicity, topological orders, and the least one. */
module LineageGraph {
  import opened Collections

  /** A digest as a number; digests have one width, so their order as text is their order as numbers. */
  type Digest = nat

  /** For every digest, the digests it depends on. */
  type Graph = map<Digest, set<Digest>>

  /** Every dependency is itself in the graph. */
  ghost predicate Closed(g: Graph) {
    forall d :: d in g ==> g[d] <= g.Keys
  }

  /** A path of dependencies that returns to its start: each depends on the next, the last on the first. */
  ghost predicate Cycle(g: Graph, path: seq<Digest>) {
    && path != [] && (forall i :: 0 <= i < |path| ==> path[i] in g)
    && (forall i :: 0 <= i < |path| - 1 ==> path[i + 1] in g[path[i]])
    && path[0] in g[path[|path| - 1]]
  }

  ghost predicate Acyclic(g: Graph) {
    forall path :: !Cycle(g, path)
  }

  /** What may come next when these are done. */
  function Available(g: Graph, done: set<Digest>): set<Digest> {
    set d | d in g && d !in done && g[d] <= done
  }

  /** The rest of an order after these are done: every remaining digest once, each after all it depends on. */
  ghost predicate Topological(g: Graph, done: set<Digest>, order: seq<Digest>)
    decreases |order|
  {
    if order == [] then g.Keys <= done
    else order[0] in Available(g, done) && Topological(g, done + {order[0]}, order[1..])
  }

  /** Dictionary order on sequences of digests. */
  ghost predicate NotAfter(s: seq<Digest>, t: seq<Digest>)
    decreases |s|
  {
    s == [] || (t != [] && (s[0] < t[0] || (s[0] == t[0] && NotAfter(s[1..], t[1..]))))
  }

  lemma HasLeast(s: set<Digest>)
    requires s != {}
    ensures exists k :: k in s && forall x :: x in s ==> k <= x
  {
    var k := Least(s);
  }

  ghost function Smallest(s: set<Digest>): Digest
    requires s != {}
  {
    HasLeast(s);
    var k :| k in s && forall x :: x in s ==> k <= x;
    k
  }

  lemma SmallestIs(s: set<Digest>, k: Digest)
    requires k in s && forall x :: x in s ==> k <= x
    ensures Smallest(s) == k
  {
  }

  /** Always the smallest available digest next, as long as there is one. */
  ghost function Greedy(g: Graph, done: set<Digest>): seq<Digest>
    decreases |g.Keys - done|
  {
    if Available(g, done) == {} then []
    else
      var d := Smallest(Available(g, done));
      SmallerRest(g, done, d);
      [d] + Greedy(g, done + {d})
  }

  lemma SmallerRest(g: Graph, done: set<Digest>, d: Digest)
    requires d in g && d !in done
    ensures |g.Keys - (done + {d})| < |g.Keys - done|
  {
    var after := g.Keys - (done + {d});
    assert g.Keys - done == after + {d} && d !in after;
  }

  /** The greedy order is no later than any topological order. */
  lemma {:induction false} GreedyIsLeast(g: Graph, done: set<Digest>, order: seq<Digest>)
    requires Topological(g, done, order)
    ensures NotAfter(Greedy(g, done), order)
    decreases |order|
  {
    if order == [] {
      assert Available(g, done) == {};
    } else {
      var d := Smallest(Available(g, done));
      if d == order[0] {
        GreedyIsLeast(g, done + {d}, order[1..]);
      }
      assert Greedy(g, done)[1..] == Greedy(g, done + {d});
    }
  }

  /** Whatever the greedy order cannot place still waits for something that it cannot place. */
  ghost predicate Stuck(g: Graph, rest: set<Digest>) {
    rest <= g.Keys && forall d :: d in rest ==> g[d] * rest != {}
  }

  lemma NothingAvailable(g: Graph, done: set<Digest>)
    requires Closed(g) && Available(g, done) == {}
    ensures Stuck(g, g.Keys - done)
  {
    forall d | d in g.Keys - done ensures g[d] * (g.Keys - done) != {} {
      assert d !in Available(g, done);
      var p :| p in g[d] && p !in done;
      assert p in g[d] * (g.Keys - done);
    }
  }

  /** One more placed, seen from before and after. */
  lemma PlacedStep(g: Graph, done: set<Digest>, d: Digest, order: seq<Digest>)
    ensures Elements([d] + order) == {d} + Elements(order)
    ensures g.Keys - done - Elements([d] + order) == g.Keys - (done + {d}) - Elements(order)
    ensures ([d] + order)[1..] == order
    ensures Distinct(order) && d !in order ==> Distinct([d] + order)
  {
  }

  /** The greedy order ends only where nothing can move. */
  lemma {:induction false} GreedyStuck(g: Graph, done: set<Digest>)
    requires Closed(g)
    ensures Stuck(g, g.Keys - done - Elements(Greedy(g, done)))
    ensures Distinct(Greedy(g, done)) && Elements(Greedy(g, done)) !! done && Elements(Greedy(g, done)) <= g.Keys
    ensures g.Keys <= done + Elements(Greedy(g, done)) ==> Topological(g, done, Greedy(g, done))
    decreases |g.Keys - done|
  {
    hide Stuck, Closed, Smallest, Distinct;
    if Available(g, done) == {} {
      NothingAvailable(g, done);
      assert g.Keys - done - Elements([]) == g.Keys - done;
      EmptyDistinct();
    } else {
      var d := Smallest(Available(g, done));
      SmallestAvailable(g, done);
      SmallerRest(g, done, d);
      GreedyStuck(g, done + {d});
      PlacedStep(g, done, d, Greedy(g, done + {d}));
      assert d !in Elements(Greedy(g, done + {d}));
    }
  }

  lemma EmptyDistinct()
    ensures Distinct<Digest>([])
  {
  }

  lemma SmallestAvailable(g: Graph, done: set<Digest>)
    requires Available(g, done) != {}
    ensures Smallest(Available(g, done)) in Available(g, done)
  {
  }

  /** Some dependency of a stuck digest that is stuck too. */
  ghost function Waits(g: Graph, rest: set<Digest>, d: Digest): Digest
    requires Stuck(g, rest) && d in rest
    ensures Waits(g, rest, d) in g[d] && Waits(g, rest, d) in rest
  {
    assert g[d] * rest != {};
    var p :| p in g[d] * rest;
    p
  }

  /** Follow stuck dependencies for n steps. */
  ghost function Walk(g: Graph, rest: set<Digest>, d: Digest, n: nat): (w: seq<Digest>)
    requires Stuck(g, rest) && d in rest
    ensures |w| == n + 1 && w[0] == d
    ensures forall i :: 0 <= i <= n ==> w[i] in rest && w[i] in g
    ensures forall i :: 0 <= i < n ==> w[i + 1] in g[w[i]]
    decreases n
  {
    if n == 0 then [d] else [d] + Walk(g, rest, Waits(g, rest, d), n - 1)
  }

  /** Where digests wait for each other, there is a cycle. */
  lemma StuckHasCycle(g: Graph, rest: set<Digest>)
    requires Stuck(g, rest) && rest != {}
    ensures exists path :: Cycle(g, path)
  {
    hide Stuck;
    var d :| d in rest;
    var w := Walk(g, rest, d, |rest|);
    var i, j := Repetition(w, rest);
    var path := w[i..j];
    assert path[|path| - 1] == w[j - 1];
    assert Cycle(g, path);
  }

  /** A topological order leaves no cycle behind. */
  lemma {:induction false} OrderedHasNoCycle(g: Graph, done: set<Digest>, order: seq<Digest>, path: seq<Digest>)
    requires Topological(g, done, order) && forall d :: d in path ==> d !in done
    ensures !Cycle(g, path)
    decreases |order|
  {
    if Cycle(g, path) {
      assert path[0] in path && path[0] in g.Keys;
      if order != [] {
        forall i | 0 <= i < |path| ensures path[i] != order[0] {
          var next := if i == |path| - 1 then path[0] else path[i + 1];
          assert next in g[path[i]] && next in path;
        }
        OrderedHasNoCycle(g, done + {order[0]}, order[1..], path);
      }
    }
  }

  /** The greedy order places everything exactly when the graph has no cycle; then it is topological. */
  lemma GreedyCompleteExactly(g: Graph)
    requires Closed(g)
    ensures Acyclic(g) <==> |Greedy(g, {})| == |g|
    ensures Acyclic(g) <==> Topological(g, {}, Greedy(g, {}))
    ensures Distinct(Greedy(g, {})) && forall d :: d in Greedy(g, {}) ==> d in g
  {
    hide Stuck, Closed, Topological, Greedy, Cycle;
    var order := Greedy(g, {});
    GreedyStuck(g, {});
    DistinctCardinality(order);
    SubsetCardinality(Elements(order), g.Keys);
    assert forall d :: d in order ==> d in Elements(order);
    assert |g| == |g.Keys|;
    var rest := g.Keys - {} - Elements(order);
    if rest == {} {
      assert g.Keys <= {} + Elements(order);
      assert Elements(order) == g.Keys;
      forall path ensures !Cycle(g, path) {
        OrderedHasNoCycle(g, {}, order, path);
      }
    } else {
      StuckHasCycle(g, rest);
      assert Elements(order) != g.Keys;
      if Topological(g, {}, order) {
        forall path ensures !Cycle(g, path) {
          OrderedHasNoCycle(g, {}, order, path);
        }
      }
    }
  }
}
