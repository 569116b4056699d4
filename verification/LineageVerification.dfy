/** The whole of lineage verification: what it accepts, and the order it returns. */
module LineageVerification {
  import opened Collections
  import opened Lineage
  import opened LineageGraph
  import opened LineageOrder
  import opened Wrappers

  /** The nodes in the order of their digests as given. */
  ghost predicate InDigestOrder(nodes: seq<Node>, index: map<Digest, Node>, order: seq<Digest>) {
    |nodes| == |order| && forall i :: 0 <= i < |order| ==> order[i] in index && nodes[i] == index[order[i]]
  }

  method Materialize(index: map<Digest, Node>, order: seq<Digest>) returns (nodes: seq<Node>)
    requires forall d :: d in order ==> d in index
    ensures InDigestOrder(nodes, index, order)
  {
    nodes := [];
    for k := 0 to |order|
      invariant InDigestOrder(nodes, index, order[..k])
    {
      assert order[k] in order;
      nodes := nodes + [index[order[k]]];
    }
    assert order[..|order|] == order;
  }

  /** Lineage is accepted exactly when digests and identifiers are unique, parents exist with their declared
      kinds, every rule is satisfied, and no artifact depends on itself through any chain. The result is the
      least topological order of the digests, each node after all its parents. */
  method VerifyLineage(nodes: seq<Node>, policy: Policy) returns (r: Result<seq<Node>, LineageError>)
    ensures r.Ok? <==> WellTyped(nodes, policy) && Acyclic(GraphOf(ByDigest(nodes)))
    ensures r == Err(CyclicLineage) <==> WellTyped(nodes, policy) && !Acyclic(GraphOf(ByDigest(nodes)))
    ensures nodes == [] ==> r == Err(NoNodes)
    ensures |nodes| > policy.maxNodes && nodes != [] ==> r == Err(TooManyNodes)
    ensures 0 < |nodes| <= policy.maxNodes && r.Err? && r.error != CyclicLineage ==>
      if UniqueDigests(nodes) && UniqueIds(nodes) then
        exists k :: FirstFault(nodes, k, ByDigest(nodes), policy, r.error)
      else exists k :: Repeats(nodes, k) && r.error == RepetitionFault(nodes, k)
    ensures r.Ok? ==> InDigestOrder(r.value, ByDigest(nodes), Greedy(GraphOf(ByDigest(nodes)), {}))
  {
    hide UniqueDigests, UniqueIds, NodeFits, ByDigest, GraphOf, Greedy, Acyclic, EdgesCover, InDigestOrder, Closed,
         Topological, Distinct, NodeFault, FirstFault, Repeats, RepetitionFault;
    if nodes == [] {
      return Err(NoNodes);
    }
    if |nodes| > policy.maxNodes {
      return Err(TooManyNodes);
    }
    var indexed := Index(nodes);
    if indexed.Err? {
      return Err(indexed.error);
    }
    var edges := BuildEdges(nodes, indexed.value, policy);
    if edges.Err? {
      return Err(edges.error);
    }
    var ordered := Order(indexed.value, edges.value);
    GreedyCompleteExactly(GraphOf(indexed.value));
    GraphCovers(nodes);
    if |ordered| != |nodes| {
      return Err(CyclicLineage);
    }
    var result := Materialize(indexed.value, ordered);
    return Ok(result);
  }

  lemma GraphCovers(nodes: seq<Node>)
    requires UniqueDigests(nodes)
    ensures |GraphOf(ByDigest(nodes))| == |nodes| && GraphOf(ByDigest(nodes)).Keys == ByDigest(nodes).Keys
  {
    IndexHolds(nodes);
    hide ByDigest, UniqueDigests;
    var g := GraphOf(ByDigest(nodes));
    assert g.Keys == ByDigest(nodes).Keys;
    assert |g| == |g.Keys| && |ByDigest(nodes)| == |ByDigest(nodes).Keys|;
  }

  /** The accepted order against every other: it is topological, and no later than any topological order of
      the same digests; and it is the same for every ordering of the input. */
  lemma AcceptedOrderIsLeast(nodes: seq<Node>, others: seq<Node>, policy: Policy, order: seq<Digest>)
    requires WellTyped(nodes, policy) && WellTyped(others, policy) && forall n :: n in nodes <==> n in others
    requires Topological(GraphOf(ByDigest(others)), {}, order)
    ensures var greedy := Greedy(GraphOf(ByDigest(nodes)), {});
      greedy == Greedy(GraphOf(ByDigest(others)), {}) && NotAfter(greedy, order)
  {
    hide NodeFits, ByDigest, GraphOf, Greedy, Topological, NotAfter;
    IndexIgnoresOrder(nodes, others);
    GreedyIsLeast(GraphOf(ByDigest(others)), {}, order);
  }

  /** The rules a release uses. */
  const DefaultPolicy := Policy(
    map["run" := Rule({}, {}),
        "dataset" := Rule({"run"}, {"run"}),
        "model" := Rule({"dataset"}, {"dataset"}),
        "baseline" := Rule({"dataset"}, {"dataset"}),
        "report" := Rule({"dataset", "model"}, {"dataset", "model", "baseline"})],
    10_000)

  /** The default rules, link by link: which kinds there are, and which parents each may and must have. */
  lemma DefaultRulesExactly(child: Kind, parent: Kind)
    ensures DefaultPolicy.maxNodes == 10000
    ensures child in DefaultPolicy.rules <==> child in {"run", "dataset", "model", "baseline", "report"}
    ensures child in DefaultPolicy.rules ==>
      && (parent in DefaultPolicy.rules[child].allowed <==>
            (child, parent) in {("dataset", "run"), ("model", "dataset"), ("baseline", "dataset"),
                                ("report", "dataset"), ("report", "model"), ("report", "baseline")})
      && (parent in DefaultPolicy.rules[child].required <==>
            (child, parent) in {("dataset", "run"), ("model", "dataset"), ("baseline", "dataset"),
                                ("report", "dataset"), ("report", "model")})
  {
  }

  function Rank(k: Kind): nat {
    if k == "run" then 0 else if k == "dataset" then 1 else if k == "model" || k == "baseline" then 2 else 3
  }

  lemma DefaultRulesDescend(child: Kind, parent: Kind)
    requires child in DefaultPolicy.rules && parent in DefaultPolicy.rules[child].allowed
    ensures Rank(parent) < Rank(child)
  {
  }

  /** Along any chain of dependencies kinds only descend. */
  lemma {:induction false} PathDescends(nodes: seq<Node>, path: seq<Digest>, i: nat)
    requires WellTyped(nodes, DefaultPolicy) && Cycle(GraphOf(ByDigest(nodes)), path) && i < |path|
    ensures path[0] in ByDigest(nodes) && path[i] in ByDigest(nodes)
    ensures Rank(ByDigest(nodes)[path[i]].kind) + i <= Rank(ByDigest(nodes)[path[0]].kind)
    decreases i
  {
    hide ByDigest, Rank, UniqueDigests, UniqueIds, NodeFits;
    if i > 0 {
      PathDescends(nodes, path, i - 1);
      EdgeDescends(nodes, path[i - 1], path[i]);
    }
  }

  lemma EdgeDescends(nodes: seq<Node>, child: Digest, parent: Digest)
    requires WellTyped(nodes, DefaultPolicy)
    requires child in ByDigest(nodes) && parent in GraphOf(ByDigest(nodes))[child]
    ensures parent in ByDigest(nodes) && Rank(ByDigest(nodes)[parent].kind) < Rank(ByDigest(nodes)[child].kind)
  {
    hide ByDigest, Rank, UniqueDigests, UniqueIds;
    Stored(nodes, child);
    var n := ByDigest(nodes)[child];
    var i :| 0 <= i < |nodes| && nodes[i] == n;
    var l :| l in n.parents && l.digest == parent;
    assert LinkFits(l, ByDigest(nodes), DefaultPolicy.rules[n.kind]);
    DefaultRulesDescend(n.kind, l.kind);
  }

  /** Under the default rules typing alone rules out cycles, so a release's lineage is accepted exactly when
      it is well typed. */
  lemma DefaultPolicyIsAcyclic(nodes: seq<Node>)
    requires WellTyped(nodes, DefaultPolicy)
    ensures Acyclic(GraphOf(ByDigest(nodes)))
  {
    hide ByDigest, GraphOf, Rank, NodeFits;
    forall path ensures !Cycle(GraphOf(ByDigest(nodes)), path) {
      if Cycle(GraphOf(ByDigest(nodes)), path) {
        PathDescends(nodes, path, |path| - 1);
        EdgeDescends(nodes, path[|path| - 1], path[0]);
        assert false;
      }
    }
  }
}
