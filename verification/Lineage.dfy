/** Verification of artifact lineage: identities, typed parent edges, and a deterministic order. */
module Lineage {
  import opened LineageGraph
  import opened Wrappers

  type Kind = string

  datatype Link = Link(role: string, kind: Kind, digest: Digest)

  datatype Node = Node(kind: Kind, artifactId: nat, digest: Digest, parents: seq<Link>)

  datatype Rule = Rule(required: set<Kind>, allowed: set<Kind>)

  datatype Policy = Policy(rules: map<Kind, Rule>, maxNodes: nat)

  datatype LineageError =
    | NoNodes | TooManyNodes | DuplicateDigest | IdCollision
    | NoRule | MissingParent | ParentTypeMismatch | ForbiddenParent | MissingRequired | CyclicLineage

  function ParentDigests(n: Node): set<Digest> { set l | l in n.parents :: l.digest }

  function ParentKinds(n: Node): set<Kind> { set l | l in n.parents :: l.kind }

  datatype Edges = Edges(children: map<Digest, set<Digest>>, indegree: map<Digest, nat>)

  /** The nodes by digest; a later node replaces an earlier one. */
  function ByDigest(nodes: seq<Node>): map<Digest, Node> {
    if nodes == [] then map[] else ByDigest(nodes[..|nodes| - 1])[nodes[|nodes| - 1].digest := nodes[|nodes| - 1]]
  }

  function GraphOf(index: map<Digest, Node>): Graph { map d | d in index :: ParentDigests(index[d]) }

  ghost predicate UniqueDigests(nodes: seq<Node>) {
    forall i, j :: 0 <= i < j < |nodes| ==> nodes[i].digest != nodes[j].digest
  }

  ghost predicate UniqueIds(nodes: seq<Node>) {
    forall i, j :: 0 <= i < j < |nodes| ==> nodes[i].artifactId != nodes[j].artifactId
  }

  /** One link fits the rule of its child and the node it names. */
  predicate LinkFits(l: Link, index: map<Digest, Node>, rule: Rule) {
    l.digest in index && index[l.digest].kind == l.kind && l.kind in rule.allowed
  }

  /** A node's parents exist, have their declared kinds, and satisfy its rule. */
  ghost predicate NodeFits(n: Node, index: map<Digest, Node>, policy: Policy) {
    && n.kind in policy.rules
    && (forall l :: l in n.parents ==> LinkFits(l, index, policy.rules[n.kind]))
    && policy.rules[n.kind].required <= ParentKinds(n)
  }

  /** Everything but acyclicity. */
  ghost predicate WellTyped(nodes: seq<Node>, policy: Policy) {
    && 1 <= |nodes| <= policy.maxNodes && UniqueDigests(nodes) && UniqueIds(nodes)
    && forall i :: 0 <= i < |nodes| ==> NodeFits(nodes[i], ByDigest(nodes), policy)
  }

  /** A map that indexes a list of nodes. */
  ghost predicate Indexes(index: map<Digest, Node>, nodes: seq<Node>) {
    && (forall i :: 0 <= i < |nodes| ==> nodes[i].digest in index && index[nodes[i].digest] == nodes[i])
    && (forall d :: d in index ==> index[d] in nodes && index[d].digest == d)
    && |index| == |nodes|
  }

  lemma IndexesOneMore(index: map<Digest, Node>, nodes: seq<Node>, last: Node)
    requires Indexes(index, nodes) && UniqueDigests(nodes + [last])
    ensures Indexes(index[last.digest := last], nodes + [last])
  {
    var all := nodes + [last];
    forall n | n in nodes ensures n.digest != last.digest {
      var i :| 0 <= i < |nodes| && nodes[i] == n;
      assert all[i] == n && all[|nodes|] == last;
    }
    assert last.digest !in index;
  }

  lemma {:induction false} IndexHolds(nodes: seq<Node>)
    requires UniqueDigests(nodes)
    ensures Indexes(ByDigest(nodes), nodes)
    decreases |nodes|
  {
    hide Indexes;
    if nodes == [] {
      NoneIndexed();
    } else {
      var n := |nodes| - 1;
      IndexHolds(nodes[..n]);
      assert nodes == nodes[..n] + [nodes[n]];
      IndexesOneMore(ByDigest(nodes[..n]), nodes[..n], nodes[n]);
    }
  }

  lemma NoneIndexed()
    ensures Indexes(map[], [])
  {
  }

  /** Two lists of the same nodes have the same index, so nothing depends on the order of the input. */
  lemma IndexIgnoresOrder(nodes: seq<Node>, others: seq<Node>)
    requires UniqueDigests(nodes) && UniqueDigests(others) && forall n :: n in nodes <==> n in others
    ensures ByDigest(nodes) == ByDigest(others)
  {
    hide UniqueDigests, ByDigest;
    forall d | d in ByDigest(nodes) ensures d in ByDigest(others) && ByDigest(others)[d] == ByDigest(nodes)[d] {
      Stored(nodes, d);
      Found(others, ByDigest(nodes)[d]);
    }
    forall d | d in ByDigest(others) ensures d in ByDigest(nodes) {
      Stored(others, d);
      Found(nodes, ByDigest(others)[d]);
    }
  }

  lemma Stored(nodes: seq<Node>, d: Digest)
    requires UniqueDigests(nodes) && d in ByDigest(nodes)
    ensures ByDigest(nodes)[d] in nodes && ByDigest(nodes)[d].digest == d
  {
    hide UniqueDigests, ByDigest;
    IndexHolds(nodes);
  }

  lemma Found(nodes: seq<Node>, n: Node)
    requires UniqueDigests(nodes) && n in nodes
    ensures n.digest in ByDigest(nodes) && ByDigest(nodes)[n.digest] == n
  {
    hide UniqueDigests, ByDigest;
    IndexHolds(nodes);
  }

  /** The first node that repeats a digest or an identifier. */
  ghost predicate Repeats(nodes: seq<Node>, k: nat) {
    k < |nodes| && UniqueDigests(nodes[..k]) && UniqueIds(nodes[..k])
    && !(UniqueDigests(nodes[..k + 1]) && UniqueIds(nodes[..k + 1]))
  }

  /** A repeated digest is blamed before a repeated identifier. */
  ghost function RepetitionFault(nodes: seq<Node>, k: nat): LineageError
    requires k < |nodes|
  {
    if exists i :: 0 <= i < k && nodes[i].digest == nodes[k].digest then DuplicateDigest else IdCollision
  }

  lemma PrefixUnique(nodes: seq<Node>, k: nat)
    requires k < |nodes| && UniqueDigests(nodes[..k]) && UniqueIds(nodes[..k])
    requires forall i :: 0 <= i < k ==> nodes[i].digest != nodes[k].digest && nodes[i].artifactId != nodes[k].artifactId
    ensures UniqueDigests(nodes[..k + 1]) && UniqueIds(nodes[..k + 1])
    ensures ByDigest(nodes[..k + 1]) == ByDigest(nodes[..k])[nodes[k].digest := nodes[k]]
  {
    assert nodes[..k + 1][..k] == nodes[..k];
  }

  ghost predicate DigestSeen(nodes: seq<Node>, k: nat, d: Digest) {
    exists i :: 0 <= i < k && i < |nodes| && nodes[i].digest == d
  }

  ghost predicate IdSeen(nodes: seq<Node>, k: nat, id: nat, d: Digest) {
    exists i :: 0 <= i < k && i < |nodes| && nodes[i].artifactId == id && nodes[i].digest == d
  }

  /** What the two lookup tables say about the nodes seen so far. */
  ghost predicate Indexed(nodes: seq<Node>, k: nat, byDigest: map<Digest, Node>, byId: map<nat, Digest>)
    requires k <= |nodes|
  {
    && (forall i :: 0 <= i < k ==> nodes[i].digest in byDigest && nodes[i].artifactId in byId)
    && (forall d :: d in byDigest ==> DigestSeen(nodes, k, d))
    && (forall x :: x in byId ==> IdSeen(nodes, k, x, byId[x]))
  }

  lemma StillSeen(nodes: seq<Node>, k: nat, d: Digest, id: nat)
    requires k < |nodes|
    ensures DigestSeen(nodes, k, d) ==> DigestSeen(nodes, k + 1, d)
    ensures IdSeen(nodes, k, id, d) ==> IdSeen(nodes, k + 1, id, d)
    ensures DigestSeen(nodes, k + 1, nodes[k].digest) && IdSeen(nodes, k + 1, nodes[k].artifactId, nodes[k].digest)
  {
  }

  lemma IndexedStep(nodes: seq<Node>, k: nat, byDigest: map<Digest, Node>, byId: map<nat, Digest>)
    requires k < |nodes| && Indexed(nodes, k, byDigest, byId) && nodes[k].digest !in byDigest
      && nodes[k].artifactId !in byId
    ensures Indexed(nodes, k + 1, byDigest[nodes[k].digest := nodes[k]], byId[nodes[k].artifactId := nodes[k].digest])
    ensures forall i :: 0 <= i < k ==> nodes[i].digest != nodes[k].digest && nodes[i].artifactId != nodes[k].artifactId
  {
    hide DigestSeen, IdSeen;
    var d', i' := byDigest[nodes[k].digest := nodes[k]], byId[nodes[k].artifactId := nodes[k].digest];
    forall d | d in d' ensures DigestSeen(nodes, k + 1, d) {
      StillSeen(nodes, k, d, 0);
    }
    forall x | x in i' ensures IdSeen(nodes, k + 1, x, i'[x]) {
      StillSeen(nodes, k, i'[x], x);
    }
  }

  lemma SeenDigestRepeats(nodes: seq<Node>, k: nat)
    requires k < |nodes| && DigestSeen(nodes, k, nodes[k].digest)
    ensures !UniqueDigests(nodes)
  {
  }

  lemma SeenIdRepeats(nodes: seq<Node>, k: nat, d: Digest)
    requires k < |nodes| && IdSeen(nodes, k, nodes[k].artifactId, d)
    ensures !UniqueIds(nodes) && DigestSeen(nodes, k, d)
  {
  }

  /** A digest seen twice, or an identifier already taken, is a repetition. */
  lemma SeenTwice(nodes: seq<Node>, k: nat, byDigest: map<Digest, Node>, byId: map<nat, Digest>)
    requires k < |nodes| && Indexed(nodes, k, byDigest, byId)
    ensures nodes[k].digest in byDigest ==> !UniqueDigests(nodes)
    ensures nodes[k].artifactId in byId ==> !UniqueIds(nodes)
    ensures nodes[k].artifactId in byId && byId[nodes[k].artifactId] == nodes[k].digest ==> nodes[k].digest in byDigest
  {
    hide DigestSeen, IdSeen, UniqueDigests, UniqueIds;
    if nodes[k].digest in byDigest {
      SeenDigestRepeats(nodes, k);
    }
    if nodes[k].artifactId in byId {
      SeenIdRepeats(nodes, k, byId[nodes[k].artifactId]);
      SeenStored(nodes, k, byDigest, byId, byId[nodes[k].artifactId]);
    }
  }

  lemma SeenStored(nodes: seq<Node>, k: nat, byDigest: map<Digest, Node>, byId: map<nat, Digest>, d: Digest)
    requires k < |nodes| && Indexed(nodes, k, byDigest, byId) && DigestSeen(nodes, k, d)
    ensures d in byDigest
  {
    hide IdSeen;
  }

  lemma RepeatedDigest(nodes: seq<Node>, k: nat, byDigest: map<Digest, Node>, byId: map<nat, Digest>)
    requires k < |nodes| && Indexed(nodes, k, byDigest, byId) && nodes[k].digest in byDigest
    requires UniqueDigests(nodes[..k]) && UniqueIds(nodes[..k])
    ensures Repeats(nodes, k) && RepetitionFault(nodes, k) == DuplicateDigest
  {
    hide UniqueIds, IdSeen;
    assert DigestSeen(nodes, k, nodes[k].digest);
    hide Indexed;
    var i :| 0 <= i < k && nodes[i].digest == nodes[k].digest;
    assert nodes[..k + 1][i].digest == nodes[..k + 1][k].digest;
  }

  lemma RepeatedId(nodes: seq<Node>, k: nat, byDigest: map<Digest, Node>, byId: map<nat, Digest>)
    requires k < |nodes| && Indexed(nodes, k, byDigest, byId) && nodes[k].digest !in byDigest
    requires nodes[k].artifactId in byId && UniqueDigests(nodes[..k]) && UniqueIds(nodes[..k])
    ensures Repeats(nodes, k) && RepetitionFault(nodes, k) == IdCollision
  {
    hide UniqueDigests;
    assert IdSeen(nodes, k, nodes[k].artifactId, byId[nodes[k].artifactId]);
    var i :| 0 <= i < k && nodes[i].artifactId == nodes[k].artifactId;
    assert nodes[..k + 1][i].artifactId == nodes[..k + 1][k].artifactId;
  }

  /** Index the nodes, refusing repeated digests and colliding identifiers. */
  method Index(nodes: seq<Node>) returns (r: Result<map<Digest, Node>, LineageError>)
    ensures r.Ok? <==> UniqueDigests(nodes) && UniqueIds(nodes)
    ensures r.Ok? ==> r.value == ByDigest(nodes)
    ensures r.Err? ==> r.error != CyclicLineage && exists k :: Repeats(nodes, k) && r.error == RepetitionFault(nodes, k)
  {
    hide Indexed, UniqueDigests, UniqueIds, ByDigest;
    var byDigest: map<Digest, Node> := map[];
    var byId: map<nat, Digest> := map[];
    NothingIndexed(nodes);
    for k := 0 to |nodes|
      invariant byDigest == ByDigest(nodes[..k])
      invariant UniqueDigests(nodes[..k]) && UniqueIds(nodes[..k])
      invariant Indexed(nodes, k, byDigest, byId)
    {
      var node := nodes[k];
      SeenTwice(nodes, k, byDigest, byId);
      if node.digest in byDigest {
        RepeatedDigest(nodes, k, byDigest, byId);
        return Err(DuplicateDigest);
      }
      if node.artifactId in byId && byId[node.artifactId] != node.digest {
        RepeatedId(nodes, k, byDigest, byId);
        return Err(IdCollision);
      }
      IndexedStep(nodes, k, byDigest, byId);
      PrefixUnique(nodes, k);
      byDigest := byDigest[node.digest := node];
      byId := byId[node.artifactId := node.digest];
    }
    assert nodes[..|nodes|] == nodes;
    return Ok(byDigest);
  }

  lemma NothingIndexed(nodes: seq<Node>)
    ensures Indexed(nodes, 0, map[], map[]) && UniqueDigests(nodes[..0]) && UniqueIds(nodes[..0])
      && ByDigest(nodes[..0]) == map[]
  {
  }

  /** The edge tables cover these digests: who depends on each, and on how many each depends. */
  ghost predicate EdgesCover(e: Edges, g: Graph, seen: set<Digest>) {
    && e.children.Keys == g.Keys && e.indegree.Keys == g.Keys
    && (forall p, c :: p in g ==> (c in e.children[p] <==> c in seen && c in g && p in g[c]))
    && forall c :: c in g && c in seen ==> e.indegree[c] == |g[c]|
  }

  /** What is wrong with a link, if anything: its parent is missing, is of another kind than declared, or is of a kind
      that the rule forbids; the first of these is blamed. */
  ghost function LinkFault(l: Link, index: map<Digest, Node>, rule: Rule): Option<LineageError> {
    if l.digest !in index then Some(MissingParent)
    else if index[l.digest].kind != l.kind then Some(ParentTypeMismatch)
    else if l.kind !in rule.allowed then Some(ForbiddenParent)
    else None
  }

  /** What is wrong with a node: it has no rule, or a first link at fault, or lacks a parent that its rule requires. */
  ghost predicate NodeFault(n: Node, index: map<Digest, Node>, policy: Policy, e: LineageError) {
    if n.kind !in policy.rules then e == NoRule
    else
      var rule := policy.rules[n.kind];
      || (exists k :: 0 <= k < |n.parents| && LinkFault(n.parents[k], index, rule) == Some(e)
            && forall i :: 0 <= i < k ==> LinkFault(n.parents[i], index, rule) == None)
      || (e == MissingRequired && (forall i :: 0 <= i < |n.parents| ==> LinkFault(n.parents[i], index, rule) == None)
            && exists kind :: kind in rule.required && forall l :: l in n.parents ==> l.kind != kind)
  }

  /** The first node at fault. */
  ghost predicate FirstFault(nodes: seq<Node>, k: nat, index: map<Digest, Node>, policy: Policy, e: LineageError) {
    && k < |nodes| && NodeFault(nodes[k], index, policy, e)
    && forall i :: 0 <= i < k ==> NodeFits(nodes[i], index, policy)
  }

  /** Check one node's parents, link by link. */
  method CheckParents(n: Node, index: map<Digest, Node>, policy: Policy)
        returns (r: Result<set<Digest>, LineageError>)
    ensures r.Ok? <==> NodeFits(n, index, policy)
    ensures r.Ok? ==> r.value == ParentDigests(n)
    ensures r.Err? ==> r.error != CyclicLineage && NodeFault(n, index, policy, r.error)
  {
    if n.kind !in policy.rules {
      return Err(NoRule);
    }
    var rule := policy.rules[n.kind];
    var observed: set<Kind>, digests: set<Digest> := {}, {};
    for k := 0 to |n.parents|
      invariant forall i :: 0 <= i < k ==> LinkFits(n.parents[i], index, rule)
      invariant forall i :: 0 <= i < k ==> LinkFault(n.parents[i], index, rule) == None
      invariant observed == set i | 0 <= i < k :: n.parents[i].kind
      invariant digests == set i | 0 <= i < k :: n.parents[i].digest
    {
      var link := n.parents[k];
      assert link in n.parents;
      if link.digest !in index {
        return Err(MissingParent);
      }
      if index[link.digest].kind != link.kind {
        return Err(ParentTypeMismatch);
      }
      if link.kind !in rule.allowed {
        return Err(ForbiddenParent);
      }
      observed := observed + {link.kind};
      digests := digests + {link.digest};
    }
    assert observed == ParentKinds(n) && digests == ParentDigests(n);
    if !(rule.required <= observed) {
      var kind :| kind in rule.required && kind !in observed;
      assert forall l :: l in n.parents ==> l.kind != kind;
      return Err(MissingRequired);
    }
    return Ok(digests);
  }

  /** The table with a child added under each of these parents. */
  ghost predicate ChildAdded(children: map<Digest, set<Digest>>, parents: set<Digest>, c: Digest,
                             r: map<Digest, set<Digest>>) {
    r.Keys == children.Keys && forall p, x :: p in children ==>
      (x in r[p] <==> x in children[p] || (x == c && p in parents))
  }

  lemma ChildAddedStep(children: map<Digest, set<Digest>>, parents: set<Digest>, c: Digest,
                       r: map<Digest, set<Digest>>, p: Digest)
    requires ChildAdded(children, parents, c, r) && p in r
    ensures ChildAdded(children, parents + {p}, c, r[p := r[p] + {c}])
  {
  }

  /** Record a child under each of its parents. */
  method AddChild(children: map<Digest, set<Digest>>, parents: set<Digest>, c: Digest)
      returns (r: map<Digest, set<Digest>>)
    requires parents <= children.Keys
    ensures r.Keys == children.Keys && ChildAdded(children, parents, c, r)
  {
    r := children;
    var todo := parents;
    assert ChildAdded(children, {}, c, r);
    hide ChildAdded;
    ghost var added: set<Digest> := {};
    while todo != {}
      invariant todo + added == parents && r.Keys == children.Keys && ChildAdded(children, added, c, r)
      decreases |todo|
    {
      var p :| p in todo;
      todo := todo - {p};
      ChildAddedStep(children, added, c, r, p);
      added := added + {p};
      r := r[p := r[p] + {c}];
    }
  }

  lemma CoverOneMore(e: Edges, g: Graph, seen: set<Digest>, c: Digest, children: map<Digest, set<Digest>>)
    requires EdgesCover(e, g, seen) && c in g && ChildAdded(e.children, g[c], c, children)
    ensures EdgesCover(Edges(children, e.indegree[c := |g[c]|]), g, seen + {c})
  {
    forall p, x | p in g ensures x in children[p] <==> x in seen + {c} && x in g && p in g[x] {
      assert x in e.children[p] <==> x in seen && x in g && p in g[x];
    }
  }

  /** Check every node against its rule and build the edge tables. */
  method BuildEdges(nodes: seq<Node>, index: map<Digest, Node>, policy: Policy)
        returns (r: Result<Edges, LineageError>)
    requires UniqueDigests(nodes) && index == ByDigest(nodes)
    ensures r.Ok? <==> forall i :: 0 <= i < |nodes| ==> NodeFits(nodes[i], index, policy)
    ensures r.Ok? ==> Closed(GraphOf(index)) && EdgesCover(r.value, GraphOf(index), GraphOf(index).Keys)
    ensures r.Err? ==> r.error != CyclicLineage && exists k :: FirstFault(nodes, k, index, policy, r.error)
  {
    hide ByDigest, UniqueDigests, NodeFits, EdgesCover, ChildAdded, NodeFault;
    ghost var g := GraphOf(index);
    var children: map<Digest, set<Digest>> := map d | d in index :: {};
    var indegree: map<Digest, nat> := map d | d in index :: 0;
    ghost var seen: set<Digest> := {};
    NothingCovered(index);
    for k := 0 to |nodes|
      invariant forall i :: 0 <= i < k ==> NodeFits(nodes[i], index, policy) && nodes[i].digest in seen
      invariant EdgesCover(Edges(children, indegree), g, seen) && children.Keys == index.Keys
    {
      var node := nodes[k];
      var checked := CheckParents(node, index, policy);
      if checked.Err? {
        assert FirstFault(nodes, k, index, policy, checked.error);
        return Err(checked.error);
      }
      ghost var before := Edges(children, indegree);
      FittingParents(node, index, policy);
      Found(nodes, node);
      children := AddChild(children, checked.value, node.digest);
      indegree := indegree[node.digest := |checked.value|];
      CoverOneMore(before, g, seen, node.digest, children);
      seen := seen + {node.digest};
    }
    AllCovered(nodes, index, policy, Edges(children, indegree), seen);
    return Ok(Edges(children, indegree));
  }

  lemma NothingCovered(index: map<Digest, Node>)
    ensures EdgesCover(Edges(map d | d in index :: {}, map d | d in index :: 0), GraphOf(index), {})
  {
  }

  lemma FittingParents(n: Node, index: map<Digest, Node>, policy: Policy)
    requires NodeFits(n, index, policy)
    ensures ParentDigests(n) <= index.Keys
  {
  }

  lemma AllCovered(nodes: seq<Node>, index: map<Digest, Node>, policy: Policy, e: Edges, seen: set<Digest>)
    requires UniqueDigests(nodes) && index == ByDigest(nodes) && EdgesCover(e, GraphOf(index), seen)
    requires forall i :: 0 <= i < |nodes| ==> NodeFits(nodes[i], index, policy) && nodes[i].digest in seen
    ensures Closed(GraphOf(index)) && EdgesCover(e, GraphOf(index), GraphOf(index).Keys)
  {
    hide NodeFits, UniqueDigests, ByDigest, EdgesCover;
    forall d | d in index ensures ParentDigests(index[d]) <= index.Keys && d in seen {
      Stored(nodes, d);
      var i :| 0 <= i < |nodes| && nodes[i] == index[d];
      FittingParents(nodes[i], index, policy);
    }
    CoverAll(e, GraphOf(index), seen);
  }

  lemma CoverAll(e: Edges, g: Graph, seen: set<Digest>)
    requires EdgesCover(e, g, seen) && g.Keys <= seen
    ensures EdgesCover(e, g, g.Keys)
  {
    forall p, c | p in g ensures c in e.children[p] <==> c in g.Keys && c in g && p in g[c] {
      assert c in e.children[p] <==> c in seen && c in g && p in g[c];
    }
  }
}
