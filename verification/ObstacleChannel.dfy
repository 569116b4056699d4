/** Channel streaming around an obstacle: the staged pipeline followed by bounce-back along the obstacle's
    links, against the fused kernel that does all of it in one gather. */
module ObstacleChannel {
  import opened ChannelGather
  import opened ChannelRefinement
  import opened ChannelStages
  import opened Forces
  import opened Lattice
  import opened ObstacleAgreement
  import opened Wrappers

  /** The same along a given list of links. */
  function BouncedBy(staged: real, f: Field, solid: Mask, links: seq<Link>, y: int, x: int, d: int): real {
    if Link(y, x, Opposite(d)) in links then f(y, x, Opposite(d)) else if solid(y, x) then f(y, x, d) else staged
  }

  ghost predicate Masks(mask: array2<bool>, solid: Mask, ny: int, nx: int)
    reads mask
  {
    mask.Length0 == ny && mask.Length1 == nx && forall y, x :: 0 <= y < ny && 0 <= x < nx ==> mask[y, x] == solid(y, x)
  }

  /** Every listed link is one of the mask's. */
  ghost predicate LinksFit(links: seq<Link>, solid: Mask, ny: int, nx: int) {
    forall i :: 0 <= i < |links| ==> IsLink(solid, ny, nx, links[i].y, links[i].x, links[i].d)
  }

  /** Refuse links that do not run from a fluid cell to a solid one. */
  method ValidateLinks(mask: array2<bool>, links: seq<Link>, ghost solid: Mask) returns (ok: bool)
    requires Masks(mask, solid, mask.Length0, mask.Length1)
    requires forall i :: 0 <= i < |links| ==>
      0 <= links[i].y < mask.Length0 && 0 <= links[i].x < mask.Length1 && 1 <= links[i].d < 9
    ensures ok <==> LinksFit(links, solid, mask.Length0, mask.Length1)
  {
    var ny, nx := mask.Length0, mask.Length1;
    for i := 0 to |links|
      invariant LinksFit(links[..i], solid, ny, nx)
    {
      var l := links[i];
      var neighborY, neighborX := l.y + Cy(l.d), l.x + Cx(l.d);
      if mask[l.y, l.x] || !(0 <= neighborY < ny) || !(0 <= neighborX < nx) || !mask[neighborY, neighborX] {
        assert !IsLink(solid, ny, nx, links[i].y, links[i].x, links[i].d);
        return false;
      }
    }
    return true;
  }

  /** Overwrite solid cells, then each link's returning population, in place on a copy. */
  method ApplyObstacleBounceBack(streamed: array3<real>, post: array3<real>, mask: array2<bool>, links: seq<Link>,
                                 ghost solid: Mask)
      returns (result: array3<real>)
    requires post.Length2 == 9 && Shaped(streamed, post.Length0, post.Length1)
      && Masks(mask, solid, post.Length0, post.Length1)
    requires LinksFit(links, solid, post.Length0, post.Length1)
    ensures fresh(result) && Shaped(result, post.Length0, post.Length1)
    ensures forall y, x, d :: OnGrid(post.Length0, post.Length1, y, x, d) ==>
      result[y, x, d] == BouncedBy(streamed[y, x, d], Snapshot(post), solid, links, y, x, d)
  {
    ghost var f := Snapshot(post);
    hide Snapshot;
    var ny, nx := post.Length0, post.Length1;
    result := new real[ny, nx, 9](
      (y, x, d)
        requires OnGrid(ny, nx, y, x, d) && Shaped(streamed, ny, nx) && Shaped(post, ny, nx)
        requires mask.Length0 == ny && mask.Length1 == nx
        reads streamed, post, mask
      => if mask[y, x] then post[y, x, d] else streamed[y, x, d]);
    NoLinksYet(links);
    for i := 0 to |links|
      invariant forall y, x, d :: OnGrid(ny, nx, y, x, d) ==>
        result[y, x, d] == BouncedBy(streamed[y, x, d], f, solid, links[..i], y, x, d)
    {
      var l := links[i];
      OneMoreLink(links, i);
      assert IsLink(solid, ny, nx, l.y, l.x, l.d);
      DirectionTables(l.d, l.d);
      forall d | 0 <= d < 9 ensures Opposite(d) == l.d <==> d == Opposite(l.d) {
        DirectionTables(d, l.d);
      }
      result[l.y, l.x, Opposite(l.d)] := post[l.y, l.x, l.d];
    }
    assert links[..|links|] == links;
  }

  lemma NoLinksYet(links: seq<Link>)
    ensures forall l :: l !in links[..0]
  {
  }

  lemma OneMoreLink(links: seq<Link>, i: nat)
    requires i < |links|
    ensures forall l :: l in links[..i + 1] <==> l in links[..i] || l == links[i]
  {
    assert links[..i + 1] == links[..i] + [links[i]];
  }

  /** The complete list of links bounces what the mask bounces. */
  lemma AllLinksBounce(staged: real, f: Field, solid: Mask, ny: int, nx: nat, y: int, x: int, d: int)
    requires 0 <= y < ny && 0 <= x < nx && 0 <= d < 9
    ensures BouncedBy(staged, f, solid, GridLinks(solid, ny, nx, ny), y, x, d)
      == Bounced(staged, f, solid, ny, nx, y, x, d)
  {
    GridLinksExact(solid, ny, nx, ny);
    hide GridLinks;
    var l := Link(y, x, Opposite(d));
    assert l in GridLinks(solid, ny, nx, ny) <==> IsLink(solid, ny, nx, y, x, Opposite(d));
  }

  lemma LinksOfMaskFit(solid: Mask, ny: int, nx: nat)
    requires ny >= 0
    ensures LinksFit(GridLinks(solid, ny, nx, ny), solid, ny, nx)
  {
    GridLinksExact(solid, ny, nx, ny);
    hide GridLinks, IsLink;
    var links := GridLinks(solid, ny, nx, ny);
    forall i | 0 <= i < |links| ensures IsLink(solid, ny, nx, links[i].y, links[i].x, links[i].d) {
      assert links[i] in links;
    }
  }

  /** Streaming of a masked channel in stages: enumerate the links, stream the channel as if empty, bounce
      back. It refuses what the empty channel refuses. The result is bounce-back after the empty channel's
      kernel for every mask, and the fused kernel with solid cells for every compatible one. */
  method StreamAroundObstacle(post: array3<real>, mask: array2<bool>, u: real, ghost solid: Mask)
      returns (r: Result<array3<real>, SolverError>)
    requires Masks(mask, solid, post.Length0, post.Length1)
    ensures r.Ok? <==> (
      && post.Length2 == 9 && 0.0 <= u <= 0.1 && post.Length0 >= 5 && post.Length1 >= 3
      && forall y, x :: 0 <= y < post.Length0 && 0 <= x < post.Length1 ==>
           Gather(Snapshot(post), NoSolid, u, post.Length0, post.Length1, y, x).Some?)
    ensures r.Ok? ==> Shaped(r.value, post.Length0, post.Length1)
    ensures r.Ok? ==> forall y, x, d :: OnGrid(post.Length0, post.Length1, y, x, d) ==>
      r.value[y, x, d] == Bounced(Gather(Snapshot(post), NoSolid, u, post.Length0, post.Length1, y, x).value.At(d),
                                  Snapshot(post), solid, post.Length0, post.Length1, y, x, d)
    ensures r.Ok? && Compatible(solid, post.Length0, post.Length1) ==>
      forall y, x, d :: OnGrid(post.Length0, post.Length1, y, x, d) ==>
      && Gather(Snapshot(post), solid, u, post.Length0, post.Length1, y, x).Some?
      && r.value[y, x, d] == Gather(Snapshot(post), solid, u, post.Length0, post.Length1, y, x).value.At(d)
  {
    hide Snapshot, Gather, GridLinks, Zipped, Compatible, LinksFit, Bounced, BouncedBy;
    var streamed, writers := PullStreamChannel(post, u);
    if streamed.Err? {
      return streamed;
    }
    ghost var f := Snapshot(post);
    ghost var ny, nx := post.Length0, post.Length1;
    var listed := EnumerateObstacleLinks(mask, solid);
    var links := Zipped(listed.value.0, listed.value.1, listed.value.2);
    LinksOfMaskFit(solid, ny, nx);
    var result := ApplyObstacleBounceBack(streamed.value, post, mask, links, solid);
    forall y, x, d | OnGrid(ny, nx, y, x, d)
      ensures result[y, x, d] == Bounced(Gather(f, NoSolid, u, ny, nx, y, x).value.At(d), f, solid, ny, nx, y, x, d)
    {
      AllLinksBounce(streamed.value[y, x, d], f, solid, ny, nx, y, x, d);
    }
    if Compatible(solid, ny, nx) {
      forall y, x, d | OnGrid(ny, nx, y, x, d)
        ensures Gather(f, solid, u, ny, nx, y, x).Some?
          && result[y, x, d] == Gather(f, solid, u, ny, nx, y, x).value.At(d)
      {
        GatherAround(f, solid, u, ny, nx, y, x, d);
      }
    }
    return Ok(result);
  }

  /** Around a compatible mask, fused with the solid cells against fused without them and bounced. */
  lemma GatherAround(f: Field, solid: Mask, u: real, ny: int, nx: int, y: int, x: int, d: int)
    requires ny >= MIN_CHANNEL_NY && nx >= MIN_CHANNEL_NX && u != 1.0 && Compatible(solid, ny, nx)
    requires 0 <= y < ny && 0 <= x < nx && 0 <= d < 9
    ensures var empty, fused := Gather(f, NoSolid, u, ny, nx, y, x), Gather(f, solid, u, ny, nx, y, x);
      && (empty.Some? <==> fused.Some?)
      && (empty.Some? ==> fused.value.At(d) == Bounced(empty.value.At(d), f, solid, ny, nx, y, x, d))
  {
    hide GatherWith, Bounced, Compatible, InletOutlet;
    StagesRefineGather(f, f, u, ny, nx, y, x);
    CompatibleAgrees(f, solid, u, ny, nx, y, x);
  }
}
