/** Obstacle links and the tiled momentum-exchange reduction over them. */
module Forces {
  import opened ChannelGather
  import opened Conservation
  import opened GridSums
  import opened Lattice
  import opened Wrappers

  datatype ForceError = MaskError

  const FORCE_REDUCTION_TILE_LINKS := 256

  datatype Link = Link(y: int, x: int, d: int)
  {
    /** Place of the link in the fixed row, column, direction order. */
    function Key(nx: int): int { (y * nx + x) * 9 + d }

    predicate Before(o: Link) {
      y < o.y || (y == o.y && (x < o.x || (x == o.x && d < o.d)))
    }
  }

  /** A fluid cell whose neighbour along d is a solid cell of the grid. */
  predicate IsLink(solid: Mask, ny: int, nx: int, y: int, x: int, d: int) {
    && 0 <= y < ny && 0 <= x < nx && 1 <= d < 9 && !solid(y, x)
    && 0 <= y + Cy(d) < ny && 0 <= x + Cx(d) < nx && solid(y + Cy(d), x + Cx(d))
  }

  /** Links of one cell with directions below k, of the first x cells of a row, and of the first y rows. */
  function CellLinks(solid: Mask, ny: int, nx: int, y: int, x: int, k: nat): seq<Link> {
    if k <= 1 then []
    else CellLinks(solid, ny, nx, y, x, k - 1) + if IsLink(solid, ny, nx, y, x, k - 1) then [Link(y, x, k - 1)] else []
  }

  function RowLinks(solid: Mask, ny: int, nx: int, y: int, x: nat): seq<Link> {
    if x == 0 then [] else RowLinks(solid, ny, nx, y, x - 1) + CellLinks(solid, ny, nx, y, x - 1, 9)
  }

  function GridLinks(solid: Mask, ny: int, nx: nat, y: nat): seq<Link> {
    if y == 0 then [] else GridLinks(solid, ny, nx, y - 1) + RowLinks(solid, ny, nx, y - 1, nx)
  }

  /** Three parallel lists read as one list of links. */
  function Zipped(ys: seq<int>, xs: seq<int>, ds: seq<int>): (links: seq<Link>)
    requires |ys| == |xs| == |ds|
    ensures |links| == |ys|
  {
    seq(|ys|, i requires 0 <= i < |ys| => Link(ys[i], xs[i], ds[i]))
  }

  lemma ZippedPush(ys: seq<int>, xs: seq<int>, ds: seq<int>, y: int, x: int, d: int)
    requires |ys| == |xs| == |ds|
    ensures Zipped(ys + [y], xs + [x], ds + [d]) == Zipped(ys, xs, ds) + [Link(y, x, d)]
  {
  }

  method EnumerateObstacleLinks(mask: array2<bool>, ghost solid: Mask)
      returns (r: Result<(seq<int>, seq<int>, seq<int>), ForceError>)
    requires forall y, x :: 0 <= y < mask.Length0 && 0 <= x < mask.Length1 ==> mask[y, x] == solid(y, x)
    ensures r.Ok? <==> mask.Length0 > 0 && mask.Length1 > 0
    ensures r.Ok? ==> |r.value.0| == |r.value.1| == |r.value.2|
    ensures r.Ok? ==>
      Zipped(r.value.0, r.value.1, r.value.2) == GridLinks(solid, mask.Length0, mask.Length1, mask.Length0)
  {
    var ny, nx := mask.Length0, mask.Length1;
    if ny == 0 || nx == 0 {
      return Err(MaskError);
    }
    var fluidY, fluidX, directions: seq<int> := [], [], [];
    for y := 0 to ny
      invariant |fluidY| == |fluidX| == |directions|
      invariant Zipped(fluidY, fluidX, directions) == GridLinks(solid, ny, nx, y)
    {
      fluidY, fluidX, directions := ScanRow(mask, solid, y, fluidY, fluidX, directions);
    }
    r := Ok((fluidY, fluidX, directions));
  }

  method ScanRow(mask: array2<bool>, ghost solid: Mask, y: nat, ys: seq<int>, xs: seq<int>, ds: seq<int>)
      returns (ys': seq<int>, xs': seq<int>, ds': seq<int>)
    requires forall y, x :: 0 <= y < mask.Length0 && 0 <= x < mask.Length1 ==> mask[y, x] == solid(y, x)
    requires y < mask.Length0 && |ys| == |xs| == |ds|
    ensures |ys'| == |xs'| == |ds'|
    ensures Zipped(ys', xs', ds') == Zipped(ys, xs, ds) + RowLinks(solid, mask.Length0, mask.Length1, y, mask.Length1)
  {
    hide CellLinks, Zipped, IsLink;
    var ny, nx := mask.Length0, mask.Length1;
    ys', xs', ds' := ys, xs, ds;
    for x := 0 to nx
      invariant |ys'| == |xs'| == |ds'|
      invariant Zipped(ys', xs', ds') == Zipped(ys, xs, ds) + RowLinks(solid, ny, nx, y, x)
    {
      if mask[y, x] {
        SolidCellHasNoLinks(solid, ny, nx, y, x, 9);
        continue;
      }
      ys', xs', ds' := ScanCell(mask, solid, y, x, ys', xs', ds');
    }
  }

  method ScanCell(mask: array2<bool>, ghost solid: Mask, y: nat, x: nat, ys: seq<int>, xs: seq<int>, ds: seq<int>)
      returns (ys': seq<int>, xs': seq<int>, ds': seq<int>)
    requires forall y, x :: 0 <= y < mask.Length0 && 0 <= x < mask.Length1 ==> mask[y, x] == solid(y, x)
    requires y < mask.Length0 && x < mask.Length1 && !mask[y, x] && |ys| == |xs| == |ds|
    ensures |ys'| == |xs'| == |ds'|
    ensures Zipped(ys', xs', ds') == Zipped(ys, xs, ds) + CellLinks(solid, mask.Length0, mask.Length1, y, x, 9)
  {
    hide Zipped;
    var ny, nx := mask.Length0, mask.Length1;
    ys', xs', ds' := ys, xs, ds;
    for d := 1 to 9
      invariant |ys'| == |xs'| == |ds'|
      invariant Zipped(ys', xs', ds') == Zipped(ys, xs, ds) + CellLinks(solid, ny, nx, y, x, d)
    {
      var neighborX, neighborY := x + Cx(d), y + Cy(d);
      if 0 <= neighborY < ny && 0 <= neighborX < nx && mask[neighborY, neighborX] {
        assert IsLink(solid, ny, nx, y, x, d);
        ZippedPush(ys', xs', ds', y, x, d);
        ys', xs', ds' := ys' + [y], xs' + [x], ds' + [d];
      } else {
        assert !IsLink(solid, ny, nx, y, x, d);
      }
    }
  }

  lemma {:induction false} SolidCellHasNoLinks(solid: Mask, ny: int, nx: int, y: int, x: int, k: nat)
    requires solid(y, x)
    ensures CellLinks(solid, ny, nx, y, x, k) == []
  {
    if k > 1 {
      SolidCellHasNoLinks(solid, ny, nx, y, x, k - 1);
    }
  }

  ghost predicate Ascending(links: seq<Link>) {
    forall i, j :: 0 <= i < j < |links| ==> links[i].Before(links[j])
  }

  lemma {:induction false} CellMember(solid: Mask, ny: int, nx: int, y: int, x: int, k: nat, l: Link)
    requires k <= 9
    ensures l in CellLinks(solid, ny, nx, y, x, k)
      <==> l.y == y && l.x == x && l.d < k && IsLink(solid, ny, nx, l.y, l.x, l.d)
  {
    if k > 1 {
      CellMember(solid, ny, nx, y, x, k - 1, l);
    }
  }

  lemma LinkOnGrid(solid: Mask, ny: int, nx: int, l: Link)
    ensures IsLink(solid, ny, nx, l.y, l.x, l.d) ==> 0 <= l.y < ny && 0 <= l.x < nx && 1 <= l.d < 9
  {
  }

  lemma {:induction false} RowMember(solid: Mask, ny: int, nx: int, y: int, x: nat, l: Link)
    ensures l in RowLinks(solid, ny, nx, y, x) <==> l.y == y && l.x < x && IsLink(solid, ny, nx, l.y, l.x, l.d)
  {
    LinkOnGrid(solid, ny, nx, l);
    hide IsLink, CellLinks;
    if x > 0 {
      RowMember(solid, ny, nx, y, x - 1, l);
      CellMember(solid, ny, nx, y, x - 1, 9, l);
    }
  }

  lemma {:induction false} GridMember(solid: Mask, ny: int, nx: nat, y: nat, l: Link)
    ensures l in GridLinks(solid, ny, nx, y) <==> l.y < y && IsLink(solid, ny, nx, l.y, l.x, l.d)
  {
    LinkOnGrid(solid, ny, nx, l);
    hide IsLink, RowLinks;
    if y > 0 {
      GridMember(solid, ny, nx, y - 1, l);
      RowMember(solid, ny, nx, y - 1, nx, l);
    }
  }

  lemma AscendingJoin(a: seq<Link>, b: seq<Link>)
    requires Ascending(a) && Ascending(b)
    requires forall i, j :: 0 <= i < |a| && 0 <= j < |b| ==> a[i].Before(b[j])
    ensures Ascending(a + b)
  {
  }

  lemma {:induction false} CellAscending(solid: Mask, ny: int, nx: int, y: int, x: int, k: nat)
    requires k <= 9
    ensures Ascending(CellLinks(solid, ny, nx, y, x, k))
  {
    if k > 1 {
      var a := CellLinks(solid, ny, nx, y, x, k - 1);
      CellAscending(solid, ny, nx, y, x, k - 1);
      forall i | 0 <= i < |a| ensures a[i].Before(Link(y, x, k - 1)) {
        CellMember(solid, ny, nx, y, x, k - 1, a[i]);
      }
      AscendingJoin(a, if IsLink(solid, ny, nx, y, x, k - 1) then [Link(y, x, k - 1)] else []);
    }
  }

  lemma EmptyAscending()
    ensures Ascending([])
  {
  }

  lemma {:induction false} RowAscending(solid: Mask, ny: int, nx: int, y: int, x: nat)
    ensures Ascending(RowLinks(solid, ny, nx, y, x))
  {
    hide IsLink, CellLinks, Ascending;
    EmptyAscending();
    if x > 0 {
      var a, b := RowLinks(solid, ny, nx, y, x - 1), CellLinks(solid, ny, nx, y, x - 1, 9);
      RowAscending(solid, ny, nx, y, x - 1);
      CellAscending(solid, ny, nx, y, x - 1, 9);
      forall i, j | 0 <= i < |a| && 0 <= j < |b| ensures a[i].Before(b[j]) {
        RowMember(solid, ny, nx, y, x - 1, a[i]);
        CellMember(solid, ny, nx, y, x - 1, 9, b[j]);
      }
      AscendingJoin(a, b);
    }
  }

  lemma {:induction false} GridAscending(solid: Mask, ny: int, nx: nat, y: nat)
    ensures Ascending(GridLinks(solid, ny, nx, y))
  {
    hide IsLink, RowLinks;
    if y > 0 {
      var a, b := GridLinks(solid, ny, nx, y - 1), RowLinks(solid, ny, nx, y - 1, nx);
      GridAscending(solid, ny, nx, y - 1);
      RowAscending(solid, ny, nx, y - 1, nx);
      forall i, j | 0 <= i < |a| && 0 <= j < |b| ensures a[i].Before(b[j]) {
        GridMember(solid, ny, nx, y - 1, a[i]);
        RowMember(solid, ny, nx, y - 1, nx, b[j]);
      }
      AscendingJoin(a, b);
    }
  }

  /** The enumeration lists every fluid-to-solid link of the first y rows exactly once, in row,
      column, direction order. */
  lemma GridLinksExact(solid: Mask, ny: int, nx: nat, y: nat)
    ensures Ascending(GridLinks(solid, ny, nx, y))
    ensures forall l :: l in GridLinks(solid, ny, nx, y) <==> l.y < y && IsLink(solid, ny, nx, l.y, l.x, l.d)
  {
    hide GridLinks, IsLink, Ascending;
    GridAscending(solid, ny, nx, y);
    forall l ensures l in GridLinks(solid, ny, nx, y) <==> l.y < y && IsLink(solid, ny, nx, l.y, l.x, l.d) {
      GridMember(solid, ny, nx, y, l);
    }
  }

  /** The checks an ObstacleLinks value makes of its lists: coordinates on the grid, moving
      directions, keys strictly increasing from each link to the next. */
  ghost predicate LinksAccepted(links: seq<Link>, ny: int, nx: int) {
    && (forall i :: 0 <= i < |links| ==> 0 <= links[i].y < ny && 0 <= links[i].x < nx && 0 < links[i].d < 9)
    && forall i :: 0 <= i < |links| - 1 ==> links[i].Key(nx) < links[i + 1].Key(nx)
  }

  lemma KeyFollowsOrder(a: Link, b: Link, nx: int)
    requires 0 <= a.x < nx && 0 <= b.x < nx && 0 < a.d < 9 && 0 < b.d < 9 && a.Before(b)
    ensures a.Key(nx) < b.Key(nx)
  {
    if a.y < b.y {
      ProductBounds(nx, b.y - a.y);
      assert b.y * nx - a.y * nx == nx * (b.y - a.y);
    }
  }

  /** Its own enumeration always passes the order check of the result type. */
  lemma EnumerationAccepted(solid: Mask, ny: int, nx: nat)
    requires ny >= 0
    ensures LinksAccepted(GridLinks(solid, ny, nx, ny), ny, nx)
  {
    var links := GridLinks(solid, ny, nx, ny);
    GridLinksExact(solid, ny, nx, ny);
    forall i | 0 <= i < |links| ensures 0 <= links[i].y < ny && 0 <= links[i].x < nx && 0 < links[i].d < 9 {
      assert links[i] in links;
    }
    forall i | 0 <= i < |links| - 1 ensures links[i].Key(nx) < links[i + 1].Key(nx) {
      KeyFollowsOrder(links[i], links[i + 1], nx);
    }
  }

  /** Sum over the first n links of twice the population times a weight of its direction. */
  function Exchange(f: Field, w: Weighting, links: seq<Link>, n: nat): real
    requires n <= |links|
  {
    if n == 0 then 0.0
    else
      var l := links[n - 1];
      Exchange(f, w, links, n - 1) + 2.0 * f(l.y, l.x, l.d) * w(l.d)
  }

  /** The tiled reduction: partial sums per tile of 256 links, tiles added in order. */
  method MomentumExchangeForce(post: array3<real>, fluidY: seq<int>, fluidX: seq<int>, directions: seq<int>,
                               ghost f: Field)
      returns (fx: real, fy: real)
    requires |fluidY| == |fluidX| == |directions| && post.Length2 == 9
    requires LinksAccepted(Zipped(fluidY, fluidX, directions), post.Length0, post.Length1)
    requires forall y, x, d :: 0 <= y < post.Length0 && 0 <= x < post.Length1 && 0 <= d < 9 ==>
      post[y, x, d] == f(y, x, d)
    ensures fx == Exchange(f, AlongX, Zipped(fluidY, fluidX, directions), |fluidY|)
    ensures fy == Exchange(f, AlongY, Zipped(fluidY, fluidX, directions), |fluidY|)
  {
    hide Exchange, Zipped;
    ghost var links := Zipped(fluidY, fluidX, directions);
    var count := |directions|;
    fx, fy := 0.0, 0.0;
    ExchangeOfNone(f, links);
    var tileStart := 0;
    while tileStart < count
      invariant 0 <= tileStart
      invariant fx == Exchange(f, AlongX, links, if tileStart < count then tileStart else count)
      invariant fy == Exchange(f, AlongY, links, if tileStart < count then tileStart else count)
    {
      var tileStop := if tileStart + FORCE_REDUCTION_TILE_LINKS < count
                      then tileStart + FORCE_REDUCTION_TILE_LINKS
                      else count;
      var tileFx, tileFy := TileForce(post, fluidY, fluidX, directions, f, tileStart, tileStop);
      fx, fy := fx + tileFx, fy + tileFy;
      tileStart := tileStart + FORCE_REDUCTION_TILE_LINKS;
    }
  }

  lemma ExchangeOfNone(f: Field, links: seq<Link>)
    ensures Exchange(f, AlongX, links, 0) == 0.0 && Exchange(f, AlongY, links, 0) == 0.0
  {
  }

  method TileForce(post: array3<real>, fluidY: seq<int>, fluidX: seq<int>, directions: seq<int>, ghost f: Field,
                   tileStart: nat, tileStop: nat)
      returns (tileFx: real, tileFy: real)
    requires |fluidY| == |fluidX| == |directions| && post.Length2 == 9 && tileStart <= tileStop <= |directions|
    requires LinksAccepted(Zipped(fluidY, fluidX, directions), post.Length0, post.Length1)
    requires forall y, x, d :: 0 <= y < post.Length0 && 0 <= x < post.Length1 && 0 <= d < 9 ==>
      post[y, x, d] == f(y, x, d)
    ensures var links := Zipped(fluidY, fluidX, directions);
      && tileFx == Exchange(f, AlongX, links, tileStop) - Exchange(f, AlongX, links, tileStart)
      && tileFy == Exchange(f, AlongY, links, tileStop) - Exchange(f, AlongY, links, tileStart)
  {
    hide Exchange;
    ghost var links := Zipped(fluidY, fluidX, directions);
    tileFx, tileFy := 0.0, 0.0;
    for index := tileStart to tileStop
      invariant tileFx == Exchange(f, AlongX, links, index) - Exchange(f, AlongX, links, tileStart)
      invariant tileFy == Exchange(f, AlongY, links, index) - Exchange(f, AlongY, links, tileStart)
    {
      var y, x, d := fluidY[index], fluidX[index], directions[index];
      assert links[index] == Link(y, x, d);
      var momentum := 2.0 * post[y, x, d];
      ExchangeStep(f, links, index);
      tileFx := tileFx + momentum * Cx(d) as real;
      tileFy := tileFy + momentum * Cy(d) as real;
    }
  }

  lemma ExchangeStep(f: Field, links: seq<Link>, n: nat)
    requires n < |links|
    ensures var l := links[n];
      && Exchange(f, AlongX, links, n + 1) == Exchange(f, AlongX, links, n) + 2.0 * f(l.y, l.x, l.d) * Cx(l.d) as real
      && Exchange(f, AlongY, links, n + 1) == Exchange(f, AlongY, links, n) + 2.0 * f(l.y, l.x, l.d) * Cy(l.d) as real
  {
  }

  /** The populations on obstacle links, zero elsewhere. */
  function LinkField(f: Field, solid: Mask, ny: int, nx: int): Field {
    (y, x, d) => if IsLink(solid, ny, nx, y, x, d) then f(y, x, d) else 0.0
  }

  lemma {:induction false} ExchangeJoin(f: Field, w: Weighting, a: seq<Link>, b: seq<Link>, n: nat)
    requires n <= |b|
    ensures Exchange(f, w, a + b, |a| + n) == Exchange(f, w, a, |a|) + Exchange(f, w, b, n)
  {
    if n == 0 {
      ExchangePrefix(f, w, a, b, |a|);
    } else {
      ExchangeJoin(f, w, a, b, n - 1);
      assert (a + b)[|a| + n - 1] == b[n - 1];
    }
  }

  lemma {:induction false} ExchangePrefix(f: Field, w: Weighting, a: seq<Link>, b: seq<Link>, n: nat)
    requires n <= |a|
    ensures Exchange(f, w, a + b, n) == Exchange(f, w, a, n)
  {
    if n > 0 {
      ExchangePrefix(f, w, a, b, n - 1);
      assert (a + b)[n - 1] == a[n - 1];
    }
  }

  lemma {:induction false} ExchangeOfCell(f: Field, w: Weighting, solid: Mask, ny: int, nx: int, y: int, x: int,
                                          k: nat)
    requires 1 <= k <= 9
    ensures Exchange(f, w, CellLinks(solid, ny, nx, y, x, k), |CellLinks(solid, ny, nx, y, x, k)|)
         == 2.0 * Moment(w, LinkField(f, solid, ny, nx), y, x, k)
  {
    hide IsLink;
    var g := LinkField(f, solid, ny, nx);
    if k == 1 {
      RestIsNoLink(f, w, solid, ny, nx, y, x);
    } else {
      ExchangeOfCell(f, w, solid, ny, nx, y, x, k - 1);
      var a := CellLinks(solid, ny, nx, y, x, k - 1);
      assert Moment(w, g, y, x, k) == Moment(w, g, y, x, k - 1) + w(k - 1) * g(y, x, k - 1);
      if IsLink(solid, ny, nx, y, x, k - 1) {
        var b := [Link(y, x, k - 1)];
        assert CellLinks(solid, ny, nx, y, x, k) == a + b;
        ExchangeJoin(f, w, a, b, 1);
        ExchangeOfOne(f, w, Link(y, x, k - 1));
      } else {
        assert CellLinks(solid, ny, nx, y, x, k) == a;
        assert g(y, x, k - 1) == 0.0;
      }
    }
  }

  lemma ExchangeOfOne(f: Field, w: Weighting, l: Link)
    ensures Exchange(f, w, [l], 1) == 2.0 * (w(l.d) * f(l.y, l.x, l.d))
  {
    assert Exchange(f, w, [l], 0) == 0.0;
  }

  lemma RestIsNoLink(f: Field, w: Weighting, solid: Mask, ny: int, nx: int, y: int, x: int)
    ensures Moment(w, LinkField(f, solid, ny, nx), y, x, 1) == 0.0
  {
    var g := LinkField(f, solid, ny, nx);
    assert !IsLink(solid, ny, nx, y, x, 0);
    assert Moment(w, g, y, x, 1) == Moment(w, g, y, x, 0) + w(0) * g(y, x, 0);
  }

  lemma {:induction false} ExchangeOfRow(f: Field, w: Weighting, solid: Mask, ny: int, nx: int, y: int, x: nat)
    ensures Exchange(f, w, RowLinks(solid, ny, nx, y, x), |RowLinks(solid, ny, nx, y, x)|)
         == 2.0 * RowSum(MomentMap(w, LinkField(f, solid, ny, nx), 9), y, 0, x)
  {
    hide CellLinks, Moment;
    if x > 0 {
      ExchangeOfRow(f, w, solid, ny, nx, y, x - 1);
      ExchangeOfCell(f, w, solid, ny, nx, y, x - 1, 9);
      ExchangeJoin(f, w, RowLinks(solid, ny, nx, y, x - 1), CellLinks(solid, ny, nx, y, x - 1, 9),
                   |CellLinks(solid, ny, nx, y, x - 1, 9)|);
    }
  }

  /** The force is twice the weighted total of the populations on links. */
  lemma {:induction false} ExchangeIsLinkTotal(f: Field, w: Weighting, solid: Mask, ny: int, nx: nat, y: nat)
    ensures Exchange(f, w, GridLinks(solid, ny, nx, y), |GridLinks(solid, ny, nx, y)|)
         == 2.0 * Total(w, LinkField(f, solid, ny, nx), 0, y, 0, nx)
  {
    hide RowLinks, Moment;
    if y > 0 {
      ExchangeIsLinkTotal(f, w, solid, ny, nx, y - 1);
      ExchangeOfRow(f, w, solid, ny, nx, y - 1, nx);
      ExchangeJoin(f, w, GridLinks(solid, ny, nx, y - 1), RowLinks(solid, ny, nx, y - 1, nx),
                   |RowLinks(solid, ny, nx, y - 1, nx)|);
    }
  }
}
