/** Momentum balance of masked streaming inside a rectangle that encloses the obstacle: what the fluid
    loses beyond the flux through the rectangle is the force the link reduction reports. */
module MomentumExchange {
  import opened ChannelGather
  import opened Conservation
  import opened Forces
  import opened GridSums
  import opened Lattice
  import opened Wrappers

  /** Rows y0..y1 and columns x0..x1, both ends included. */
  datatype Rect = Rect(y0: int, y1: int, x0: int, x1: int)
  {
    predicate Contains(y: int, x: int) { y0 <= y <= y1 && x0 <= x <= x1 }
  }

  /** The rectangle stays off the channel's own boundary rules, and every solid cell lies strictly
      inside it. */
  ghost predicate Encloses(r: Rect, solid: Mask, ny: int, nx: int) {
    && 2 <= r.y0 && r.y1 <= ny - 3 && 1 <= r.x0 && r.x1 <= nx - 2
    && forall y, x :: 0 <= y < ny && 0 <= x < nx && solid(y, x) ==> r.y0 < y < r.y1 && r.x0 < x < r.x1
  }

  /** Populations of the fluid cells of the rectangle. */
  function FluidIn(f: Field, solid: Mask, r: Rect): Field {
    (y, x, d) => if r.Contains(y, x) && !solid(y, x) then f(y, x, d) else 0.0
  }

  /** Populations arriving from outside the rectangle. */
  function Inflow(f: Field, r: Rect): Field {
    (y, x, d) => if r.Contains(y, x) && !r.Contains(y - Cy(d), x - Cx(d)) then f(y - Cy(d), x - Cx(d), d) else 0.0
  }

  /** Populations leaving the rectangle. */
  function Outflow(f: Field, r: Rect): Field {
    (y, x, d) => if r.Contains(y, x) && !r.Contains(y + Cy(d), x + Cx(d)) then f(y, x, d) else 0.0
  }

  /** The streamed field of the channel kernel. */
  ghost function KernelStreamed(f: Field, solid: Mask, u: real, ny: int, nx: int): Field
    requires u != 1.0
  {
    (y, x, d) => match Gather(f, solid, u, ny, nx, y, x) case Some(c) => c.At(d) case None => 0.0
  }

  /** Link populations filed under the opposite direction. */
  function Reflected(f: Field): Field {
    (y, x, d) => f(y, x, Opposite(d))
  }

  /** Populations that move from one fluid cell of the rectangle to another. */
  function Staying(f: Field, solid: Mask, r: Rect): Field {
    (y, x, d) => if r.Contains(y, x) && !solid(y, x) && r.Contains(y + Cy(d), x + Cx(d)) && !solid(y + Cy(d), x + Cx(d))
                 then f(y, x, d) else 0.0
  }

  /** Away from the channel's boundary rules the kernel only pulls. */
  lemma KernelPulls(f: Field, solid: Mask, u: real, ny: int, nx: int, r: Rect, y: int, x: int, d: int)
    requires u != 1.0 && Encloses(r, solid, ny, nx) && r.Contains(y, x) && !solid(y, x) && 0 <= d < 9
    ensures KernelStreamed(f, solid, u, ny, nx)(y, x, d)
         == if solid(y - Cy(d), x - Cx(d)) then f(y, x, Opposite(d)) else f(y - Cy(d), x - Cx(d), d)
  {
    hide InletCell, OutletCell;
    assert Gather(f, solid, u, ny, nx, y, x) == Some(PulledCell(f, f, solid, ny, nx, y, x));
    assert PulledCell(f, f, solid, ny, nx, y, x).At(d) == Pull(f, f, solid, ny, nx, y, x, d);
  }

  /** What a fluid cell holds after streaming: what stayed inside, what flowed in, what bounced. */
  lemma AfterSplits(f: Field, solid: Mask, u: real, ny: int, nx: int, r: Rect, y: int, x: int, d: int)
    requires u != 1.0 && Encloses(r, solid, ny, nx) && 0 <= y < ny && 0 <= x < nx && 0 <= d < 9
    ensures FluidIn(KernelStreamed(f, solid, u, ny, nx), solid, r)(y, x, d)
         == Staying(f, solid, r)(y - Cy(d), x - Cx(d), d) + Inflow(f, r)(y, x, d)
          + Reflected(LinkField(f, solid, ny, nx))(y, x, d)
  {
    hide KernelStreamed, IsLink, Encloses;
    var link := LinkField(f, solid, ny, nx);
    var after := KernelStreamed(f, solid, u, ny, nx);
    LinkInside(solid, ny, nx, r, y, x, Opposite(d));
    LinkInside(solid, ny, nx, r, y, x, d);
    assert Reflected(link)(y, x, d) == link(y, x, Opposite(d));
    assert Staying(f, solid, r)(y - Cy(d), x - Cx(d), d)
        == if r.Contains(y - Cy(d), x - Cx(d)) && !solid(y - Cy(d), x - Cx(d)) && r.Contains(y, x) && !solid(y, x)
           then f(y - Cy(d), x - Cx(d), d) else 0.0;
    if r.Contains(y, x) && !solid(y, x) {
      KernelPulls(f, solid, u, ny, nx, r, y, x, d);
      SourceOfFluid(solid, ny, nx, r, y, x, d);
    } else {
      OppositeLinkInside(solid, ny, nx, r, y, x, d);
    }
  }

  lemma OppositeLinkInside(solid: Mask, ny: int, nx: int, r: Rect, y: int, x: int, d: int)
    requires Encloses(r, solid, ny, nx) && 0 <= y < ny && 0 <= x < nx
    requires !(r.Contains(y, x) && !solid(y, x))
    ensures !IsLink(solid, ny, nx, y, x, Opposite(d))
  {
  }

  /** Pulling along d meets a solid cell exactly when there is a link along the opposite of d. */
  lemma SourceOfFluid(solid: Mask, ny: int, nx: int, r: Rect, y: int, x: int, d: int)
    requires Encloses(r, solid, ny, nx) && r.Contains(y, x) && !solid(y, x) && 0 <= d < 9
    ensures solid(y - Cy(d), x - Cx(d)) <==> IsLink(solid, ny, nx, y, x, Opposite(d))
    ensures solid(y - Cy(d), x - Cx(d)) ==> r.Contains(y - Cy(d), x - Cx(d))
  {
    DirectionTables(d, d);
    RestOpposite(d);
  }

  lemma RestOpposite(d: int)
    requires 0 <= d < 9
    ensures Opposite(d) == 0 ==> Cx(d) == 0 && Cy(d) == 0
  {
  }

  /** Both ends of a link lie in the rectangle, and solid cells stay off its border. */
  lemma LinkInside(solid: Mask, ny: int, nx: int, r: Rect, y: int, x: int, d: int)
    requires Encloses(r, solid, ny, nx) && 0 <= y < ny && 0 <= x < nx
    ensures IsLink(solid, ny, nx, y, x, d) ==> r.Contains(y, x) && r.Contains(y + Cy(d), x + Cx(d))
    ensures solid(y, x) ==> r.Contains(y + Cy(d), x + Cx(d)) && r.Contains(y - Cy(d), x - Cx(d))
  {
  }

  /** What a fluid cell held before: what stays inside, what flows out, what meets a solid. */
  lemma BeforeSplits(f: Field, solid: Mask, ny: int, nx: int, r: Rect, y: int, x: int, d: int)
    requires Encloses(r, solid, ny, nx) && 0 <= y < ny && 0 <= x < nx && 0 <= d < 9
    ensures FluidIn(f, solid, r)(y, x, d)
         == Staying(f, solid, r)(y, x, d) + Outflow(f, r)(y, x, d) + LinkField(f, solid, ny, nx)(y, x, d)
  {
    LinkInside(solid, ny, nx, r, y, x, d);
    if r.Contains(y, x) && !solid(y, x) {
      assert d == 0 ==> y + Cy(d) == y && x + Cx(d) == x;
      assert r.Contains(y + Cy(d), x + Cx(d)) && solid(y + Cy(d), x + Cx(d)) <==> IsLink(solid, ny, nx, y, x, d);
    }
  }

  /** Sum of one direction over the grid. */
  function PlaneSum(f: Field, ny: int, nx: int, d: int): real {
    RectSum(Plane(f, d), 0, ny, 0, nx)
  }

  /** Balance of one direction over the whole rectangle. */
  lemma DirectionBalance(f: Field, solid: Mask, u: real, ny: int, nx: int, r: Rect, d: int)
    requires u != 1.0 && Encloses(r, solid, ny, nx) && ny >= 1 && nx >= 1 && 0 <= d < 9
    ensures PlaneSum(FluidIn(KernelStreamed(f, solid, u, ny, nx), solid, r), ny, nx, d)
         == PlaneSum(FluidIn(f, solid, r), ny, nx, d)
          + PlaneSum(Inflow(f, r), ny, nx, d) - PlaneSum(Outflow(f, r), ny, nx, d)
          - PlaneSum(LinkField(f, solid, ny, nx), ny, nx, d)
          + PlaneSum(Reflected(LinkField(f, solid, ny, nx)), ny, nx, d)
  {
    AfterBalance(f, solid, u, ny, nx, r, d);
    BeforeBalance(f, solid, ny, nx, r, d);
  }

  lemma AfterBalance(f: Field, solid: Mask, u: real, ny: int, nx: int, r: Rect, d: int)
    requires u != 1.0 && Encloses(r, solid, ny, nx) && ny >= 1 && nx >= 1 && 0 <= d < 9
    ensures PlaneSum(FluidIn(KernelStreamed(f, solid, u, ny, nx), solid, r), ny, nx, d)
         == PlaneSum(Staying(f, solid, r), ny, nx, d) + PlaneSum(Inflow(f, r), ny, nx, d)
          + PlaneSum(Reflected(LinkField(f, solid, ny, nx)), ny, nx, d)
  {
    hide FluidIn, Inflow, Reflected, LinkField, Encloses, RectSum, KernelStreamed;
    var stay := Plane(Staying(f, solid, r), d);
    var moved: CellMap := (y, x) => stay(y - Cy(d), x - Cx(d));
    StayingVanishesOutside(f, solid, ny, nx, r, d);
    RectShiftInterior(moved, stay, ny, nx, Cy(d), Cx(d));
    var arrived: CellMap := (y, x) => moved(y, x) + Inflow(f, r)(y, x, d);
    var after := Plane(FluidIn(KernelStreamed(f, solid, u, ny, nx), solid, r), d);
    var back := Plane(Reflected(LinkField(f, solid, ny, nx)), d);
    forall y, x | 0 <= y < ny && 0 <= x < nx ensures after(y, x) == arrived(y, x) + back(y, x) {
      AfterSplits(f, solid, u, ny, nx, r, y, x, d);
    }
    RectAdd(after, arrived, back, 0, ny, 0, nx);
    RectAdd(arrived, moved, Plane(Inflow(f, r), d), 0, ny, 0, nx);
  }

  lemma StayingVanishesOutside(f: Field, solid: Mask, ny: int, nx: int, r: Rect, d: int)
    requires Encloses(r, solid, ny, nx)
    ensures forall y, x :: !(1 <= y < ny - 1 && 1 <= x < nx - 1) ==> Plane(Staying(f, solid, r), d)(y, x) == 0.0
  {
    forall y, x | !(1 <= y < ny - 1 && 1 <= x < nx - 1) ensures Plane(Staying(f, solid, r), d)(y, x) == 0.0 {
      assert Plane(Staying(f, solid, r), d)(y, x) == Staying(f, solid, r)(y, x, d);
      assert !r.Contains(y, x);
    }
  }

  lemma BeforeBalance(f: Field, solid: Mask, ny: int, nx: int, r: Rect, d: int)
    requires Encloses(r, solid, ny, nx) && ny >= 1 && nx >= 1 && 0 <= d < 9
    ensures PlaneSum(FluidIn(f, solid, r), ny, nx, d)
         == PlaneSum(Staying(f, solid, r), ny, nx, d) + PlaneSum(Outflow(f, r), ny, nx, d)
          + PlaneSum(LinkField(f, solid, ny, nx), ny, nx, d)
  {
    hide FluidIn, Outflow, LinkField, Encloses, RectSum, Staying;
    var before, stay := Plane(FluidIn(f, solid, r), d), Plane(Staying(f, solid, r), d);
    var out, link := Plane(Outflow(f, r), d), Plane(LinkField(f, solid, ny, nx), d);
    var kept: CellMap := (y, x) => stay(y, x) + out(y, x);
    forall y, x | 0 <= y < ny && 0 <= x < nx ensures before(y, x) == kept(y, x) + link(y, x) {
      BeforeSplits(f, solid, ny, nx, r, y, x, d);
    }
    RectAdd(before, kept, link, 0, ny, 0, nx);
    RectAdd(kept, stay, out, 0, ny, 0, nx);
  }

  lemma {:induction false} WeightedBalance(w: Weighting, f: Field, solid: Mask, u: real, ny: int, nx: int, r: Rect,
                                           k: nat)
    requires u != 1.0 && Encloses(r, solid, ny, nx) && ny >= 1 && nx >= 1 && k <= 9
    ensures PlaneTotal(w, FluidIn(KernelStreamed(f, solid, u, ny, nx), solid, r), 0, ny, 0, nx, k)
         == PlaneTotal(w, FluidIn(f, solid, r), 0, ny, 0, nx, k) + PlaneTotal(w, Inflow(f, r), 0, ny, 0, nx, k)
          - PlaneTotal(w, Outflow(f, r), 0, ny, 0, nx, k) - PlaneTotal(w, LinkField(f, solid, ny, nx), 0, ny, 0, nx, k)
          + PlaneTotal(w, Reflected(LinkField(f, solid, ny, nx)), 0, ny, 0, nx, k)
  {
    hide RectSum, FluidIn, KernelStreamed, Inflow, Outflow, LinkField, Reflected, Encloses;
    if k > 0 {
      WeightedBalance(w, f, solid, u, ny, nx, r, k - 1);
      DirectionBalance(f, solid, u, ny, nx, r, k - 1);
      var link := LinkField(f, solid, ny, nx);
      FiveTerms(w(k - 1), PlaneSum(FluidIn(KernelStreamed(f, solid, u, ny, nx), solid, r), ny, nx, k - 1),
                PlaneSum(FluidIn(f, solid, r), ny, nx, k - 1), PlaneSum(Inflow(f, r), ny, nx, k - 1),
                PlaneSum(Outflow(f, r), ny, nx, k - 1), PlaneSum(link, ny, nx, k - 1),
                PlaneSum(Reflected(link), ny, nx, k - 1));
    }
  }

  lemma FiveTerms(w: real, a: real, b: real, i: real, o: real, l: real, m: real)
    requires a == b + i - o - l + m
    ensures w * a == w * b + w * i - w * o - w * l + w * m
  {
  }

  /** Weighting a direction by its opposite. */
  function Turned(w: Weighting): Weighting {
    d => w(Opposite(d))
  }

  lemma Swapped(w: Weighting, f: Field, y: int, x: int, d: int, e: int)
    requires e == Opposite(d)
    ensures Reflected(f)(y, x, d) == f(y, x, e) && Turned(w)(d) == w(e)
  {
  }

  lemma ReflectedTotal(w: Weighting, f: Field, ny: int, nx: int)
    ensures Total(w, Reflected(f), 0, ny, 0, nx) == Total(Turned(w), f, 0, ny, 0, nx)
  {
    forall y, x ensures Moment(w, Reflected(f), y, x, 9) == Moment(Turned(w), f, y, x, 9) {
      var g, v := Reflected(f), Turned(w);
      MomentUnrolled(w, g, y, x);
      MomentUnrolled(v, f, y, x);
      Swapped(w, f, y, x, 0, 0);
      Swapped(w, f, y, x, 1, 3);
      Swapped(w, f, y, x, 2, 4);
      Swapped(w, f, y, x, 3, 1);
      Swapped(w, f, y, x, 4, 2);
      Swapped(w, f, y, x, 5, 7);
      Swapped(w, f, y, x, 6, 8);
      Swapped(w, f, y, x, 7, 5);
      Swapped(w, f, y, x, 8, 6);
    }
    RectAgree(MomentMap(w, Reflected(f), 9), MomentMap(Turned(w), f, 9), 0, ny, 0, nx);
  }

  lemma {:induction false} TotalScaled(a: real, w: Weighting, w': Weighting, f: Field, ny: int, nx: int, k: nat)
    requires k <= 9 && forall d :: 0 <= d < 9 ==> w'(d) == a * w(d)
    ensures PlaneTotal(w', f, 0, ny, 0, nx, k) == a * PlaneTotal(w, f, 0, ny, 0, nx, k)
  {
    hide RectSum;
    if k > 0 {
      TotalScaled(a, w, w', f, ny, nx, k - 1);
      ScaleTerm(a, w(k - 1), RectSum(Plane(f, k - 1), 0, ny, 0, nx), PlaneTotal(w, f, 0, ny, 0, nx, k - 1));
    }
  }

  lemma ScaleTerm(a: real, w: real, s: real, t: real)
    ensures a * (t + w * s) == a * t + a * w * s
  {
  }

  /** Balance of any direction weighting, with the link term still as a field. */
  lemma TotalBalance(w: Weighting, a: real, f: Field, solid: Mask, u: real, ny: int, nx: int, r: Rect)
    requires u != 1.0 && Encloses(r, solid, ny, nx) && ny >= 1 && nx >= 1
    requires forall d :: 0 <= d < 9 ==> w(Opposite(d)) == a * w(d)
    ensures Total(w, FluidIn(KernelStreamed(f, solid, u, ny, nx), solid, r), 0, ny, 0, nx)
         == Total(w, FluidIn(f, solid, r), 0, ny, 0, nx) + Total(w, Inflow(f, r), 0, ny, 0, nx)
          - Total(w, Outflow(f, r), 0, ny, 0, nx) + (a - 1.0) * Total(w, LinkField(f, solid, ny, nx), 0, ny, 0, nx)
  {
    hide RectSum, FluidIn, KernelStreamed, Inflow, Outflow, LinkField, Reflected, Encloses;
    var link := LinkField(f, solid, ny, nx);
    WeightedBalance(w, f, solid, u, ny, nx, r, 9);
    TotalByPlane(w, FluidIn(KernelStreamed(f, solid, u, ny, nx), solid, r), 0, ny, 0, nx, 9);
    TotalByPlane(w, FluidIn(f, solid, r), 0, ny, 0, nx, 9);
    TotalByPlane(w, Inflow(f, r), 0, ny, 0, nx, 9);
    TotalByPlane(w, Outflow(f, r), 0, ny, 0, nx, 9);
    TotalByPlane(w, link, 0, ny, 0, nx, 9);
    TotalByPlane(w, Reflected(link), 0, ny, 0, nx, 9);
    ReflectedTotal(w, link, ny, nx);
    TotalByPlane(Turned(w), link, 0, ny, 0, nx, 9);
    TotalScaled(a, w, Turned(w), link, ny, nx, 9);
  }

  /** Momentum exchange is exact. For every field, mask and rectangle enclosing the obstacle, the
      fluid inside keeps its mass up to the flux through the rectangle, and loses to the obstacle
      exactly the two force components that the reduction computes over the enumerated links. */
  lemma MomentumExchangeExact(f: Field, solid: Mask, u: real, ny: nat, nx: nat, r: Rect)
    requires u != 1.0 && Encloses(r, solid, ny, nx) && ny >= 1 && nx >= 1
    ensures var after := FluidIn(KernelStreamed(f, solid, u, ny, nx), solid, r);
            var before := FluidIn(f, solid, r);
            var links := GridLinks(solid, ny, nx, ny);
      && Total(One, after, 0, ny, 0, nx)
         == Total(One, before, 0, ny, 0, nx)
           + Total(One, Inflow(f, r), 0, ny, 0, nx) - Total(One, Outflow(f, r), 0, ny, 0, nx)
      && Total(AlongX, after, 0, ny, 0, nx)
         == Total(AlongX, before, 0, ny, 0, nx)
          + Total(AlongX, Inflow(f, r), 0, ny, 0, nx) - Total(AlongX, Outflow(f, r), 0, ny, 0, nx)
          - Exchange(f, AlongX, links, |links|)
      && Total(AlongY, after, 0, ny, 0, nx)
         == Total(AlongY, before, 0, ny, 0, nx)
          + Total(AlongY, Inflow(f, r), 0, ny, 0, nx) - Total(AlongY, Outflow(f, r), 0, ny, 0, nx)
          - Exchange(f, AlongY, links, |links|)
  {
    hide Total, Exchange, FluidIn, KernelStreamed, Inflow, Outflow, LinkField, GridLinks;
    TotalBalance(One, 1.0, f, solid, u, ny, nx, r);
    OppositeWeights();
    TotalBalance(AlongX, -1.0, f, solid, u, ny, nx, r);
    TotalBalance(AlongY, -1.0, f, solid, u, ny, nx, r);
    ExchangeIsLinkTotal(f, AlongX, solid, ny, nx, ny);
    ExchangeIsLinkTotal(f, AlongY, solid, ny, nx, ny);
  }

  lemma OppositeWeights()
    ensures forall d :: 0 <= d < 9 ==>
      AlongX(Opposite(d)) == -1.0 * AlongX(d) && AlongY(Opposite(d)) == -1.0 * AlongY(d)
  {
  }
}
