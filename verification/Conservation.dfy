/** Conservation laws of the lattice: periodic streaming permutes each direction, so collision and
    streaming keep mass and momentum over runs of any length, and half-way wall streaming keeps the
    mass of the active rows. */
module Conservation {
  import opened ChannelGather
  import opened ChannelStages
  import opened GridSums
  import opened Kinetics
  import opened Lattice
  import opened Wrappers

  /** A weight per direction: constant one for mass, a velocity component for momentum. */
  type Weighting = int -> real

  function One(d: int): real { 1.0 }

  function AlongX(d: int): real { Cx(d) as real }

  function AlongY(d: int): real { Cy(d) as real }

  /** Weighted sum of the first k populations of a cell. */
  function Moment(w: Weighting, f: Field, y: int, x: int, k: nat): real {
    if k == 0 then 0.0 else Moment(w, f, y, x, k - 1) + w(k - 1) * f(y, x, k - 1)
  }

  function MomentMap(w: Weighting, f: Field, k: nat): CellMap {
    (y, x) => Moment(w, f, y, x, k)
  }

  function Plane(f: Field, d: int): CellMap {
    (y, x) => f(y, x, d)
  }

  /** Weighted sum of all populations of a rectangle of cells. */
  function Total(w: Weighting, f: Field, y0: int, y1: int, x0: int, x1: int): real {
    RectSum(MomentMap(w, f, 9), y0, y1, x0, x1)
  }

  /** The same sum taken direction by direction, over the first k directions. */
  function PlaneTotal(w: Weighting, f: Field, y0: int, y1: int, x0: int, x1: int, k: nat): real {
    if k == 0 then 0.0
    else PlaneTotal(w, f, y0, y1, x0, x1, k - 1) + w(k - 1) * RectSum(Plane(f, k - 1), y0, y1, x0, x1)
  }

  lemma CellMoments(f: Field, y: int, x: int)
    ensures Moment(One, f, y, x, 9) == CellOf(f, y, x).Rho()
    ensures Moment(AlongX, f, y, x, 9) == CellOf(f, y, x).Mx()
    ensures Moment(AlongY, f, y, x, 9) == CellOf(f, y, x).My()
  {
    MomentUnrolled(One, f, y, x);
    MomentUnrolled(AlongX, f, y, x);
    MomentUnrolled(AlongY, f, y, x);
  }

  lemma MomentUnrolled(w: Weighting, f: Field, y: int, x: int)
    ensures Moment(w, f, y, x, 9)
         == w(0) * f(y, x, 0) + w(1) * f(y, x, 1) + w(2) * f(y, x, 2) + w(3) * f(y, x, 3) + w(4) * f(y, x, 4)
          + w(5) * f(y, x, 5) + w(6) * f(y, x, 6) + w(7) * f(y, x, 7) + w(8) * f(y, x, 8)
  {
    assert Moment(w, f, y, x, 1) == w(0) * f(y, x, 0);
    assert Moment(w, f, y, x, 2) == Moment(w, f, y, x, 1) + w(1) * f(y, x, 1);
    assert Moment(w, f, y, x, 3) == Moment(w, f, y, x, 2) + w(2) * f(y, x, 2);
    assert Moment(w, f, y, x, 4) == Moment(w, f, y, x, 3) + w(3) * f(y, x, 3);
    assert Moment(w, f, y, x, 5) == Moment(w, f, y, x, 4) + w(4) * f(y, x, 4);
    assert Moment(w, f, y, x, 6) == Moment(w, f, y, x, 5) + w(5) * f(y, x, 5);
    assert Moment(w, f, y, x, 7) == Moment(w, f, y, x, 6) + w(6) * f(y, x, 6);
    assert Moment(w, f, y, x, 8) == Moment(w, f, y, x, 7) + w(7) * f(y, x, 7);
  }

  /** Summing cell by cell or direction by direction is the same. */
  lemma {:induction false} TotalByPlane(w: Weighting, f: Field, y0: int, y1: int, x0: int, x1: int, k: nat)
    ensures RectSum(MomentMap(w, f, k), y0, y1, x0, x1) == PlaneTotal(w, f, y0, y1, x0, x1, k)
  {
    hide RectSum;
    if k == 0 {
      RectScale(MomentMap(w, f, 0), 0.0, MomentMap(w, f, 0), y0, y1, x0, x1);
    } else {
      var scaled: CellMap := (y, x) => w(k - 1) * f(y, x, k - 1);
      TotalByPlane(w, f, y0, y1, x0, x1, k - 1);
      RectScale(scaled, w(k - 1), Plane(f, k - 1), y0, y1, x0, x1);
      RectAdd(MomentMap(w, f, k), MomentMap(w, f, k - 1), scaled, y0, y1, x0, x1);
      assert RectSum(scaled, y0, y1, x0, x1) == w(k - 1) * RectSum(Plane(f, k - 1), y0, y1, x0, x1);
    }
  }

  /** The periodic pull kernel. */
  function StreamPeriodic(f: Field, ny: int, nx: int): Field
    requires ny >= 1 && nx >= 1
  {
    (y, x, d) => f((y - Cy(d) + ny) % ny, (x - Cx(d) + nx) % nx, d)
  }

  /** Streaming moves every population along its own direction, around the edges of the grid. */
  lemma StreamMoves(f: Field, ny: int, nx: int, y: int, x: int, d: int)
    requires 0 <= y < ny && 0 <= x < nx && 0 <= d < 9
    ensures StreamPeriodic(f, ny, nx)((y + Cy(d)) % ny, (x + Cx(d)) % nx, d) == f(y, x, d)
  {
    StepAndBack(y, Cy(d), ny);
    StepAndBack(x, Cx(d), nx);
  }

  lemma StepAndBack(i: int, c: int, n: int)
    requires 0 <= i < n && -1 <= c <= 1
    ensures ((i + c) % n - c + n) % n == i
  {
    if i + c < 0 {
      RemainderUnique(i + c, n, -1, n - 1);
    } else if i + c >= n {
      RemainderUnique(i + c, n, 1, 0);
    } else {
      RemainderUnique(i + c, n, 0, i + c);
    }
    var j := (i + c) % n - c;
    if j < 0 {
      RemainderUnique(j + n, n, 0, i);
    } else if j >= n {
      RemainderUnique(j + n, n, 2, i);
    } else {
      RemainderUnique(j + n, n, 1, i);
    }
  }

  /** Periodic pull streaming is a permutation of the cells in each direction: for every function h
      of a population, the sum of h over the grid is unchanged. */
  lemma StreamPermutes(f: Field, ny: int, nx: int, d: int, h: real -> real)
    requires ny >= 1 && nx >= 1
    ensures var g: CellMap := (y, x) => h(StreamPeriodic(f, ny, nx)(y, x, d));
            var g': CellMap := (y, x) => h(f(y, x, d));
            RectSum(g, 0, ny, 0, nx) == RectSum(g', 0, ny, 0, nx)
  {
    var g: CellMap := (y, x) => h(StreamPeriodic(f, ny, nx)(y, x, d));
    var g': CellMap := (y, x) => h(f(y, x, d));
    forall y, x | 0 <= y < ny && 0 <= x < nx ensures g(y, x) == g'(Wrap(y - Cy(d), ny), Wrap(x - Cx(d), nx)) {
      PeriodicSource(y, Cy(d), ny);
      PeriodicSource(x, Cx(d), nx);
      assert StreamPeriodic(f, ny, nx)(y, x, d) == f(Wrap(y - Cy(d), ny), Wrap(x - Cx(d), nx), d);
    }
    RectPeriodic(g, g', ny, nx, Cy(d), Cx(d));
  }

  lemma PeriodicSource(i: int, c: int, n: int)
    requires n >= 1 && 0 <= i < n && -1 <= c <= 1
    ensures (i - c + n) % n == Wrap(i - c, n) && (i - c) % n == Wrap(i - c, n)
  {
    WrapIsRemainder(i - c, n);
    if i - c + n < 2 * n {
      WrapIsRemainder(i - c + n, n);
    } else {
      RemainderUnique(i - c + n, n, 2, i - c - n);
    }
  }

  /** Periodic streaming keeps every weighted total. */
  lemma StreamConserves(w: Weighting, f: Field, ny: int, nx: int)
    requires ny >= 1 && nx >= 1
    ensures Total(w, StreamPeriodic(f, ny, nx), 0, ny, 0, nx) == Total(w, f, 0, ny, 0, nx)
  {
    var g := StreamPeriodic(f, ny, nx);
    PlanesConserved(w, f, g, ny, nx, 9);
    TotalByPlane(w, f, 0, ny, 0, nx, 9);
    TotalByPlane(w, g, 0, ny, 0, nx, 9);
  }

  lemma PlaneConserved(f: Field, g: Field, ny: int, nx: int, d: int)
    requires ny >= 1 && nx >= 1 && g == StreamPeriodic(f, ny, nx)
    ensures RectSum(Plane(g, d), 0, ny, 0, nx) == RectSum(Plane(f, d), 0, ny, 0, nx)
  {
    var identity := (v: real) => v;
    StreamPermutes(f, ny, nx, d, identity);
    RectAgree(Plane(g, d), (y, x) => identity(g(y, x, d)), 0, ny, 0, nx);
    RectAgree(Plane(f, d), (y, x) => identity(f(y, x, d)), 0, ny, 0, nx);
  }

  lemma {:induction false} PlanesConserved(w: Weighting, f: Field, g: Field, ny: int, nx: int, k: nat)
    requires ny >= 1 && nx >= 1 && g == StreamPeriodic(f, ny, nx)
    ensures PlaneTotal(w, g, 0, ny, 0, nx, k) == PlaneTotal(w, f, 0, ny, 0, nx, k)
  {
    hide RectSum, StreamPeriodic, Plane;
    if k > 0 {
      PlanesConserved(w, f, g, ny, nx, k - 1);
      PlaneConserved(f, g, ny, nx, k - 1);
    }
  }

  ghost predicate NowhereEmpty(f: Field, ny: int, nx: int) {
    forall y, x :: 0 <= y < ny && 0 <= x < nx ==> Collide(CellOf(f, y, x), 0.0).Some?
  }

  /** The collision kernel over the grid: undefined when some cell has zero density. */
  ghost function CollideGrid(f: Field, omega: real, ny: int, nx: int): Option<Field> {
    if NowhereEmpty(f, ny, nx) then
      Some((y, x, d) => match Collide(CellOf(f, y, x), omega) case Some(c) => c.At(d) case None => f(y, x, d))
    else None
  }

  lemma CollisionKeepsTotals(f: Field, omega: real, ny: int, nx: int)
    requires CollideGrid(f, omega, ny, nx).Some?
    ensures var g := CollideGrid(f, omega, ny, nx).value;
      && Total(One, g, 0, ny, 0, nx) == Total(One, f, 0, ny, 0, nx)
      && Total(AlongX, g, 0, ny, 0, nx) == Total(AlongX, f, 0, ny, 0, nx)
      && Total(AlongY, g, 0, ny, 0, nx) == Total(AlongY, f, 0, ny, 0, nx)
  {
    hide Collide;
    var g := CollideGrid(f, omega, ny, nx).value;
    forall y, x | 0 <= y < ny && 0 <= x < nx
      ensures Moment(One, g, y, x, 9) == Moment(One, f, y, x, 9)
      ensures Moment(AlongX, g, y, x, 9) == Moment(AlongX, f, y, x, 9)
      ensures Moment(AlongY, g, y, x, 9) == Moment(AlongY, f, y, x, 9)
    {
      CollidedCell(f, omega, ny, nx, y, x);
    }
    RectAgree(MomentMap(One, g, 9), MomentMap(One, f, 9), 0, ny, 0, nx);
    RectAgree(MomentMap(AlongX, g, 9), MomentMap(AlongX, f, 9), 0, ny, 0, nx);
    RectAgree(MomentMap(AlongY, g, 9), MomentMap(AlongY, f, 9), 0, ny, 0, nx);
  }

  lemma CollidedCell(f: Field, omega: real, ny: int, nx: int, y: int, x: int)
    requires CollideGrid(f, omega, ny, nx).Some? && 0 <= y < ny && 0 <= x < nx
    ensures var g := CollideGrid(f, omega, ny, nx).value;
      && Moment(One, g, y, x, 9) == Moment(One, f, y, x, 9)
      && Moment(AlongX, g, y, x, 9) == Moment(AlongX, f, y, x, 9)
      && Moment(AlongY, g, y, x, 9) == Moment(AlongY, f, y, x, 9)
  {
    hide Collide, Moment;
    var g := CollideGrid(f, omega, ny, nx).value;
    assert Collide(CellOf(f, y, x), 0.0).Some?;
    CollisionConserves(CellOf(f, y, x), 0.0);
    CollisionConserves(CellOf(f, y, x), omega);
    assert CellOf(g, y, x) == Collide(CellOf(f, y, x), omega).value;
    CellMoments(f, y, x);
    CellMoments(g, y, x);
  }

  /** A periodic run: one collision and one streaming step per relaxation rate. */
  ghost function Run(f: Field, omegas: seq<real>, ny: int, nx: int): Option<Field>
    requires ny >= 1 && nx >= 1
  {
    if omegas == [] then Some(f)
    else match CollideGrid(f, omegas[0], ny, nx)
      case None => None
      case Some(g) => Run(StreamPeriodic(g, ny, nx), omegas[1..], ny, nx)
  }

  /** Mass and both momenta are invariants of every run, for any number of steps, any relaxation
      rates and any populations, as long as no cell on the way has zero density. */
  lemma {:induction false} RunConserves(f: Field, omegas: seq<real>, ny: int, nx: int)
    requires ny >= 1 && nx >= 1 && Run(f, omegas, ny, nx).Some?
    ensures var g := Run(f, omegas, ny, nx).value;
      && Total(One, g, 0, ny, 0, nx) == Total(One, f, 0, ny, 0, nx)
      && Total(AlongX, g, 0, ny, 0, nx) == Total(AlongX, f, 0, ny, 0, nx)
      && Total(AlongY, g, 0, ny, 0, nx) == Total(AlongY, f, 0, ny, 0, nx)
    decreases |omegas|
  {
    if omegas != [] {
      var g := CollideGrid(f, omegas[0], ny, nx).value;
      CollisionKeepsTotals(f, omegas[0], ny, nx);
      StreamConserves(One, g, ny, nx);
      StreamConserves(AlongX, g, ny, nx);
      StreamConserves(AlongY, g, ny, nx);
      RunConserves(StreamPeriodic(g, ny, nx), omegas[1..], ny, nx);
    }
  }

  /** A run is its beginning and one more step. */
  lemma {:induction false} RunSplits(f: Field, omegas: seq<real>, ny: int, nx: int)
    requires ny >= 1 && nx >= 1 && omegas != []
    ensures var n := |omegas| - 1;
      Run(f, omegas, ny, nx)
      == match Run(f, omegas[..n], ny, nx)
         case None => None
         case Some(g) => Run(g, [omegas[n]], ny, nx)
    decreases |omegas|
  {
    var n := |omegas| - 1;
    if n == 0 {
      assert omegas == [omegas[0]];
    } else {
      match CollideGrid(f, omegas[0], ny, nx)
      case None =>
      case Some(g) =>
        assert omegas[..n][1..] == omegas[1..][..n - 1];
        RunSplits(StreamPeriodic(g, ny, nx), omegas[1..], ny, nx);
    }
  }

  lemma OneStep(f: Field, omega: real, ny: int, nx: int)
    requires ny >= 1 && nx >= 1
    ensures Run(f, [omega], ny, nx)
         == match CollideGrid(f, omega, ny, nx) case None => None case Some(g) => Some(StreamPeriodic(g, ny, nx))
  {
    hide CollideGrid, StreamPeriodic;
    match CollideGrid(f, omega, ny, nx)
    case None =>
    case Some(g) =>
      assert Run(StreamPeriodic(g, ny, nx), [], ny, nx) == Some(StreamPeriodic(g, ny, nx));
  }

  /** A run is the lattice Boltzmann equation. At every step of every run each population goes one cell along its
      own direction, and takes along the fraction 1 - omega of its distance to the equilibrium of the cell that it
      leaves. */
  lemma RunIsBoltzmann(f: Field, omegas: seq<real>, ny: int, nx: int, k: nat, y: int, x: int, d: int)
    requires ny >= 1 && nx >= 1 && Run(f, omegas, ny, nx).Some?
    requires k < |omegas| && 0 <= y < ny && 0 <= x < nx && 0 <= d < 9
    ensures Run(f, omegas[..k], ny, nx).Some? && Run(f, omegas[..k + 1], ny, nx).Some?
    ensures var was, now := Run(f, omegas[..k], ny, nx).value, Run(f, omegas[..k + 1], ny, nx).value;
            var c := CellOf(was, y, x);
      && c.Rho() != 0.0
      && var resting := EquilibriumAt(d, c.Rho(), c.Mx() / c.Rho(), c.My() / c.Rho());
         now((y + Cy(d)) % ny, (x + Cx(d)) % nx, d) - resting == (1.0 - omegas[k]) * (was(y, x, d) - resting)
  {
    hide Run, CollideGrid, StreamPeriodic, Cell.Rho, Cell.Mx, Cell.My, EquilibriumAt;
    RunPrefix(f, omegas, ny, nx, k + 1);
    RunPrefix(f, omegas, ny, nx, k);
    var was := Run(f, omegas[..k], ny, nx).value;
    RunSplits(f, omegas[..k + 1], ny, nx);
    assert omegas[..k + 1][..k] == omegas[..k];
    OneStep(was, omegas[k], ny, nx);
    CellRelaxes(was, omegas[k], ny, nx, y, x, d);
    StreamMoves(CollideGrid(was, omegas[k], ny, nx).value, ny, nx, y, x, d);
  }

  /** A run goes one step further exactly if none of its cells is empty. */
  lemma RunGoesOnExactly(f: Field, omegas: seq<real>, omega: real, ny: int, nx: int)
    requires ny >= 1 && nx >= 1 && Run(f, omegas, ny, nx).Some?
    ensures var g := Run(f, omegas, ny, nx).value;
      Run(f, omegas + [omega], ny, nx).Some? <==>
      forall y, x :: 0 <= y < ny && 0 <= x < nx ==> CellOf(g, y, x).Rho() != 0.0
  {
    hide Run, Collide, StreamPeriodic, Cell.Rho;
    var g := Run(f, omegas, ny, nx).value;
    RunSplits(f, omegas + [omega], ny, nx);
    assert (omegas + [omega])[..|omegas|] == omegas;
    OneStep(g, omega, ny, nx);
    forall y, x ensures Collide(CellOf(g, y, x), 0.0).Some? <==> CellOf(g, y, x).Rho() != 0.0 {
      CollisionConserves(CellOf(g, y, x), 0.0);
    }
  }

  lemma CellRelaxes(f: Field, omega: real, ny: int, nx: int, y: int, x: int, d: int)
    requires CollideGrid(f, omega, ny, nx).Some? && 0 <= y < ny && 0 <= x < nx && 0 <= d < 9
    ensures var c := CellOf(f, y, x);
      && c.Rho() != 0.0
      && var resting := EquilibriumAt(d, c.Rho(), c.Mx() / c.Rho(), c.My() / c.Rho());
         CollideGrid(f, omega, ny, nx).value(y, x, d) - resting == (1.0 - omega) * (f(y, x, d) - resting)
  {
    hide Collide, Cell.Rho, Cell.Mx, Cell.My, EquilibriumAt;
    var c := CellOf(f, y, x);
    assert Collide(c, 0.0).Some?;
    CollisionConserves(c, 0.0);
    CollisionRelaxes(c, omega, d);
    CellOfAt(f, y, x, d);
  }

  lemma {:induction false} RunPrefix(f: Field, omegas: seq<real>, ny: int, nx: int, k: nat)
    requires ny >= 1 && nx >= 1 && k <= |omegas| && Run(f, omegas, ny, nx).Some?
    ensures Run(f, omegas[..k], ny, nx).Some?
    decreases |omegas|
  {
    hide Run;
    var n := |omegas| - 1;
    if k == |omegas| {
      assert omegas[..k] == omegas;
    } else {
      RunSplits(f, omegas, ny, nx);
      RunPrefix(f, omegas[..n], ny, nx, k);
      assert omegas[..n][..k] == omegas[..k];
    }
  }

  /** The field left by wall streaming. */
  ghost function WallField(f: Field, ny: int, nx: int): Field
    requires ny > 0 && nx > 0
  {
    (y, x, d) => HalfwayWalls(f, ny, nx, y, x, d)
  }

  /** One row of wall streaming carries the row sum of the row it pulls, or of the wall partner. */
  lemma WallRow(f: Field, ny: int, nx: int, y: int, d: int)
    requires ny >= MIN_CHANNEL_NY && nx >= 1 && 0 < y < ny - 1 && 0 <= d < 9
    ensures RowSum(Plane(WallField(f, ny, nx), d), y, 0, nx)
         == if (y == 1 && Cy(d) == 1) || (y == ny - 2 && Cy(d) == -1) then RowSum(Plane(f, Opposite(d)), y, 0, nx)
            else RowSum(Plane(f, d), y - Cy(d), 0, nx)
  {
    var g := Plane(WallField(f, ny, nx), d);
    if (y == 1 && Cy(d) == 1) || (y == ny - 2 && Cy(d) == -1) {
      RowAgree(g, Plane(f, Opposite(d)), y, y, 0, nx);
    } else {
      forall x | 0 <= x < nx ensures g(y, x) == f(y - Cy(d), Wrap(x - Cx(d), nx), d) {
        PeriodicSource(x, Cx(d), nx);
        PeriodicSource(y, Cy(d), ny);
      }
      RowPeriodic(g, Plane(f, d), y, y - Cy(d), nx, Cx(d));
    }
  }

  /** A direction towards the upper wall and its opposite trade exactly one row at each wall. */
  lemma WallPair(f: Field, ny: int, nx: int, d: int)
    requires ny >= MIN_CHANNEL_NY && nx >= 1 && 0 <= d < 9 && Cy(d) == 1
    ensures var g := WallField(f, ny, nx);
      RectSum(Plane(g, d), 1, ny - 1, 0, nx) + RectSum(Plane(g, Opposite(d)), 1, ny - 1, 0, nx)
      == RectSum(Plane(f, d), 1, ny - 1, 0, nx) + RectSum(Plane(f, Opposite(d)), 1, ny - 1, 0, nx)
  {
    var e := Opposite(d);
    var gd, ge := Plane(WallField(f, ny, nx), d), Plane(WallField(f, ny, nx), e);
    RectSplitFirst(gd, 1, ny - 1, 0, nx);
    WallRow(f, ny, nx, 1, d);
    forall y | 2 <= y < ny - 1 ensures RowSum(gd, y, 0, nx) == RowSum(Plane(f, d), y + -1, 0, nx) {
      WallRow(f, ny, nx, y, d);
    }
    RectShiftRows(gd, Plane(f, d), 2, ny - 1, 0, nx, -1);
    WallRow(f, ny, nx, ny - 2, e);
    forall y | 1 <= y < ny - 2 ensures RowSum(ge, y, 0, nx) == RowSum(Plane(f, e), y + 1, 0, nx) {
      WallRow(f, ny, nx, y, e);
    }
    RectShiftRows(ge, Plane(f, e), 1, ny - 2, 0, nx, 1);
    RectSplitFirst(Plane(f, e), 1, ny - 1, 0, nx);
  }

  lemma WallLevel(f: Field, ny: int, nx: int, d: int)
    requires ny >= MIN_CHANNEL_NY && nx >= 1 && 0 <= d < 9 && Cy(d) == 0
    ensures RectSum(Plane(WallField(f, ny, nx), d), 1, ny - 1, 0, nx) == RectSum(Plane(f, d), 1, ny - 1, 0, nx)
  {
    forall y | 1 <= y < ny - 1 ensures RowSum(Plane(WallField(f, ny, nx), d), y, 0, nx)
      == RowSum(Plane(f, d), y + 0, 0, nx) {
      WallRow(f, ny, nx, y, d);
    }
    RectShiftRows(Plane(WallField(f, ny, nx), d), Plane(f, d), 1, ny - 1, 0, nx, 0);
  }

  lemma MassByPlane(f: Field, y0: int, y1: int, x0: int, x1: int)
    ensures Total(One, f, y0, y1, x0, x1)
         == RectSum(Plane(f, 0), y0, y1, x0, x1) + RectSum(Plane(f, 1), y0, y1, x0, x1)
          + RectSum(Plane(f, 2), y0, y1, x0, x1) + RectSum(Plane(f, 3), y0, y1, x0, x1)
          + RectSum(Plane(f, 4), y0, y1, x0, x1) + RectSum(Plane(f, 5), y0, y1, x0, x1)
          + RectSum(Plane(f, 6), y0, y1, x0, x1) + RectSum(Plane(f, 7), y0, y1, x0, x1)
          + RectSum(Plane(f, 8), y0, y1, x0, x1)
  {
    hide RectSum;
    TotalByPlane(One, f, y0, y1, x0, x1, 9);
    PlaneTotalUnrolled(One, f, y0, y1, x0, x1);
  }

  lemma PlaneTotalUnrolled(w: Weighting, f: Field, y0: int, y1: int, x0: int, x1: int)
    ensures PlaneTotal(w, f, y0, y1, x0, x1, 9)
         == w(0) * RectSum(Plane(f, 0), y0, y1, x0, x1) + w(1) * RectSum(Plane(f, 1), y0, y1, x0, x1)
          + w(2) * RectSum(Plane(f, 2), y0, y1, x0, x1) + w(3) * RectSum(Plane(f, 3), y0, y1, x0, x1)
          + w(4) * RectSum(Plane(f, 4), y0, y1, x0, x1) + w(5) * RectSum(Plane(f, 5), y0, y1, x0, x1)
          + w(6) * RectSum(Plane(f, 6), y0, y1, x0, x1) + w(7) * RectSum(Plane(f, 7), y0, y1, x0, x1)
          + w(8) * RectSum(Plane(f, 8), y0, y1, x0, x1)
  {
    hide RectSum;
    assert PlaneTotal(w, f, y0, y1, x0, x1, 1) == w(0) * RectSum(Plane(f, 0), y0, y1, x0, x1);
    assert PlaneTotal(w, f, y0, y1, x0, x1, 2)
      == PlaneTotal(w, f, y0, y1, x0, x1, 1) + w(1) * RectSum(Plane(f, 1), y0, y1, x0, x1);
    assert PlaneTotal(w, f, y0, y1, x0, x1, 3)
      == PlaneTotal(w, f, y0, y1, x0, x1, 2) + w(2) * RectSum(Plane(f, 2), y0, y1, x0, x1);
    assert PlaneTotal(w, f, y0, y1, x0, x1, 4)
      == PlaneTotal(w, f, y0, y1, x0, x1, 3) + w(3) * RectSum(Plane(f, 3), y0, y1, x0, x1);
    assert PlaneTotal(w, f, y0, y1, x0, x1, 5)
      == PlaneTotal(w, f, y0, y1, x0, x1, 4) + w(4) * RectSum(Plane(f, 4), y0, y1, x0, x1);
    assert PlaneTotal(w, f, y0, y1, x0, x1, 6)
      == PlaneTotal(w, f, y0, y1, x0, x1, 5) + w(5) * RectSum(Plane(f, 5), y0, y1, x0, x1);
    assert PlaneTotal(w, f, y0, y1, x0, x1, 7)
      == PlaneTotal(w, f, y0, y1, x0, x1, 6) + w(6) * RectSum(Plane(f, 6), y0, y1, x0, x1);
    assert PlaneTotal(w, f, y0, y1, x0, x1, 8)
      == PlaneTotal(w, f, y0, y1, x0, x1, 7) + w(7) * RectSum(Plane(f, 7), y0, y1, x0, x1);
  }

  /** Half-way bounce-back neither creates nor destroys mass in the active rows. */
  lemma WallStreamingKeepsMass(f: Field, ny: int, nx: int)
    requires ny >= MIN_CHANNEL_NY && nx >= 1
    ensures Total(One, WallField(f, ny, nx), 1, ny - 1, 0, nx) == Total(One, f, 1, ny - 1, 0, nx)
  {
    hide RectSum, Total, WallField;
    var g := WallField(f, ny, nx);
    MassByPlane(f, 1, ny - 1, 0, nx);
    MassByPlane(g, 1, ny - 1, 0, nx);
    WallLevel(f, ny, nx, 0);
    WallLevel(f, ny, nx, 1);
    WallLevel(f, ny, nx, 3);
    WallPair(f, ny, nx, 2);
    WallPair(f, ny, nx, 5);
    WallPair(f, ny, nx, 6);
  }
}
