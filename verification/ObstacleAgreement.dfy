/** Where bounce-back after the staged channel pipeline and the fused kernel with solid cells agree. Both
    handle every mask; they are the same map exactly for the masks described by `Compatible`. */
module ObstacleAgreement {
  import opened ChannelGather
  import opened ChannelRefinement
  import opened ChannelStages
  import opened Forces
  import opened Lattice

  /** Bounce-back: solid cells keep their post-collision populations, and a population that would have come
      out of a solid cell is the one that went in. */
  function Bounced(staged: real, f: Field, solid: Mask, ny: int, nx: int, y: int, x: int, d: int): real {
    if solid(y, x) then f(y, x, d)
    else if IsLink(solid, ny, nx, y, x, Opposite(d)) then f(y, x, Opposite(d))
    else staged
  }

  /** At one cell, bounce-back after the staged pipeline gives what the fused kernel gives: both are finite
      or neither is, and the nine populations are equal. */
  ghost predicate CellAgrees(f: Field, solid: Mask, u: real, ny: int, nx: int, y: int, x: int)
    requires ny > 0 && nx > 0 && u != 1.0
  {
    var staged, fused := InletOutlet(Streamed(f, ny, nx), u, ny, nx, y, x), Gather(f, solid, u, ny, nx, y, x);
    && (staged.Some? <==> fused.Some?)
    && (staged.Some? ==> forall d :: 0 <= d < 9 ==>
          fused.value.At(d) == Bounced(staged.value.At(d), f, solid, ny, nx, y, x, d))
  }

  /** No link starts in the outer two rows. */
  ghost predicate WallRowsFree(solid: Mask, ny: int, nx: int) {
    forall x, e :: !IsLink(solid, ny, nx, 0, x, e) && !IsLink(solid, ny, nx, ny - 1, x, e)
  }

  /** The active inlet column is solid throughout, or it and its neighbour are fluid throughout. */
  ghost predicate InletFree(solid: Mask, ny: int) {
    || (forall y :: 0 < y < ny - 1 ==> solid(y, 0))
    || (forall y :: 0 < y < ny - 1 ==> !solid(y, 0) && !solid(y, 1))
  }

  /** The last three columns are fluid in every active row. */
  ghost predicate OutletFree(solid: Mask, ny: int, nx: int) {
    forall y, x :: 0 < y < ny - 1 && nx - 3 <= x < nx ==> !solid(y, x)
  }

  ghost predicate Compatible(solid: Mask, ny: int, nx: int) {
    WallRowsFree(solid, ny, nx) && InletFree(solid, ny) && OutletFree(solid, ny, nx)
  }

  /** A pull from a solid cell is a link read backwards. */
  lemma PullIsBounced(f: Field, edge: Field, solid: Mask, ny: int, nx: int, y: int, x: int, d: int)
    requires 0 < y < ny - 1 && 0 <= x < nx && 0 <= d < 9 && !solid(y, x)
    ensures Pull(f, edge, solid, ny, nx, y, x, d)
         == Bounced(Pull(f, edge, NoSolid, ny, nx, y, x, d), f, solid, ny, nx, y, x, d)
  {
    DirectionTables(d, d);
    if d == 0 {
      assert Cx(0) == 0 && Cy(0) == 0;
    }
  }

  lemma PulledIsBounced(f: Field, edge: Field, solid: Mask, ny: int, nx: int, y: int, x: int, d: int)
    requires 0 < y < ny - 1 && 0 <= x < nx && 0 <= d < 9 && !solid(y, x)
    ensures PulledCell(f, edge, solid, ny, nx, y, x).At(d)
         == Bounced(PulledCell(f, edge, NoSolid, ny, nx, y, x).At(d), f, solid, ny, nx, y, x, d)
  {
    hide Pull, Bounced;
    PullIsBounced(f, edge, solid, ny, nx, y, x, d);
  }

  /** None of the cells that stream into this one is an active solid cell. */
  ghost predicate SourcesFluid(solid: Mask, ny: int, nx: int, y: int, x: int) {
    forall d :: 0 <= d < 9 && 0 < y - Cy(d) < ny - 1 && 0 <= x - Cx(d) < nx ==> !solid(y - Cy(d), x - Cx(d))
  }

  lemma PulledFarAway(f: Field, edge: Field, solid: Mask, ny: int, nx: int, y: int, x: int)
    requires 0 < y < ny - 1 && 0 <= x < nx && SourcesFluid(solid, ny, nx, y, x)
    ensures PulledCell(f, edge, solid, ny, nx, y, x) == PulledCell(f, edge, NoSolid, ny, nx, y, x)
  {
    hide Pull;
    forall d | 0 <= d < 9 ensures Pull(f, edge, solid, ny, nx, y, x, d) == Pull(f, edge, NoSolid, ny, nx, y, x, d) {
      PullFarAway(f, edge, solid, ny, nx, y, x, d);
    }
  }

  lemma PullFarAway(f: Field, edge: Field, solid: Mask, ny: int, nx: int, y: int, x: int, d: int)
    requires 0 < y < ny - 1 && 0 <= x < nx && SourcesFluid(solid, ny, nx, y, x) && 0 <= d < 9
    ensures Pull(f, edge, solid, ny, nx, y, x, d) == Pull(f, edge, NoSolid, ny, nx, y, x, d)
  {
  }

  /** Far from active solid cells a link can only run into a wall row, and then the wall bounces the same. */
  lemma OnlyWallLinks(f: Field, edge: Field, solid: Mask, ny: int, nx: int, y: int, x: int, d: int)
    requires 0 < y < ny - 1 && 0 <= x < nx && 0 <= d < 9 && SourcesFluid(solid, ny, nx, y, x)
    requires IsLink(solid, ny, nx, y, x, Opposite(d))
    ensures (y == 1 && Cy(d) == 1) || (y == ny - 2 && Cy(d) == -1)
    ensures 0 <= x - Cx(d) < nx && Pull(f, edge, NoSolid, ny, nx, y, x, d) == f(y, x, Opposite(d))
  {
    DirectionTables(d, d);
  }

  lemma InletBouncesAlike(f: Field, solid: Mask, u: real, ny: int, nx: int, y: int, d: int)
    requires ny >= MIN_CHANNEL_NY && nx >= MIN_CHANNEL_NX && u != 1.0 && 0 < y < ny - 1 && 0 <= d < 9
    requires SourcesFluid(solid, ny, nx, y, 0) && !solid(y, 0)
    ensures var c := InletCell(PulledCell(f, f, NoSolid, ny, nx, y, 0), u, ny, y);
      Bounced(c.At(d), f, solid, ny, nx, y, 0, d) == c.At(d)
  {
    hide InletCell, Pull, IsLink, SourcesFluid;
    if IsLink(solid, ny, nx, y, 0, Opposite(d)) {
      OnlyWallLinks(f, f, solid, ny, nx, y, 0, d);
      CornerInletKeeps(PulledCell(f, f, NoSolid, ny, nx, y, 0), u, ny, y, d);
    }
  }

  lemma OutletBouncesAlike(f: Field, solid: Mask, ny: int, nx: int, y: int, d: int, g: Cell)
    requires ny >= MIN_CHANNEL_NY && nx >= MIN_CHANNEL_NX && 0 < y < ny - 1 && 0 <= d < 9
    requires SourcesFluid(solid, ny, nx, y, nx - 1) && !solid(y, nx - 1)
    ensures var c := OutletCell(PulledCell(f, f, NoSolid, ny, nx, y, nx - 1), g, ny, y);
      c.Some? ==> Bounced(c.value.At(d), f, solid, ny, nx, y, nx - 1, d) == c.value.At(d)
  {
    hide OutletCell, Pull, IsLink, SourcesFluid;
    var c := PulledCell(f, f, NoSolid, ny, nx, y, nx - 1);
    if OutletCell(c, g, ny, y).Some? && IsLink(solid, ny, nx, y, nx - 1, Opposite(d)) {
      OnlyWallLinks(f, f, solid, ny, nx, y, nx - 1, d);
      OutletCopies(c, g, ny, y, d);
    }
  }

  lemma ActiveCellAgrees(f: Field, solid: Mask, u: real, ny: int, nx: int, y: int, x: int)
    requires ny >= MIN_CHANNEL_NY && nx >= MIN_CHANNEL_NX && u != 1.0 && 0 < y < ny - 1
    requires 0 <= x < nx - 1 && (solid(y, x) || x > 0)
    ensures CellAgrees(f, solid, u, ny, nx, y, x)
  {
    hide InletCell, PulledCell, InletOutlet, IsLink, Cell.At, Streamed;
    StagesRefineGather(f, f, u, ny, nx, y, x);
    forall d | 0 <= d < 9 ensures CellOf(f, y, x).At(d) == f(y, x, d) {
      CellOfAt(f, y, x, d);
    }
    if !solid(y, x) {
      forall d | 0 <= d < 9 {
        PulledIsBounced(f, f, solid, ny, nx, y, x, d);
      }
    }
  }

  lemma InletCellAgrees(f: Field, solid: Mask, u: real, ny: int, nx: int, y: int)
    requires ny >= MIN_CHANNEL_NY && nx >= MIN_CHANNEL_NX && u != 1.0 && 0 < y < ny - 1
    requires !solid(y, 0) && SourcesFluid(solid, ny, nx, y, 0)
    ensures CellAgrees(f, solid, u, ny, nx, y, 0)
  {
    hide InletCell, PulledCell, InletOutlet, Bounced, SourcesFluid, Cell.At, Streamed;
    StagesRefineGather(f, f, u, ny, nx, y, 0);
    PulledFarAway(f, f, solid, ny, nx, y, 0);
    forall d | 0 <= d < 9 {
      InletBouncesAlike(f, solid, u, ny, nx, y, d);
    }
  }

  lemma OutletCellAgrees(f: Field, solid: Mask, u: real, ny: int, nx: int, y: int)
    requires ny >= MIN_CHANNEL_NY && nx >= MIN_CHANNEL_NX && u != 1.0 && 0 < y < ny - 1
    requires !solid(y, nx - 1) && SourcesFluid(solid, ny, nx, y, nx - 1) && SourcesFluid(solid, ny, nx, y, nx - 2)
    ensures CellAgrees(f, solid, u, ny, nx, y, nx - 1)
  {
    hide OutletCell, PulledCell, InletOutlet, Bounced, SourcesFluid, Cell.At, Streamed;
    StagesRefineGather(f, f, u, ny, nx, y, nx - 1);
    PulledFarAway(f, f, solid, ny, nx, y, nx - 1);
    PulledFarAway(f, f, solid, ny, nx, y, nx - 2);
    var c := OutletCell(PulledCell(f, f, NoSolid, ny, nx, y, nx - 1),
                        PulledCell(f, f, NoSolid, ny, nx, y, nx - 2), ny, y);
    forall d | 0 <= d < 9 && c.Some? ensures Bounced(c.value.At(d), f, solid, ny, nx, y, nx - 1, d) == c.value.At(d) {
      OutletBouncesAlike(f, solid, ny, nx, y, d, PulledCell(f, f, NoSolid, ny, nx, y, nx - 2));
    }
  }

  lemma WallCellAgrees(f: Field, solid: Mask, u: real, ny: int, nx: int, y: int, x: int)
    requires ny > 0 && nx > 0 && u != 1.0 && (y == 0 || y == ny - 1) && WallRowsFree(solid, ny, nx)
    ensures CellAgrees(f, solid, u, ny, nx, y, x)
  {
    hide IsLink, Cell.At, CellOf, Opposite;
    WallRowsHeld(f, ny, nx, y, x);
    forall d | 0 <= d < 9 ensures CellOf(f, y, x).At(d) == Bounced(CellOf(f, y, x).At(d), f, solid, ny, nx, y, x, d) {
      CellOfAt(f, y, x, d);
      assert !IsLink(solid, ny, nx, 0, x, Opposite(d));
      assert !IsLink(solid, ny, nx, ny - 1, x, Opposite(d));
    }
  }

  lemma ColumnsFluid(solid: Mask, ny: int, nx: int, y: int, x: int)
    requires forall j, i :: 0 < j < ny - 1 && x - 1 <= i <= x + 1 && 0 <= i < nx ==> !solid(j, i)
    ensures SourcesFluid(solid, ny, nx, y, x)
  {
  }

  /** For a compatible mask the two agree at every cell, for all populations. */
  lemma CompatibleAgrees(f: Field, solid: Mask, u: real, ny: int, nx: int, y: int, x: int)
    requires ny >= MIN_CHANNEL_NY && nx >= MIN_CHANNEL_NX && u != 1.0 && Compatible(solid, ny, nx)
    requires 0 <= y < ny && 0 <= x < nx
    ensures CellAgrees(f, solid, u, ny, nx, y, x)
  {
    hide CellAgrees, SourcesFluid, IsLink, WallRowsFree;
    if !(0 < y < ny - 1) {
      WallCellAgrees(f, solid, u, ny, nx, y, x);
    } else if x == nx - 1 {
      ColumnsFluid(solid, ny, nx, y, nx - 1);
      ColumnsFluid(solid, ny, nx, y, nx - 2);
      OutletCellAgrees(f, solid, u, ny, nx, y);
    } else if x == 0 && !solid(y, 0) {
      ColumnsFluid(solid, ny, nx, y, 0);
      InletCellAgrees(f, solid, u, ny, nx, y);
    } else {
      ActiveCellAgrees(f, solid, u, ny, nx, y, x);
    }
  }

  /** One population at one place, nothing elsewhere. */
  function Spike(y0: int, x0: int, d0: int): Field {
    (y, x, d) => if y == y0 && x == x0 && d == d0 then 1.0 else 0.0
  }

  function Nothing(): Field { (y, x, d) => 0.0 }

  const EmptyCell := Cell(0.0, 0.0, 0.0, 0.0, 0.0, 0.0, 0.0, 0.0, 0.0)

  /** The cell with one population. */
  function Unit(d: int): (c: Cell)
    requires 0 <= d < 9
    ensures forall e :: 0 <= e < 9 ==> c.At(e) == if e == d then 1.0 else 0.0
    ensures c.Rho() == 1.0
  {
    CellOf(Spike(0, 0, d), 0, 0)
  }

  lemma CellByPopulations(c: Cell, c': Cell)
    requires forall d :: 0 <= d < 9 ==> c.At(d) == c'.At(d)
    ensures c == c'
  {
    assert c.At(0) == c.f0 && c.At(1) == c.f1 && c.At(2) == c.f2 && c.At(3) == c.f3 && c.At(4) == c.f4;
    assert c.At(5) == c.f5 && c.At(6) == c.f6 && c.At(7) == c.f7 && c.At(8) == c.f8;
    assert c'.At(0) == c'.f0 && c'.At(1) == c'.f1 && c'.At(2) == c'.f2 && c'.At(3) == c'.f3 && c'.At(4) == c'.f4;
    assert c'.At(5) == c'.f5 && c'.At(6) == c'.f6 && c'.At(7) == c'.f7 && c'.At(8) == c'.f8;
  }

  /** Every link that starts in a wall row makes the two differ, for every field whose two populations along
      it differ: bounce-back overwrites what the kernel holds. */
  lemma WallLinkDiffers(f: Field, solid: Mask, u: real, ny: int, nx: int, y: int, x: int, e: int)
    requires ny > 0 && nx > 0 && u != 1.0 && (y == 0 || y == ny - 1)
    requires IsLink(solid, ny, nx, y, x, e) && f(y, x, e) != f(y, x, Opposite(e))
    ensures !CellAgrees(f, solid, u, ny, nx, y, x)
  {
    hide IsLink, Cell.At;
    assert 1 <= e < 9 && !solid(y, x) by {
      NotSolid(solid, ny, nx, y, x, e);
    }
    DirectionTables(e, e);
    var d := Opposite(e);
    CellOfAt(f, y, x, d);
    assert Gather(f, solid, u, ny, nx, y, x).value.At(d) == f(y, x, d);
  }

  lemma NotSolid(solid: Mask, ny: int, nx: int, y: int, x: int, e: int)
    requires IsLink(solid, ny, nx, y, x, e)
    ensures 1 <= e < 9 && !solid(y, x)
  {
  }

  /** A solid cell in the outlet column makes the two differ, for every field that leaves nothing upstream:
      the staged outlet then has no density to divide by, and the kernel does not look. */
  lemma SolidOutletDiffers(f: Field, solid: Mask, u: real, ny: int, nx: int, y: int)
    requires ny >= MIN_CHANNEL_NY && nx >= MIN_CHANNEL_NX && u != 1.0 && 0 < y < ny - 1 && solid(y, nx - 1)
    requires PulledCell(f, f, NoSolid, ny, nx, y, nx - 2).Rho() == 0.0
    ensures !CellAgrees(f, solid, u, ny, nx, y, nx - 1)
  {
    hide PulledCell, InletOutlet, Streamed;
    StagesRefineGather(f, f, u, ny, nx, y, nx - 1);
  }

  lemma NothingPulled(solid: Mask, ny: int, nx: int, y: int, x: int)
    ensures PulledCell(Nothing(), Nothing(), solid, ny, nx, y, x) == EmptyCell
  {
  }

  /** What a spike that streams into a cell becomes there: one population without the solid cell that holds
      it, none with it. */
  lemma SpikePulled(solid: Mask, ny: int, nx: int, y: int, x: int, d: int)
    requires 0 < y < ny - 1 && 0 < x < nx - 1 && 1 <= d < 9 && 0 < y - Cy(d) < ny - 1 && solid(y - Cy(d), x - Cx(d))
    ensures var f := Spike(y - Cy(d), x - Cx(d), d);
      && PulledCell(f, f, NoSolid, ny, nx, y, x) == Unit(d)
      && PulledCell(f, f, solid, ny, nx, y, x) == EmptyCell
  {
    var f := Spike(y - Cy(d), x - Cx(d), d);
    hide Unit, Pull, Cell.Rho;
    forall e | 0 <= e < 9
      ensures Pull(f, f, NoSolid, ny, nx, y, x, e) == (if e == d then 1.0 else 0.0)
        && Pull(f, f, solid, ny, nx, y, x, e) == 0.0
    {
      SpikePull(solid, ny, nx, y, x, d, e);
    }
    CellByPopulations(PulledCell(f, f, NoSolid, ny, nx, y, x), Unit(d));
  }

  lemma SpikePull(solid: Mask, ny: int, nx: int, y: int, x: int, d: int, e: int)
    requires 0 < y < ny - 1 && 0 < x < nx - 1 && 1 <= d < 9 && 0 < y - Cy(d) < ny - 1 && solid(y - Cy(d), x - Cx(d))
    requires 0 <= e < 9
    ensures var f := Spike(y - Cy(d), x - Cx(d), d);
      && Pull(f, f, NoSolid, ny, nx, y, x, e) == (if e == d then 1.0 else 0.0)
      && Pull(f, f, solid, ny, nx, y, x, e) == 0.0
  {
    assert Cx(d) != 0 || Cy(d) != 0;
  }

  /** A solid cell that would stream into the outlet's upstream neighbour makes the two differ: the density
      the outlet divides by is there in one and gone in the other. */
  lemma NearOutletDiffers(solid: Mask, u: real, ny: int, nx: int, y: int, d: int)
    requires ny >= MIN_CHANNEL_NY && nx >= MIN_CHANNEL_NX && u != 1.0 && 0 < y < ny - 1 && 1 <= d < 9
    requires !solid(y, nx - 1) && 0 < y - Cy(d) < ny - 1 && solid(y - Cy(d), nx - 2 - Cx(d))
    ensures !CellAgrees(Spike(y - Cy(d), nx - 2 - Cx(d), d), solid, u, ny, nx, y, nx - 1)
  {
    hide PulledCell, InletOutlet, Streamed, Unit, Spike, Cell.Rho;
    var f := Spike(y - Cy(d), nx - 2 - Cx(d), d);
    StagesRefineGather(f, f, u, ny, nx, y, nx - 1);
    SpikePulled(solid, ny, nx, y, nx - 2, d);
    EmptyHasNoDensity();
  }

  lemma EmptyHasNoDensity()
    ensures EmptyCell.Rho() == 0.0
  {
  }

  lemma EmptyEquilibrium(u: real)
    ensures Equilibrium(0.0, u, 0.0) == EmptyCell
  {
  }

  /** The inlet rule builds nothing from nothing. */
  lemma EmptyInlet(u: real, ny: int, y: int)
    requires u != 1.0
    ensures InletCell(EmptyCell, u, ny, y) == EmptyCell
  {
    hide Regularize;
    NothingShared(1.0 - u);
    assert ZouHe(EmptyCell, u) == (EmptyCell, 0.0);
    hide ZouHe;
    EmptyRegularized(u);
  }

  lemma NothingShared(x: real)
    requires x != 0.0
    ensures 0.0 / x == 0.0
  {
    var q := 0.0 / x;
    assert q * x == 0.0;
  }

  lemma EmptyRegularized(u: real)
    ensures Regularize(EmptyCell, 0.0, u) == EmptyCell
  {
    hide Equilibrium;
    EmptyEquilibrium(u);
    assert EmptyCell.Minus(EmptyCell) == EmptyCell;
  }

  /** The inlet density of a lone population, and the momentum that goes with it. */
  lemma LoneInletDensity(u: real, d: int)
    requires ValidInlet(u) && 2 <= d <= 4
    ensures var rho, known := InletDensity(Unit(d), u), if d == 3 then 2.0 else 1.0;
      && rho * (1.0 - u) == known && known <= rho <= 2.5 && 0.0 <= rho * u <= 0.25
  {
    var rho, known := InletDensity(Unit(d), u), if d == 3 then 2.0 else 1.0;
    assert Unit(d).f0 + Unit(d).f2 + Unit(d).f4 + 2.0 * (Unit(d).f3 + Unit(d).f6 + Unit(d).f7) == known;
    hide InletDensity, Unit;
    assert rho * (1.0 - u) == known;
    ShareBounds(rho, u, known);
  }

  lemma ShareBounds(rho: real, u: real, known: real)
    requires ValidInlet(u) && rho * (1.0 - u) == known && 0.0 <= known <= 2.0
    ensures known <= rho <= 2.5 && 0.0 <= rho * u <= 0.25
  {
    var rest := 1.0 - u;
    assert rho < 0.0 ==> rho * rest < 0.0;
    assert rho * u >= 0.0;
    var slack := 0.1 - u;
    assert rho * slack >= 0.0;
    assert rho * slack == 0.1 * rho - rho * u;
  }

  /** The inlet rule never returns a lone population that came back from a neighbour above, below or ahead. */
  lemma LoneInletChanges(u: real, ny: int, y: int, d: int)
    requires ValidInlet(u) && ny >= MIN_CHANNEL_NY && 0 < y < ny - 1 && 2 <= d <= 4
    requires (y == 1 ==> d != 2) && (y == ny - 2 ==> d != 4)
    ensures InletCell(Unit(d), u, ny, y) != Unit(d)
  {
    hide Regularize, InletDensity;
    var c := Unit(d);
    var rho := InletDensity(c, u);
    var p := Reenter(c, rho, u);
    LoneInletDensity(u, d);
    if 1 < y < ny - 2 {
      RegularizeIsProjection(p, rho, u);
      LoneMoments(d);
      if d == 3 {
        assert rho >= 2.0;
      }
    } else {
      TimesSplits(2.0 / 3.0, rho, u);
      TimesSplits(1.0 / 6.0, rho, u);
      hide Unit;
      LonePopulations(d);
      assert d == 3 ==> p.f1 >= 1.0;
      assert d == 4 ==> p.f8 < 0.0;
      assert d == 2 ==> p.f5 < 0.0;
    }
  }

  lemma LoneMoments(d: int)
    requires 2 <= d <= 4
    ensures Unit(d).Rho() == 1.0 && Unit(d).My() == if d == 2 then 1.0 else if d == 4 then -1.0 else 0.0
  {
  }

  lemma LonePopulations(d: int)
    requires 2 <= d <= 4
    ensures var c := Unit(d);
      && c.f1 == c.f5 == c.f6 == c.f7 == c.f8 == 0.0
      && c.f2 == (if d == 2 then 1.0 else 0.0) && c.f3 == (if d == 3 then 1.0 else 0.0)
      && c.f4 == if d == 4 then 1.0 else 0.0
  {
  }

  /** A solid cell that would stream into a fluid inlet cell makes the two differ: the kernel rebuilds the inlet
      from the population that came back, bounce-back after the inlet has been rebuilt does not. */
  lemma NearInletDiffers(solid: Mask, u: real, ny: int, nx: int, y: int, d: int)
    requires ny >= MIN_CHANNEL_NY && nx >= MIN_CHANNEL_NX && ValidInlet(u) && 0 < y < ny - 1 && 2 <= d <= 4
    requires !solid(y, 0) && 0 < y - Cy(d) < ny - 1 && solid(y - Cy(d), -Cx(d))
    ensures !CellAgrees(Spike(y, 0, Opposite(d)), solid, u, ny, nx, y, 0)
  {
    hide InletCell, InletOutlet, Streamed, Spike, PulledCell, Unit, Cell.At, IsLink, Opposite;
    var f := Spike(y, 0, Opposite(d));
    StagesRefineGather(f, Nothing(), u, ny, nx, y, 0);
    FallbackNeverSurvives(f, f, Nothing(), solid, u, ny, nx, y, 0);
    ReturnedPulled(solid, ny, nx, y, d);
    EmptyInlet(u, ny, y);
    LoneInletChanges(u, ny, y, d);
    if CellAgrees(f, solid, u, ny, nx, y, 0) {
      forall e | 0 <= e < 9 ensures InletCell(Unit(d), u, ny, y).At(e) == Unit(d).At(e) {
        ReturnedBounced(solid, ny, nx, y, d, e);
      }
      CellByPopulations(InletCell(Unit(d), u, ny, y), Unit(d));
    }
  }

  lemma ReturnedBounced(solid: Mask, ny: int, nx: int, y: int, d: int, e: int)
    requires ny >= MIN_CHANNEL_NY && nx >= MIN_CHANNEL_NX && 0 < y < ny - 1 && 2 <= d <= 4 && 0 <= e < 9
    requires !solid(y, 0) && 0 < y - Cy(d) < ny - 1 && solid(y - Cy(d), -Cx(d))
    ensures Bounced(EmptyCell.At(e), Spike(y, 0, Opposite(d)), solid, ny, nx, y, 0, e) == Unit(d).At(e)
  {
    DirectionTables(d, e);
    DirectionTables(e, d);
    assert EmptyCell.At(e) == 0.0;
    hide Unit;
    if e == d {
      assert IsLink(solid, ny, nx, y, 0, Opposite(d));
    }
  }

  lemma ReturnedPulled(solid: Mask, ny: int, nx: int, y: int, d: int)
    requires ny >= MIN_CHANNEL_NY && nx >= MIN_CHANNEL_NX && 0 < y < ny - 1 && 2 <= d <= 4
    requires !solid(y, 0) && 0 < y - Cy(d) < ny - 1 && solid(y - Cy(d), -Cx(d))
    ensures var f := Spike(y, 0, Opposite(d));
      && PulledCell(f, Nothing(), NoSolid, ny, nx, y, 0) == EmptyCell
      && PulledCell(f, Nothing(), solid, ny, nx, y, 0) == Unit(d)
  {
    var f := Spike(y, 0, Opposite(d));
    hide Unit, Pull, Cell.Rho;
    forall e | 0 <= e < 9
      ensures Pull(f, Nothing(), NoSolid, ny, nx, y, 0, e) == 0.0
      ensures Pull(f, Nothing(), solid, ny, nx, y, 0, e) == if e == d then 1.0 else 0.0
    {
      ReturnedPull(solid, ny, nx, y, d, e);
    }
    CellByPopulations(PulledCell(f, Nothing(), solid, ny, nx, y, 0), Unit(d));
  }

  lemma ReturnedPull(solid: Mask, ny: int, nx: int, y: int, d: int, e: int)
    requires ny >= MIN_CHANNEL_NY && nx >= MIN_CHANNEL_NX && 0 < y < ny - 1 && 2 <= d <= 4 && 0 <= e < 9
    requires !solid(y, 0) && 0 < y - Cy(d) < ny - 1 && solid(y - Cy(d), -Cx(d))
    ensures var f := Spike(y, 0, Opposite(d));
      && Pull(f, Nothing(), NoSolid, ny, nx, y, 0, e) == 0.0
      && Pull(f, Nothing(), solid, ny, nx, y, 0, e) == if e == d then 1.0 else 0.0
  {
    DirectionTables(d, e);
    DirectionTables(e, d);
  }

  /** Between a fluid and a solid cell of the inlet column lie a fluid and a solid cell next to each other. */
  lemma {:induction false} NeighboursDiffer(solid: Mask, a: int, b: int) returns (y: int, d: int)
    requires !solid(a, 0) && solid(b, 0)
    ensures (d == 2 || d == 4) && !solid(y, 0) && solid(y - Cy(d), 0)
    ensures (a <= y <= b || b <= y <= a) && (a <= y - Cy(d) <= b || b <= y - Cy(d) <= a)
    decreases if a < b then b - a else a - b
  {
    var next := if a < b then a + 1 else a - 1;
    if solid(next, 0) {
      y, d := a, if a < b then 4 else 2;
    } else {
      y, d := NeighboursDiffer(solid, next, b);
    }
  }

  lemma WallRowsDiffer(solid: Mask, u: real, ny: int, nx: int) returns (f: Field, y: int, x: int)
    requires ny >= MIN_CHANNEL_NY && nx >= MIN_CHANNEL_NX && ValidInlet(u) && !WallRowsFree(solid, ny, nx)
    ensures 0 <= y < ny && 0 <= x < nx && !CellAgrees(f, solid, u, ny, nx, y, x)
  {
    hide CellAgrees;
    var x0, e :| IsLink(solid, ny, nx, 0, x0, e) || IsLink(solid, ny, nx, ny - 1, x0, e);
    x := x0;
    y := if IsLink(solid, ny, nx, 0, x, e) then 0 else ny - 1;
    f := Spike(y, x, e);
    assert Opposite(e) != e;
    WallLinkDiffers(f, solid, u, ny, nx, y, x, e);
  }

  lemma OutletDiffers(solid: Mask, u: real, ny: int, nx: int) returns (f: Field, y: int, x: int)
    requires ny >= MIN_CHANNEL_NY && nx >= MIN_CHANNEL_NX && ValidInlet(u) && !OutletFree(solid, ny, nx)
    ensures 0 <= y < ny && 0 <= x < nx && !CellAgrees(f, solid, u, ny, nx, y, x)
  {
    hide CellAgrees, PulledCell, Spike, Cell.Rho;
    x := nx - 1;
    var y0, x0 :| 0 < y0 < ny - 1 && nx - 3 <= x0 < nx && solid(y0, x0);
    var d := if x0 == nx - 3 then 1 else if y0 < ny - 2 then 2 else 4;
    y := if x0 == nx - 1 then y0 else y0 + Cy(d);
    if solid(y, nx - 1) {
      f := Nothing();
      NothingPulled(NoSolid, ny, nx, y, nx - 2);
      EmptyHasNoDensity();
      SolidOutletDiffers(f, solid, u, ny, nx, y);
    } else {
      f := Spike(y0, x0, d);
      NearOutletDiffers(solid, u, ny, nx, y, d);
    }
  }

  lemma InletDiffers(solid: Mask, u: real, ny: int, nx: int) returns (f: Field, y: int, x: int)
    requires ny >= MIN_CHANNEL_NY && nx >= MIN_CHANNEL_NX && ValidInlet(u) && !InletFree(solid, ny)
    ensures 0 <= y < ny && 0 <= x < nx && !CellAgrees(f, solid, u, ny, nx, y, x)
  {
    hide CellAgrees;
    x := 0;
    var fluid, d :| 0 < fluid < ny - 1 && !solid(fluid, 0) && d == 3;
    if y0 :| 0 < y0 < ny - 1 && solid(y0, 0) {
      y, d := NeighboursDiffer(solid, fluid, y0);
    } else {
      y :| 0 < y < ny - 1 && solid(y, 1);
    }
    f := Spike(y, 0, Opposite(d));
    NearInletDiffers(solid, u, ny, nx, y, d);
  }

  /** Exactly when staged bounce-back and the fused kernel are the same map: for every legal grid and inlet
      velocity, they agree at every cell for all populations if and only if the mask is compatible. */
  lemma AgreementExactly(solid: Mask, u: real, ny: int, nx: int)
    requires ny >= MIN_CHANNEL_NY && nx >= MIN_CHANNEL_NX && ValidInlet(u)
    ensures Compatible(solid, ny, nx) <==>
      forall f: Field, y, x :: 0 <= y < ny && 0 <= x < nx ==> CellAgrees(f, solid, u, ny, nx, y, x)
  {
    hide CellAgrees, WallRowsFree, InletFree, OutletFree;
    if Compatible(solid, ny, nx) {
      forall f: Field, y, x | 0 <= y < ny && 0 <= x < nx ensures CellAgrees(f, solid, u, ny, nx, y, x) {
        CompatibleAgrees(f, solid, u, ny, nx, y, x);
      }
    } else {
      var f, y, x;
      if !WallRowsFree(solid, ny, nx) {
        f, y, x := WallRowsDiffer(solid, u, ny, nx);
      } else if !OutletFree(solid, ny, nx) {
        f, y, x := OutletDiffers(solid, u, ny, nx);
      } else {
        f, y, x := InletDiffers(solid, u, ny, nx);
      }
    }
  }
}
