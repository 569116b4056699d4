/** What the kernel streams, and the state that the two ends of the channel are in after a step, told by the populations
    pulled there: the inlet drives the prescribed flow, the outlet carries its neighbour's populations out. */
module ChannelEnds {
  import opened ChannelGather
  import opened Kinetics
  import opened Lattice
  import opened Wrappers

  /** What a fluid cell pulls along a link that does not leave the grid, for every mask: the population of the cell
      behind it, or its own opposite population if that is a solid cell or in a wall row. */
  lemma PullsBehind(f: Field, edge: Field, solid: Mask, ny: int, nx: int, y: int, x: int, d: int)
    requires 0 < y < ny - 1 && 0 <= x < nx && 0 <= d < 9 && 0 <= x - Cx(d) < nx
    ensures PulledCell(f, edge, solid, ny, nx, y, x).At(d)
         == if y - Cy(d) == 0 || y - Cy(d) == ny - 1 || solid(y - Cy(d), x - Cx(d)) then f(y, x, Opposite(d))
            else f(y - Cy(d), x - Cx(d), d)
  {
  }

  /** Between the two ends the kernel does nothing else, and it leaves wall rows and solid cells alone. */
  lemma KernelStreams(f: Field, edge: Field, solid: Mask, u: real, ny: int, nx: int, y: int, x: int, d: int)
    requires u != 1.0 && 0 <= y < ny && 0 <= x < nx && 0 <= d < 9
    ensures var cell := GatherWith(f, edge, solid, u, ny, nx, y, x);
      if y == 0 || y == ny - 1 || solid(y, x) then cell.Some? && cell.value.At(d) == f(y, x, d)
      else 0 < x < nx - 1 ==>
        && cell.Some?
        && cell.value.At(d)
           == if y - Cy(d) == 0 || y - Cy(d) == ny - 1 || solid(y - Cy(d), x - Cx(d)) then f(y, x, Opposite(d))
              else f(y - Cy(d), x - Cx(d), d)
  {
    hide PulledCell, InletCell, OutletCell, Pull, CellOf;
    CellOfAt(f, y, x, d);
    if 0 < y < ny - 1 && 0 < x < nx - 1 {
      PullsBehind(f, edge, solid, ny, nx, y, x, d);
    }
  }

  /** The populations that enter through the inlet, for a pulled cell and a streamwise momentum. */
  function Entering1(p: Cell, j: real): real { p.f3 + 2.0 / 3.0 * j }

  function Entering5(p: Cell, j: real): real { p.f7 + 0.5 * (p.f4 - p.f2) + 1.0 / 6.0 * j }

  function Entering8(p: Cell, j: real): real { p.f6 + 0.5 * (p.f2 - p.f4) + 1.0 / 6.0 * j }

  /** The density for which the populations that do not enter carry the flow u. */
  function DrivenDensity(p: Cell, u: real): (rho: real)
    requires u != 1.0
    ensures rho * (1.0 - u) == p.f0 + p.f2 + p.f4 + 2.0 * (p.f3 + p.f6 + p.f7)
  {
    (p.f0 + p.f2 + p.f4 + 2.0 * (p.f3 + p.f6 + p.f7)) / (1.0 - u)
  }

  /** An inlet cell rebuilt from the pulled cell p. The density is the one for which the known populations carry the
      flow. Away from the walls the cell has that density, exactly the prescribed flow, the second-order stress of p
      with its entering populations written out, and nothing above; beside a wall the inlet writes the entering
      populations that the wall does not own. */
  ghost predicate InletDriven(p: Cell, c: Cell, u: real, ny: int, y: int)
    requires u != 1.0
  {
    var rho := DrivenDensity(p, u);
    InletCarries(p, c, rho, rho * u, ny, y)
  }

  ghost predicate InletCarries(p: Cell, c: Cell, rho: real, j: real, ny: int, y: int) {
    var e1, e5, e8 := Entering1(p, j), Entering5(p, j), Entering8(p, j);
    if 1 < y < ny - 2 then
      HasState(c, rho, j, 0.0, e1 + p.f3 + e5 + p.f6 + p.f7 + e8, e5 - p.f6 + p.f7 - e8,
               p.f2 + p.f4 + e5 + p.f6 + p.f7 + e8)
    else
      c == Cell(p.f0, e1, p.f2, p.f3, p.f4, if y == 1 then p.f5 else e5, p.f6, p.f7, if y == ny - 2 then p.f8 else e8)
  }

  lemma InletCellCarries(p: Cell, u: real, ny: int, y: int)
    requires u != 1.0
    ensures InletDriven(p, InletCell(p, u, ny, y), u, ny, y)
  {
    hide Regularize;
    var rho := DrivenDensity(p, u);
    assert InletDensity(p, u) == rho;
    assert ZouHe(p, u) == (Reenter(p, rho, u), rho);
    RebuiltCarries(p, rho, u, InletCell(p, u, ny, y), ny, y);
  }

  lemma RebuiltCarries(p: Cell, rho: real, u: real, c: Cell, ny: int, y: int)
    requires var r := Reenter(p, rho, u);
      c == if 1 < y < ny - 2 then Regularize(r, rho, u)
           else p.(f1 := r.f1, f5 := if y != 1 then r.f5 else p.f5, f8 := if y != ny - 2 then r.f8 else p.f8)
    ensures InletCarries(p, c, rho, rho * u, ny, y)
  {
    hide Regularize, HasState;
    TimesSplits(2.0 / 3.0, rho, u);
    TimesSplits(1.0 / 6.0, rho, u);
    var r, e1, e5, e8 := Reenter(p, rho, u), Entering1(p, rho * u), Entering5(p, rho * u), Entering8(p, rho * u);
    assert r == p.(f1 := e1, f5 := e5, f8 := e8);
    if 1 < y < ny - 2 {
      RegularizeExactly(c, r, rho, u);
      assert r.Pxx() == e1 + p.f3 + e5 + p.f6 + p.f7 + e8;
      assert r.Pxy() == e5 - p.f6 + p.f7 - e8;
      assert r.Pyy() == p.f2 + p.f4 + e5 + p.f6 + p.f7 + e8;
    }
  }

  /** What the inlet column of the kernel carries, for every mask. */
  lemma InletFlows(f: Field, edge: Field, solid: Mask, u: real, ny: int, nx: int, y: int)
    requires u != 1.0 && 0 < y < ny - 1 && !solid(y, 0)
    ensures GatherWith(f, edge, solid, u, ny, nx, y, 0).Some?
    ensures InletDriven(PulledCell(f, edge, solid, ny, nx, y, 0), GatherWith(f, edge, solid, u, ny, nx, y, 0).value,
                        u, ny, y)
  {
    hide InletCell, InletDriven, Pull;
    InletCellCarries(PulledCell(f, edge, solid, ny, nx, y, 0), u, ny, y);
  }

  /** What the outlet column of the kernel carries, for every mask: its own pulled cell with the three entering
      populations of the cell pulled upstream, the wall's links excepted; and it is no number exactly if that cell
      has no density. */
  lemma OutletFlows(f: Field, edge: Field, solid: Mask, u: real, ny: int, nx: int, y: int)
    requires u != 1.0 && nx >= 2 && 0 < y < ny - 1 && !solid(y, nx - 1)
    ensures var p, q := PulledCell(f, edge, solid, ny, nx, y, nx - 1), PulledCell(f, edge, solid, ny, nx, y, nx - 2);
      GatherWith(f, edge, solid, u, ny, nx, y, nx - 1)
      == if q.f0 + q.f1 + q.f2 + q.f3 + q.f4 + q.f5 + q.f6 + q.f7 + q.f8 == 0.0 then None
         else Some(Cell(p.f0, p.f1, p.f2, q.f3, p.f4, p.f5,
                        if y == 1 then p.f6 else q.f6, if y == ny - 2 then p.f7 else q.f7, p.f8))
  {
    hide PulledCell, EquilibriumAt;
  }
}
