/** The fused channel kernel: one gather per cell that streams, bounces from walls and solid cells,
    and reconstructs inlet and outlet; and the table saying which rule owns each population. */
module ChannelGather {
  import opened Lattice
  import opened Wrappers

  /** A population field: row, column, direction. */
  type Field = (int, int, int) -> real

  /** A solid mask: row, column. */
  type Mask = (int, int) -> bool

  datatype BoundaryOwner = Interior | LowerWall | UpperWall | Inlet | Outlet

  const MIN_CHANNEL_NX := 3
  const MIN_CHANNEL_NY := 5
  const MAX_INLET_VELOCITY_LU := 0.1

  predicate ValidInlet(u: real) {
    0.0 <= u <= MAX_INLET_VELOCITY_LU
  }

  predicate NoSolid(y: int, x: int) { false }

  function CellOf(f: Field, y: int, x: int): Cell {
    Cell(f(y, x, 0), f(y, x, 1), f(y, x, 2), f(y, x, 3), f(y, x, 4),
         f(y, x, 5), f(y, x, 6), f(y, x, 7), f(y, x, 8))
  }

  lemma CellOfAt(f: Field, y: int, x: int, d: int)
    requires 0 <= d < 9
    ensures CellOf(f, y, x).At(d) == f(y, x, d)
  {
  }

  /** The gather of one population. `edge` supplies what is read when the source column is off the
      grid; the kernel passes the post-collision field itself. */
  function Pull(f: Field, edge: Field, solid: Mask, ny: int, nx: int, y: int, x: int, d: int): real {
    var sx, sy := x - Cx(d), y - Cy(d);
    if 0 <= sy < ny && 0 <= sx < nx && solid(sy, sx) then f(y, x, Opposite(d))
    else if sy <= 0 || sy >= ny - 1 then f(y, x, Opposite(d))
    else if sx < 0 || sx >= nx then edge(y, x, d)
    else f(sy, sx, d)
  }

  function PulledCell(f: Field, edge: Field, solid: Mask, ny: int, nx: int, y: int, x: int): Cell {
    Cell(Pull(f, edge, solid, ny, nx, y, x, 0), Pull(f, edge, solid, ny, nx, y, x, 1),
         Pull(f, edge, solid, ny, nx, y, x, 2), Pull(f, edge, solid, ny, nx, y, x, 3),
         Pull(f, edge, solid, ny, nx, y, x, 4), Pull(f, edge, solid, ny, nx, y, x, 5),
         Pull(f, edge, solid, ny, nx, y, x, 6), Pull(f, edge, solid, ny, nx, y, x, 7),
         Pull(f, edge, solid, ny, nx, y, x, 8))
  }

  /** Inlet column: full regularization away from the corners, wall priority beside them. */
  function InletCell(c: Cell, u: real, ny: int, y: int): Cell
    requires u != 1.0
  {
    var (provisional, rho) := ZouHe(c, u);
    if 1 < y < ny - 2 then Regularize(provisional, rho, u)
    else
      c.(f1 := provisional.f1,
         f5 := if y != 1 then provisional.f5 else c.f5,
         f8 := if y != ny - 2 then provisional.f8 else c.f8)
  }

  /** Outlet column: the three entering populations take equilibrium plus non-equilibrium of the
      upstream neighbour; a neighbour of zero density makes them not a number. */
  function OutletCell(c: Cell, g: Cell, ny: int, y: int): Option<Cell> {
    var rho := g.Rho();
    if rho == 0.0 then None
    else
      var u, v := g.Mx() / rho, g.My() / rho;
      var e3, e6, e7 := EquilibriumAt(3, rho, u, v), EquilibriumAt(6, rho, u, v), EquilibriumAt(7, rho, u, v);
      Some(c.(f3 := e3 + (g.f3 - e3),
              f6 := if y != 1 then e6 + (g.f6 - e6) else c.f6,
              f7 := if y != ny - 2 then e7 + (g.f7 - e7) else c.f7))
  }

  /** One thread of the channel kernel. */
  function GatherWith(f: Field, edge: Field, solid: Mask, u: real, ny: int, nx: int, y: int, x: int): Option<Cell>
    requires u != 1.0
  {
    if !(0 < y < ny - 1) || solid(y, x) then Some(CellOf(f, y, x))
    else
      var c := PulledCell(f, edge, solid, ny, nx, y, x);
      if x == 0 then Some(InletCell(c, u, ny, y))
      else if x == nx - 1 then OutletCell(c, PulledCell(f, edge, solid, ny, nx, y, nx - 2), ny, y)
      else Some(c)
  }

  function Gather(f: Field, solid: Mask, u: real, ny: int, nx: int, y: int, x: int): Option<Cell>
    requires u != 1.0
  {
    GatherWith(f, f, solid, u, ny, nx, y, x)
  }

  /** Nothing read through the off-grid fallback reaches any cell, for any mask: replacing the
      fallback by any other field changes neither the values nor where they are not numbers. */
  lemma FallbackNeverSurvives(f: Field, edge: Field, edge': Field, solid: Mask, u: real, ny: int, nx: int, y: int,
                              x: int)
    requires ny >= 3 && nx >= MIN_CHANNEL_NX && u != 1.0
    requires 0 <= y < ny && 0 <= x < nx
    ensures GatherWith(f, edge, solid, u, ny, nx, y, x) == GatherWith(f, edge', solid, u, ny, nx, y, x)
  {
    if 0 < y < ny - 1 && !solid(y, x) {
      var c := PulledCell(f, edge, solid, ny, nx, y, x);
      var c' := PulledCell(f, edge', solid, ny, nx, y, x);
      if x == 0 {
        assert c.(f1 := 0.0, f5 := 0.0, f8 := 0.0) == c'.(f1 := 0.0, f5 := 0.0, f8 := 0.0);
        ZouHeExact(c, u);
        ZouHeExact(c', u);
        assert y == 1 ==> c.f5 == c'.f5;
        assert y == ny - 2 ==> c.f8 == c'.f8;
      } else if x == nx - 1 {
        assert PulledCell(f, edge, solid, ny, nx, y, nx - 2) == PulledCell(f, edge', solid, ny, nx, y, nx - 2);
      }
    }
  }

  /** Owner of one destination population. */
  function OwnerOf(ny: int, nx: int, y: int, x: int, d: int): BoundaryOwner {
    if y == 0 then LowerWall
    else if y == ny - 1 then UpperWall
    else if x == 0 && 2 <= y < ny - 2 then Inlet
    else if y == 1 && Cy(d) == 1 then LowerWall
    else if y == ny - 2 && Cy(d) == -1 then UpperWall
    else if x == 0 && Cx(d) == 1 then Inlet
    else if x == nx - 1 && Cx(d) == -1 then Outlet
    else Interior
  }

  /** What the rule of one owner writes into a population it owns. */
  function OwnedValue(owner: BoundaryOwner, f: Field, edge: Field, u: real, ny: int, nx: int, y: int, x: int,
                      d: int): real
    requires u != 1.0
  {
    match owner
    case Interior => f(y - Cy(d), x - Cx(d), d)
    case LowerWall => f(y, x, if y == 0 then d else Opposite(d))
    case UpperWall => f(y, x, if y == ny - 1 then d else Opposite(d))
    case Inlet => InletCell(PulledCell(f, edge, NoSolid, ny, nx, y, x), u, ny, y).At(d)
    case Outlet => Pull(f, edge, NoSolid, ny, nx, y, nx - 2, d)
  }

  /** Beside a wall the inlet rule writes only the links that the table gives it. */
  lemma CornerInletKeeps(c: Cell, u: real, ny: int, y: int, d: int)
    requires u != 1.0 && 0 <= d < 9 && !(1 < y < ny - 2)
    requires d != 1 && (d == 5 ==> y == 1) && (d == 8 ==> y == ny - 2)
    ensures InletCell(c, u, ny, y).At(d) == c.At(d)
  {
    hide Regularize, ZouHe;
  }

  /** The outlet rule hands each link it owns the neighbour's value and leaves the others. */
  lemma OutletCopies(c: Cell, g: Cell, ny: int, y: int, d: int)
    requires 0 <= d < 9 && OutletCell(c, g, ny, y).Some?
    ensures OutletCell(c, g, ny, y).value.At(d)
         == if d == 3 || (d == 6 && y != 1) || (d == 7 && y != ny - 2) then g.At(d) else c.At(d)
  {
    hide EquilibriumAt;
  }

  /** In an obstacle-free channel every population of the gather is the one its owner's rule
      writes, and an interior owner's source lies on the grid in an active row. */
  lemma OwnerDeterminesValue(f: Field, edge: Field, u: real, ny: int, nx: int, y: int, x: int, d: int)
    requires ny >= MIN_CHANNEL_NY && nx >= MIN_CHANNEL_NX && u != 1.0
    requires 0 <= y < ny && 0 <= x < nx && 0 <= d < 9
    requires GatherWith(f, edge, NoSolid, u, ny, nx, y, x).Some?
    ensures GatherWith(f, edge, NoSolid, u, ny, nx, y, x).value.At(d)
         == OwnedValue(OwnerOf(ny, nx, y, x, d), f, edge, u, ny, nx, y, x, d)
    ensures OwnerOf(ny, nx, y, x, d) == Interior ==>
      1 <= y - Cy(d) <= ny - 2 && 0 <= x - Cx(d) < nx
  {
    if 0 < y < ny - 1 {
      if x == 0 {
        InletColumnOwners(f, edge, u, ny, nx, y, d);
      } else if x == nx - 1 {
        OutletColumnOwners(f, edge, u, ny, nx, y, d);
      } else {
        SourceOfActiveLink(f, edge, ny, nx, y, x, d);
      }
    }
  }

  /** A link that enters no wall and leaves the grid nowhere pulls from its own source. */
  lemma SourceOfActiveLink(f: Field, edge: Field, ny: int, nx: int, y: int, x: int, d: int)
    requires 0 < y < ny - 1 && 0 <= x - Cx(d) < nx && 0 <= d < 9
    ensures PulledCell(f, edge, NoSolid, ny, nx, y, x).At(d) == Pull(f, edge, NoSolid, ny, nx, y, x, d)
    ensures Pull(f, edge, NoSolid, ny, nx, y, x, d)
         == if (y == 1 && Cy(d) == 1) || (y == ny - 2 && Cy(d) == -1) then f(y, x, Opposite(d))
            else f(y - Cy(d), x - Cx(d), d)
  {
  }

  lemma InletColumnOwners(f: Field, edge: Field, u: real, ny: int, nx: int, y: int, d: int)
    requires ny >= MIN_CHANNEL_NY && nx >= MIN_CHANNEL_NX && u != 1.0
    requires 0 < y < ny - 1 && 0 <= d < 9
    ensures InletCell(PulledCell(f, edge, NoSolid, ny, nx, y, 0), u, ny, y).At(d)
         == OwnedValue(OwnerOf(ny, nx, y, 0, d), f, edge, u, ny, nx, y, 0, d)
  {
    hide InletCell, OutletCell;
    var c := PulledCell(f, edge, NoSolid, ny, nx, y, 0);
    if OwnerOf(ny, nx, y, 0, d) != Inlet {
      CornerInletKeeps(c, u, ny, y, d);
      assert c.At(d) == Pull(f, edge, NoSolid, ny, nx, y, 0, d);
    }
  }

  lemma OutletColumnOwners(f: Field, edge: Field, u: real, ny: int, nx: int, y: int, d: int)
    requires ny >= MIN_CHANNEL_NY && nx >= MIN_CHANNEL_NX && u != 1.0
    requires 0 < y < ny - 1 && 0 <= d < 9
    requires OutletCell(PulledCell(f, edge, NoSolid, ny, nx, y, nx - 1),
                        PulledCell(f, edge, NoSolid, ny, nx, y, nx - 2), ny, y).Some?
    ensures OutletCell(PulledCell(f, edge, NoSolid, ny, nx, y, nx - 1),
                       PulledCell(f, edge, NoSolid, ny, nx, y, nx - 2), ny, y).value.At(d)
         == OwnedValue(OwnerOf(ny, nx, y, nx - 1, d), f, edge, u, ny, nx, y, nx - 1, d)
  {
    hide InletCell, OutletCell;
    var c, g := PulledCell(f, edge, NoSolid, ny, nx, y, nx - 1), PulledCell(f, edge, NoSolid, ny, nx, y, nx - 2);
    OutletCopies(c, g, ny, y, d);
    assert c.At(d) == Pull(f, edge, NoSolid, ny, nx, y, nx - 1, d);
    assert g.At(d) == Pull(f, edge, NoSolid, ny, nx, y, nx - 2, d);
  }
}
