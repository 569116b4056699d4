/** The staged pipeline and the fused kernel are the same map, and the ownership table names the
    rule that wrote each population last. */
module ChannelRefinement {
  import opened ChannelEnds
  import opened ChannelGather
  import opened ChannelStages
  import opened Kinetics
  import opened Lattice
  import opened Wrappers

  /** The field left by the roll and the wall overwrite. */
  ghost function Streamed(f: Field, ny: int, nx: int): Field
    requires ny > 0 && nx > 0
  {
    (y, x, d) => HalfwayWalls(f, ny, nx, y, x, d)
  }

  /** Away from the inlet column's entering links and the outlet column's, rolling with wall
      overwrite reads exactly what the gather reads. */
  lemma RollIsPull(f: Field, edge: Field, ny: int, nx: int, y: int, x: int, d: int)
    requires ny >= MIN_CHANNEL_NY && nx >= 1 && 0 < y < ny - 1 && 0 <= x < nx && 0 <= d < 9
    requires 0 <= x - Cx(d) < nx || (y == 1 && Cy(d) == 1) || (y == ny - 2 && Cy(d) == -1)
    ensures HalfwayWalls(f, ny, nx, y, x, d) == Pull(f, edge, NoSolid, ny, nx, y, x, d)
  {
    var sy, sx := y - Cy(d), x - Cx(d);
    if 0 < sy < ny - 1 {
      OwnRemainder(sy, ny);
      if 0 <= sx < nx {
        OwnRemainder(sx, nx);
      }
    }
  }

  lemma OwnRemainder(k: int, n: int)
    requires 0 <= k < n
    ensures k % n == k
  {
  }

  /** A cell whose nine sources all lie on the grid is pulled alike by both. */
  lemma RollIsPullCell(f: Field, edge: Field, ny: int, nx: int, y: int, x: int)
    requires ny >= MIN_CHANNEL_NY && 0 < y < ny - 1 && 0 < x < nx - 1
    ensures CellOf(Streamed(f, ny, nx), y, x) == PulledCell(f, edge, NoSolid, ny, nx, y, x)
  {
    forall d | 0 <= d < 9
      ensures HalfwayWalls(f, ny, nx, y, x, d) == Pull(f, edge, NoSolid, ny, nx, y, x, d)
    {
      RollIsPull(f, edge, ny, nx, y, x, d);
    }
  }

  lemma InletAgrees(f: Field, edge: Field, u: real, ny: int, nx: int, y: int)
    requires ny >= MIN_CHANNEL_NY && nx >= MIN_CHANNEL_NX && u != 1.0 && 0 < y < ny - 1
    ensures InletCell(CellOf(Streamed(f, ny, nx), y, 0), u, ny, y)
         == InletCell(PulledCell(f, edge, NoSolid, ny, nx, y, 0), u, ny, y)
  {
    hide Regularize;
    var c := CellOf(Streamed(f, ny, nx), y, 0);
    var c' := PulledCell(f, edge, NoSolid, ny, nx, y, 0);
    forall d | 0 <= d < 9 && (Cx(d) != 1 || (y == 1 && d == 5) || (y == ny - 2 && d == 8))
      ensures HalfwayWalls(f, ny, nx, y, 0, d) == Pull(f, edge, NoSolid, ny, nx, y, 0, d)
    {
      RollIsPull(f, edge, ny, nx, y, 0, d);
    }
    InletReadsNoEnteringLink(c, c', u, ny, y);
  }

  /** The inlet rule reads none of the links it reconstructs. */
  lemma InletReadsNoEnteringLink(c: Cell, c': Cell, u: real, ny: int, y: int)
    requires u != 1.0 && ny >= MIN_CHANNEL_NY && 0 < y < ny - 1
    requires c.(f1 := c'.f1, f5 := c'.f5, f8 := c'.f8) == c'
    requires (y == 1 ==> c.f5 == c'.f5) && (y == ny - 2 ==> c.f8 == c'.f8)
    ensures InletCell(c, u, ny, y) == InletCell(c', u, ny, y)
  {
    hide Regularize;
    ZouHeExact(c, u);
    assert ZouHe(c', u) == ZouHe(c, u);
  }

  /** In the outlet column the roll and the gather differ at most in the entering links. */
  lemma OutletColumnAgrees(f: Field, edge: Field, ny: int, nx: int, y: int)
    requires ny >= MIN_CHANNEL_NY && nx >= MIN_CHANNEL_NX && 0 < y < ny - 1
    ensures var c, c' := CellOf(Streamed(f, ny, nx), y, nx - 1), PulledCell(f, edge, NoSolid, ny, nx, y, nx - 1);
      && c.(f3 := c'.f3, f6 := c'.f6, f7 := c'.f7) == c'
      && (y == 1 ==> c.f6 == c'.f6) && (y == ny - 2 ==> c.f7 == c'.f7)
  {
    hide Pull, HalfwayWalls;
    RollIsPull(f, edge, ny, nx, y, nx - 1, 0);
    RollIsPull(f, edge, ny, nx, y, nx - 1, 1);
    RollIsPull(f, edge, ny, nx, y, nx - 1, 2);
    RollIsPull(f, edge, ny, nx, y, nx - 1, 4);
    RollIsPull(f, edge, ny, nx, y, nx - 1, 5);
    RollIsPull(f, edge, ny, nx, y, nx - 1, 8);
    if y == 1 {
      RollIsPull(f, edge, ny, nx, y, nx - 1, 6);
    }
    if y == ny - 2 {
      RollIsPull(f, edge, ny, nx, y, nx - 1, 7);
    }
  }

  lemma OutletAgrees(f: Field, edge: Field, ny: int, nx: int, y: int)
    requires ny >= MIN_CHANNEL_NY && nx >= MIN_CHANNEL_NX && 0 < y < ny - 1
    ensures var g := Streamed(f, ny, nx);
      OutletCell(CellOf(g, y, nx - 1), CellOf(g, y, nx - 2), ny, y)
      == OutletCell(PulledCell(f, edge, NoSolid, ny, nx, y, nx - 1),
                    PulledCell(f, edge, NoSolid, ny, nx, y, nx - 2), ny, y)
  {
    hide CellOf, PulledCell, OutletCell;
    RollIsPullCell(f, edge, ny, nx, y, nx - 2);
    OutletColumnAgrees(f, edge, ny, nx, y);
    OutletReadsNoEnteringLink(CellOf(Streamed(f, ny, nx), y, nx - 1), PulledCell(f, edge, NoSolid, ny, nx, y, nx - 1),
                              PulledCell(f, edge, NoSolid, ny, nx, y, nx - 2), ny, y);
  }

  /** The outlet rule overwrites every entering link that a wall does not own. */
  lemma OutletReadsNoEnteringLink(c: Cell, c': Cell, g: Cell, ny: int, y: int)
    requires c.(f3 := c'.f3, f6 := c'.f6, f7 := c'.f7) == c'
    requires (y == 1 ==> c.f6 == c'.f6) && (y == ny - 2 ==> c.f7 == c'.f7)
    ensures OutletCell(c, g, ny, y) == OutletCell(c', g, ny, y)
  {
    hide EquilibriumAt;
  }

  /** Refinement, cell by cell: roll, wall overwrite and reconstruction give what one gather gives,
      with any field whatever standing in for the gather's off-grid fallback. So neither a value
      the roll wrapped around nor a fallback survives anywhere. */
  lemma StagesRefineGather(f: Field, edge: Field, u: real, ny: int, nx: int, y: int, x: int)
    requires ny >= MIN_CHANNEL_NY && nx >= MIN_CHANNEL_NX && u != 1.0
    requires 0 <= y < ny && 0 <= x < nx
    ensures InletOutlet(Streamed(f, ny, nx), u, ny, nx, y, x) == GatherWith(f, edge, NoSolid, u, ny, nx, y, x)
  {
    hide InletCell, OutletCell, HalfwayWalls, CellOf;
    if 0 < y < ny - 1 {
      if x == 0 {
        InletAgrees(f, edge, u, ny, nx, y);
      } else if x == nx - 1 {
        OutletAgrees(f, edge, ny, nx, y);
      } else {
        RollIsPullCell(f, edge, ny, nx, y, x);
      }
    } else {
      WallRowsHeld(f, ny, nx, y, x);
    }
  }

  /** The outer rows are held. */
  lemma WallRowsHeld(f: Field, ny: int, nx: int, y: int, x: int)
    requires ny > 0 && nx > 0 && (y == 0 || y == ny - 1)
    ensures CellOf(Streamed(f, ny, nx), y, x) == CellOf(f, y, x)
  {
  }

  /** One cell of a population array. */
  ghost function NodeAt(a: array3<real>, y: int, x: int): Cell
    requires 0 <= y < a.Length0 && 0 <= x < a.Length1 && a.Length2 == 9
    reads a
  {
    Cell(a[y, x, 0], a[y, x, 1], a[y, x, 2], a[y, x, 3], a[y, x, 4], a[y, x, 5], a[y, x, 6], a[y, x, 7], a[y, x, 8])
  }

  /** The cell pulled at the inlet of an empty channel. */
  ghost function PulledAt(f: Field, ny: int, nx: int, y: int): Cell { PulledCell(f, f, NoSolid, ny, nx, y, 0) }

  /** An array that holds the gather has a driven inlet. */
  lemma ResultDriven(f: Field, a: array3<real>, u: real)
    requires u != 1.0 && a.Length0 >= MIN_CHANNEL_NY && a.Length1 >= MIN_CHANNEL_NX && a.Length2 == 9
    requires forall y, x, d :: OnGrid(a.Length0, a.Length1, y, x, d) ==>
      && Gather(f, NoSolid, u, a.Length0, a.Length1, y, x).Some?
      && a[y, x, d] == Gather(f, NoSolid, u, a.Length0, a.Length1, y, x).value.At(d)
    ensures forall y :: 0 < y < a.Length0 - 1 ==>
      InletDriven(PulledAt(f, a.Length0, a.Length1, y), NodeAt(a, y, 0), u, a.Length0, y)
  {
    hide GatherWith, InletDriven, PulledCell;
    forall y | 0 < y < a.Length0 - 1
      ensures InletDriven(PulledAt(f, a.Length0, a.Length1, y), NodeAt(a, y, 0), u, a.Length0, y)
    {
      InletFlows(f, f, NoSolid, u, a.Length0, a.Length1, y);
      var c := Gather(f, NoSolid, u, a.Length0, a.Length1, y, 0).value;
      forall d | 0 <= d < 9 ensures NodeAt(a, y, 0).At(d) == c.At(d) {
        assert OnGrid(a.Length0, a.Length1, y, 0, d);
      }
      EqualPopulations(NodeAt(a, y, 0), c);
    }
  }

  /** Channel streaming. It fails exactly on an illegal shape or inlet velocity, or when the gather
      would store something that is not a number; otherwise it returns the gather, and the rule that
      last wrote each population is the one the ownership table names. */
  method PullStreamChannel(post: array3<real>, u: real)
      returns (r: Result<array3<real>, SolverError>, ghost writers: Writers)
    ensures r.Ok? ==> 0.0 <= u <= 0.1 && post.Length0 >= 5 && post.Length1 >= 3
    ensures r.Err? ==>
      (r.error == DomainError <==> post.Length2 == 9 && post.Length0 > 0 && post.Length1 > 0
                                   && !(post.Length0 >= 5 && post.Length1 >= 3 && 0.0 <= u <= 0.1))
    ensures r.Ok? <==> (
      && post.Length2 == 9 && 0.0 <= u <= 0.1 && post.Length0 >= 5 && post.Length1 >= 3
      && forall y, x :: 0 <= y < post.Length0 && 0 <= x < post.Length1 ==>
           Gather(Snapshot(post), NoSolid, u, post.Length0, post.Length1, y, x).Some?)
    ensures r.Ok? ==> fresh(r.value) && Shaped(r.value, post.Length0, post.Length1)
    ensures r.Ok? ==> forall y, x, d :: OnGrid(post.Length0, post.Length1, y, x, d) ==>
      && r.value[y, x, d] == Gather(Snapshot(post), NoSolid, u, post.Length0, post.Length1, y, x).value.At(d)
      && writers(y, x, d) == OwnerOf(post.Length0, post.Length1, y, x, d)
    ensures r.Ok? ==> forall y :: 0 < y < post.Length0 - 1 ==>
      InletDriven(PulledAt(Snapshot(post), post.Length0, post.Length1, y), NodeAt(r.value, y, 0), u, post.Length0, y)
  {
    hide Snapshot, Gather, InletOutlet, HalfwayWalls, OutletDensity;
    var streamed;
    streamed, writers := PullStreamHalfwayWalls(post);
    if streamed.Err? {
      return Err(streamed.error), writers;
    }
    ghost var f := Snapshot(post);
    ghost var ny, nx := post.Length0, post.Length1;
    ghost var g := Streamed(f, ny, nx);
    r, writers := ApplyInletOutlet(streamed.value, u, g, writers);
    if ny >= MIN_CHANNEL_NY && nx >= MIN_CHANNEL_NX && ValidInlet(u) {
      EverywhereGather(f, u, ny, nx);
      assert f == Snapshot(post);
      if r.Ok? {
        ResultDriven(f, r.value, u);
      }
    }
  }

  lemma EverywhereGather(f: Field, u: real, ny: int, nx: int)
    requires ny >= MIN_CHANNEL_NY && nx >= MIN_CHANNEL_NX && u != 1.0
    ensures forall y, x :: 0 <= y < ny && 0 <= x < nx ==>
      InletOutlet(Streamed(f, ny, nx), u, ny, nx, y, x) == Gather(f, NoSolid, u, ny, nx, y, x)
    ensures OutletDefined(Streamed(f, ny, nx), ny, nx, ny) <==>
      forall y, x :: 0 <= y < ny && 0 <= x < nx ==> Gather(f, NoSolid, u, ny, nx, y, x).Some?
  {
    hide GatherWith, InletCell, HalfwayWalls;
    var g := Streamed(f, ny, nx);
    forall y, x | 0 <= y < ny && 0 <= x < nx
      ensures InletOutlet(g, u, ny, nx, y, x) == Gather(f, NoSolid, u, ny, nx, y, x)
      ensures InletOutlet(g, u, ny, nx, y, x).Some?
        <==> !(0 < y < ny - 1 && x == nx - 1 && OutletDensity(g, nx, y) == 0.0)
    {
      StagesRefineGather(f, f, u, ny, nx, y, x);
    }
    forall y | 0 < y < ny - 1
      ensures OutletDensity(g, nx, y) != 0.0 <==> Gather(f, NoSolid, u, ny, nx, y, nx - 1).Some?
    {
      assert InletOutlet(g, u, ny, nx, y, nx - 1) == Gather(f, NoSolid, u, ny, nx, y, nx - 1);
    }
  }
}
