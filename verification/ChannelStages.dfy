/** The staged channel pipeline over arrays: ownership table, periodic roll with half-way wall
    overwrite, then inlet and outlet reconstruction in place. Each write is logged in a ghost
    `Writers` value, so that the last writer of every population can be named. */
module ChannelStages {
  import opened ChannelGather
  import opened Lattice
  import opened Wrappers

  datatype SolverError = DomainError | NumericalStabilityError

  /** The rule that last wrote each population. */
  type Writers = (int, int, int) -> BoundaryOwner

  ghost function Wrote(w: Writers, y: int, x: int, d: int, owner: BoundaryOwner): Writers {
    (y', x', d') => if y' == y && x' == x && d' == d then owner else w(y', x', d')
  }

  predicate OnGrid(ny: int, nx: int, y: int, x: int, d: int) {
    0 <= y < ny && 0 <= x < nx && 0 <= d < 9
  }

  /** Shape of a population array. */
  predicate Shaped(a: array3<real>, ny: int, nx: int) {
    a.Length0 == ny && a.Length1 == nx && a.Length2 == 9
  }

  ghost predicate Holds(a: array3<real>, f: Field)
    reads a
  {
    a.Length2 == 9 &&
    forall y, x, d :: OnGrid(a.Length0, a.Length1, y, x, d) ==> a[y, x, d] == f(y, x, d)
  }

  /** Every population array holds some field. */
  ghost function Snapshot(a: array3<real>): (f: Field)
    requires a.Length2 == 9
    reads a
    ensures Holds(a, f)
  {
    var rows := seq(a.Length0, y requires 0 <= y < a.Length0 reads a =>
                seq(a.Length1, x requires 0 <= x < a.Length1 reads a =>
                seq(9, d requires 0 <= d < 9 reads a => a[y, x, d])));
    var ny, nx := a.Length0, a.Length1;
    (y, x, d) => if OnGrid(ny, nx, y, x, d) && y < |rows| && x < |rows[y]| && d < |rows[y][x]|
                 then rows[y][x][d] else 0.0
  }

  method ChannelBoundaryOwnership(ny: nat, nx: nat) returns (r: Result<array3<BoundaryOwner>, SolverError>)
    ensures r.Ok? <==> ny >= 5 && nx >= 3
    ensures r.Err? ==> r.error == DomainError
    ensures r.Ok? ==> fresh(r.value) && r.value.Length0 == ny && r.value.Length1 == nx && r.value.Length2 == 9
    ensures r.Ok? ==> forall y, x, d :: OnGrid(ny, nx, y, x, d) ==> r.value[y, x, d] == OwnerOf(ny, nx, y, x, d)
  {
    if ny < MIN_CHANNEL_NY || nx < MIN_CHANNEL_NX {
      return Err(DomainError);
    }
    var owners := new BoundaryOwner[ny, nx, 9]((y, x, d) => Interior);
    FillRow(owners, 0, LowerWall);
    FillRow(owners, ny - 1, UpperWall);
    for d := 0 to 9
      invariant fresh(owners)
      invariant forall y, x, e :: OnGrid(ny, nx, y, x, e) ==> owners[y, x, e] == WallTable(ny, d, y, e)
    {
      var cy := Cy(d);
      if cy == 1 {
        FillRowDirection(owners, 1, d, LowerWall);
      } else if cy == -1 {
        FillRowDirection(owners, ny - 2, d, UpperWall);
      }
    }
    for y := 2 to ny - 2
      invariant fresh(owners)
      invariant forall y', x, e :: OnGrid(ny, nx, y', x, e) ==>
        owners[y', x, e] == if 2 <= y' < y && x == 0 then Inlet else WallTable(ny, 9, y', e)
    {
      for d := 0 to 9
        invariant forall y', x, e :: OnGrid(ny, nx, y', x, e) ==>
          owners[y', x, e] == if (2 <= y' < y || (y' == y && e < d)) && x == 0 then Inlet else WallTable(ny, 9, y', e)
      {
        owners[y, 0, d] := Inlet;
      }
    }
    for d := 0 to 9
      invariant fresh(owners)
      invariant forall y, x, e :: OnGrid(ny, nx, y, x, e) ==>
        owners[y, x, e] == if e < d then OwnerOf(ny, nx, y, x, e) else InletTable(ny, y, x, e)
    {
      var cx := Cx(d);
      if cx == 1 {
        Claim(owners, 0, d, Inlet);
      } else if cx == -1 {
        Claim(owners, nx - 1, d, Outlet);
      }
    }
    r := Ok(owners);
  }

  /** Ownership once the wall links of the directions before d have been assigned. */
  function WallTable(ny: int, d: int, y: int, e: int): BoundaryOwner {
    if e < d && Cy(e) == 1 && y == 1 then LowerWall
    else if e < d && Cy(e) == -1 && y == ny - 2 then UpperWall
    else if y == 0 then LowerWall
    else if y == ny - 1 then UpperWall
    else Interior
  }

  /** Ownership once walls and the regularized inlet nodes have been assigned. */
  function InletTable(ny: int, y: int, x: int, e: int): BoundaryOwner {
    if x == 0 && 2 <= y < ny - 2 then Inlet else WallTable(ny, 9, y, e)
  }

  method FillRow(a: array3<BoundaryOwner>, y: nat, owner: BoundaryOwner)
    requires y < a.Length0
    modifies a
    ensures forall i, j, k :: 0 <= i < a.Length0 && 0 <= j < a.Length1 && 0 <= k < a.Length2 ==>
      a[i, j, k] == if i == y then owner else old(a[i, j, k])
  {
    for d := 0 to a.Length2
      invariant forall i, j, k :: 0 <= i < a.Length0 && 0 <= j < a.Length1 && 0 <= k < a.Length2 ==>
        a[i, j, k] == if i == y && k < d then owner else old(a[i, j, k])
    {
      FillRowDirection(a, y, d, owner);
    }
  }

  method FillRowDirection(a: array3<BoundaryOwner>, y: nat, d: nat, owner: BoundaryOwner)
    requires y < a.Length0 && d < a.Length2
    modifies a
    ensures forall i, j, k :: 0 <= i < a.Length0 && 0 <= j < a.Length1 && 0 <= k < a.Length2 ==>
      a[i, j, k] == if i == y && k == d then owner else old(a[i, j, k])
  {
    for x := 0 to a.Length1
      invariant forall i, j, k :: 0 <= i < a.Length0 && 0 <= j < a.Length1 && 0 <= k < a.Length2 ==>
        a[i, j, k] == if i == y && k == d && j < x then owner else old(a[i, j, k])
    {
      a[y, x, d] := owner;
    }
  }

  /** Give one direction of the active rows of a column to an owner, wherever nothing owns it yet. */
  method Claim(a: array3<BoundaryOwner>, x: nat, d: nat, owner: BoundaryOwner)
    requires a.Length0 >= 2 && x < a.Length1 && d < a.Length2
    modifies a
    ensures forall i, j, k :: 0 <= i < a.Length0 && 0 <= j < a.Length1 && 0 <= k < a.Length2 ==>
      a[i, j, k] == if 1 <= i < a.Length0 - 1 && j == x && k == d && old(a[i, j, k]) == Interior
                    then owner
                    else old(a[i, j, k])
  {
    for y := 1 to a.Length0 - 1
      invariant forall i, j, k :: 0 <= i < a.Length0 && 0 <= j < a.Length1 && 0 <= k < a.Length2 ==>
        a[i, j, k] == if 1 <= i < y && j == x && k == d && old(a[i, j, k]) == Interior then owner else old(a[i, j, k])
    {
      if a[y, x, d] == Interior {
        a[y, x, d] := owner;
      }
    }
  }

  /** Population after the periodic roll and the half-way wall overwrite. */
  function HalfwayWalls(f: Field, ny: int, nx: int, y: int, x: int, d: int): real
    requires ny > 0 && nx > 0
  {
    if y == 0 || y == ny - 1 then f(y, x, d)
    else if (y == 1 && Cy(d) == 1) || (y == ny - 2 && Cy(d) == -1) then f(y, x, Opposite(d))
    else f((y - Cy(d)) % ny, (x - Cx(d)) % nx, d)
  }

  /** Owner named by the wall stage alone. */
  function WallOwner(ny: int, y: int, d: int): BoundaryOwner {
    if y == 0 || (y == 1 && Cy(d) == 1) then LowerWall
    else if y == ny - 1 || (y == ny - 2 && Cy(d) == -1) then UpperWall
    else Interior
  }

  method PullStreamHalfwayWalls(post: array3<real>)
      returns (r: Result<array3<real>, SolverError>, ghost writers: Writers)
    ensures r.Ok? <==> post.Length2 == 9 && post.Length0 >= 5 && post.Length1 >= 1
    ensures r.Err? ==>
      r.error == if post.Length2 != 9 || post.Length0 == 0 || post.Length1 == 0
                 then NumericalStabilityError
                 else DomainError
    ensures r.Ok? ==> fresh(r.value) && Shaped(r.value, post.Length0, post.Length1)
    ensures r.Ok? ==> forall y, x, d :: OnGrid(post.Length0, post.Length1, y, x, d) ==>
      && r.value[y, x, d] == HalfwayWalls(Snapshot(post), post.Length0, post.Length1, y, x, d)
      && writers(y, x, d) == WallOwner(post.Length0, y, d)
  {
    writers := (y, x, d) => Interior;
    if post.Length2 != 9 || post.Length0 == 0 || post.Length1 == 0 {
      return Err(NumericalStabilityError), writers;
    }
    if post.Length0 < MIN_CHANNEL_NY {
      return Err(DomainError), writers;
    }
    var streamed;
    streamed, writers := StreamAllDirections(post, Snapshot(post));
    r := Ok(streamed);
  }

  method StreamAllDirections(post: array3<real>, ghost f: Field)
      returns (streamed: array3<real>, ghost writers: Writers)
    requires Holds(post, f) && post.Length0 >= MIN_CHANNEL_NY && post.Length1 >= 1
    ensures fresh(streamed) && Shaped(streamed, post.Length0, post.Length1)
    ensures forall y, x, d :: OnGrid(post.Length0, post.Length1, y, x, d) ==>
      && streamed[y, x, d] == HalfwayWalls(f, post.Length0, post.Length1, y, x, d)
      && writers(y, x, d) == WallOwner(post.Length0, y, d)
  {
    var ny, nx := post.Length0, post.Length1;
    writers := (y, x, d) => Interior;
    streamed := new real[ny, nx, 9];
    for d := 0 to 9
      invariant fresh(streamed) && Holds(post, f)
      invariant forall y, x, e :: OnGrid(ny, nx, y, x, e) && e < d ==>
        && streamed[y, x, e] == RolledWithWalls(f, ny, nx, y, x, e)
        && writers(y, x, e) == RolledOwner(ny, y, e)
    {
      writers := StreamDirection(post, streamed, d, f, writers);
    }
    writers := HoldRow(post, streamed, 0, f, LowerWall, writers);
    writers := HoldRow(post, streamed, ny - 1, f, UpperWall, writers);
  }

  method StreamDirection(post: array3<real>, streamed: array3<real>, d: nat, ghost f: Field, ghost before: Writers)
      returns (ghost writers: Writers)
    requires d < 9 && post != streamed && Holds(post, f) && post.Length0 >= MIN_CHANNEL_NY && post.Length1 > 0
    requires Shaped(streamed, post.Length0, post.Length1)
    modifies streamed
    ensures forall y, x, e :: OnGrid(post.Length0, post.Length1, y, x, e) ==>
      && streamed[y, x, e] == (if e == d
                               then RolledWithWalls(f, post.Length0, post.Length1, y, x, d)
                               else old(streamed[y, x, e]))
      && writers(y, x, e) == (if e == d then RolledOwner(post.Length0, y, d) else before(y, x, e))
  {
    var ny := post.Length0;
    writers := Roll(post, streamed, d, f, before);
    var cy := Cy(d);
    if cy == 1 {
      writers := BounceRow(post, streamed, 1, d, f, LowerWall, writers);
    } else if cy == -1 {
      writers := BounceRow(post, streamed, ny - 2, d, f, UpperWall, writers);
    }
  }

  function RolledOwner(ny: int, y: int, d: int): BoundaryOwner {
    if y == 1 && Cy(d) == 1 then LowerWall
    else if y == ny - 2 && Cy(d) == -1 then UpperWall
    else Interior
  }

  /** Population after the roll and wall overwrite, before the outer rows are held. */
  function RolledWithWalls(f: Field, ny: int, nx: int, y: int, x: int, d: int): real
    requires ny > 0 && nx > 0
  {
    if (y == 1 && Cy(d) == 1) || (y == ny - 2 && Cy(d) == -1) then f(y, x, Opposite(d))
    else f((y - Cy(d)) % ny, (x - Cx(d)) % nx, d)
  }

  method Roll(post: array3<real>, streamed: array3<real>, d: nat, ghost f: Field, ghost before: Writers)
      returns (ghost writers: Writers)
    requires d < 9 && post != streamed && Holds(post, f) && post.Length0 > 0 && post.Length1 > 0
    requires Shaped(streamed, post.Length0, post.Length1)
    modifies streamed
    ensures forall y, x, e :: OnGrid(post.Length0, post.Length1, y, x, e) ==>
      && streamed[y, x, e] == (if e == d
                               then f((y - Cy(d)) % post.Length0, (x - Cx(d)) % post.Length1, d)
                               else old(streamed[y, x, e]))
      && writers(y, x, e) == (if e == d then Interior else before(y, x, e))
  {
    var ny, nx := post.Length0, post.Length1;
    writers := before;
    for y := 0 to ny
      invariant Holds(post, f)
      invariant forall y', x', e :: OnGrid(ny, nx, y', x', e) ==>
        && streamed[y', x', e] == (if e == d && y' < y
                                   then f((y' - Cy(d)) % ny, (x' - Cx(d)) % nx, d)
                                   else old(streamed[y', x', e]))
        && writers(y', x', e) == (if e == d && y' < y then Interior else before(y', x', e))
    {
      for x := 0 to nx
        invariant Holds(post, f)
        invariant forall y', x', e :: OnGrid(ny, nx, y', x', e) ==>
          && streamed[y', x', e] == (if e == d && (y' < y || (y' == y && x' < x))
                                     then f((y' - Cy(d)) % ny, (x' - Cx(d)) % nx, d)
                                     else old(streamed[y', x', e]))
          && writers(y', x', e) == (if e == d && (y' < y || (y' == y && x' < x)) then Interior else before(y', x', e))
      {
        var sy, sx := (y - Cy(d)) % ny, (x - Cx(d)) % nx;
        assert OnGrid(ny, nx, sy, sx, d);
        streamed[y, x, d] := post[sy, sx, d];
        writers := Wrote(writers, y, x, d, Interior);
      }
    }
  }

  method BounceRow(post: array3<real>, streamed: array3<real>, y: nat, d: nat, ghost f: Field,
                   ghost owner: BoundaryOwner, ghost before: Writers)
      returns (ghost writers: Writers)
    requires d < 9 && post != streamed && Holds(post, f) && y < post.Length0
    requires Shaped(streamed, post.Length0, post.Length1)
    modifies streamed
    ensures forall i, j, k :: OnGrid(post.Length0, post.Length1, i, j, k) ==>
      && streamed[i, j, k] == (if i == y && k == d then f(y, j, Opposite(d)) else old(streamed[i, j, k]))
      && writers(i, j, k) == (if i == y && k == d then owner else before(i, j, k))
  {
    var nx := post.Length1;
    writers := before;
    for x := 0 to nx
      invariant Holds(post, f)
      invariant forall i, j, k :: OnGrid(post.Length0, nx, i, j, k) ==>
        && streamed[i, j, k] == (if i == y && k == d && j < x then f(y, j, Opposite(d)) else old(streamed[i, j, k]))
        && writers(i, j, k) == (if i == y && k == d && j < x then owner else before(i, j, k))
    {
      assert OnGrid(post.Length0, nx, y, x, Opposite(d));
      streamed[y, x, d] := post[y, x, Opposite(d)];
      writers := Wrote(writers, y, x, d, owner);
    }
  }

  method HoldRow(post: array3<real>, streamed: array3<real>, y: nat, ghost f: Field, ghost owner: BoundaryOwner,
                 ghost before: Writers)
      returns (ghost writers: Writers)
    requires post != streamed && Holds(post, f) && y < post.Length0
    requires Shaped(streamed, post.Length0, post.Length1)
    modifies streamed
    ensures forall i, j, k :: OnGrid(post.Length0, post.Length1, i, j, k) ==>
      && streamed[i, j, k] == (if i == y then f(y, j, k) else old(streamed[i, j, k]))
      && writers(i, j, k) == (if i == y then owner else before(i, j, k))
  {
    var ny, nx := post.Length0, post.Length1;
    writers := before;
    for x := 0 to nx
      invariant Holds(post, f)
      invariant forall i, j, k :: OnGrid(ny, nx, i, j, k) ==>
        && streamed[i, j, k] == (if i == y && j < x then f(y, j, k) else old(streamed[i, j, k]))
        && writers(i, j, k) == (if i == y && j < x then owner else before(i, j, k))
    {
      for d := 0 to 9
        invariant Holds(post, f)
        invariant forall i, j, k :: OnGrid(ny, nx, i, j, k) ==>
          && streamed[i, j, k] == (if i == y && (j < x || (j == x && k < d))
                                   then f(y, j, k)
                                   else old(streamed[i, j, k]))
          && writers(i, j, k) == (if i == y && (j < x || (j == x && k < d)) then owner else before(i, j, k))
      {
        assert OnGrid(ny, nx, y, x, d);
        streamed[y, x, d] := post[y, x, d];
        writers := Wrote(writers, y, x, d, owner);
      }
    }
  }

  /** Non-equilibrium stress accumulated over the directions before d. */
  function Upto(k: int, d: int, v: real): real { if k < d then v else 0.0 }

  method RegularizeNode(populations: Cell, rho: real, u: real) returns (result: array<real>)
    ensures fresh(result) && result.Length == 9
    ensures forall d :: 0 <= d < 9 ==> result[d] == Regularize(populations, rho, u).At(d)
  {
    var equilibrium := new real[9];
    for d := 0 to 9
      invariant forall e :: 0 <= e < d ==> equilibrium[e] == EquilibriumAt(e, rho, u, 0.0)
    {
      equilibrium[d] := EquilibriumAt(d, rho, u, 0.0);
    }
    ghost var n := populations.Minus(Equilibrium(rho, u, 0.0));
    var piXx, piXy, piYy := 0.0, 0.0, 0.0;
    for d := 0 to 9
      invariant forall e :: 0 <= e < 9 ==> equilibrium[e] == EquilibriumAt(e, rho, u, 0.0)
      invariant piXx == Upto(1, d, n.f1) + Upto(3, d, n.f3) + Upto(5, d, n.f5) + Upto(6, d, n.f6) + Upto(7, d, n.f7)
        + Upto(8, d, n.f8)
      invariant piXy == Upto(5, d, n.f5) - Upto(6, d, n.f6) + Upto(7, d, n.f7) - Upto(8, d, n.f8)
      invariant piYy == Upto(2, d, n.f2) + Upto(4, d, n.f4) + Upto(5, d, n.f5) + Upto(6, d, n.f6) + Upto(7, d, n.f7)
        + Upto(8, d, n.f8)
    {
      var m := populations.At(d) - equilibrium[d];
      assert m == n.At(d);
      piXx, piXy, piYy := Accumulate(d, m, piXx, piXy, piYy);
    }
    result := new real[9];
    for d := 0 to 9
      invariant forall e :: 0 <= e < 9 ==> equilibrium[e] == EquilibriumAt(e, rho, u, 0.0)
      invariant forall e :: 0 <= e < d ==> result[e] == RegularizedAt(e, rho, u, piXx, piXy, piYy)
    {
      result[d] := RegularizedPopulation(Weight(d), Cx(d) as real, Cy(d) as real, equilibrium[d], piXx, piXy, piYy);
    }
    assert piXx == n.Pxx() && piXy == n.Pxy() && piYy == n.Pyy();
  }

  method Accumulate(d: nat, m: real, xx: real, xy: real, yy: real) returns (xx': real, xy': real, yy': real)
    requires d < 9
    ensures xx' == xx + if Cx(d) == 0 then 0.0 else m
    ensures yy' == yy + if Cy(d) == 0 then 0.0 else m
    ensures xy' == xy + if Cx(d) * Cy(d) == 0 then 0.0 else if Cx(d) == Cy(d) then m else -m
  {
    var cx, cy := Cx(d) as real, Cy(d) as real;
    xx', xy', yy' := xx + cx * cx * m, xy + cx * cy * m, yy + cy * cy * m;
  }

  /** One cell after the inlet and outlet stage. */
  function InletOutlet(g: Field, u: real, ny: int, nx: int, y: int, x: int): Option<Cell>
    requires u != 1.0
  {
    if !(0 < y < ny - 1) then Some(CellOf(g, y, x))
    else if x == 0 then Some(InletCell(CellOf(g, y, 0), u, ny, y))
    else if x == nx - 1 then OutletCell(CellOf(g, y, nx - 1), CellOf(g, y, nx - 2), ny, y)
    else Some(CellOf(g, y, x))
  }

  /** Density of the cell upstream of the outlet. */
  function OutletDensity(g: Field, nx: int, y: int): real { CellOf(g, y, nx - 2).Rho() }

  /** Whether every cell the stage rebuilds is finite. */
  ghost predicate OutletDefined(g: Field, ny: int, nx: int, rows: int) {
    forall y :: 0 < y < rows && y < ny - 1 ==> OutletDensity(g, nx, y) != 0.0
  }

  /** Owner after the inlet and outlet stage, given the owner before it. */
  function ReconstructionOwner(ny: int, nx: int, y: int, x: int, d: int, before: BoundaryOwner): BoundaryOwner {
    if !(0 < y < ny - 1) then before
    else if x == 0 && (1 < y < ny - 2 || d == 1 || (d == 5 && y != 1) || (d == 8 && y != ny - 2)) then Inlet
    else if x == nx - 1 && (d == 3 || (d == 6 && y != 1) || (d == 7 && y != ny - 2)) then Outlet
    else before
  }

  /** The cells after the stage, as a function of position. */
  ghost function Rebuilt(g: Field, u: real, ny: int, nx: int): (int, int) -> Option<Cell>
    requires u != 1.0
  {
    (y, x) => InletOutlet(g, u, ny, nx, y, x)
  }

  /** Contents of the result when the rows before `row` have become the given cells. */
  ghost predicate RowsRebuilt(result: array3<real>, g: Field, cells: (int, int) -> Option<Cell>, row: int, ok: bool,
                              writers: Writers, before: Writers)
    reads result
  {
    var ny, nx := result.Length0, result.Length1;
    && result.Length2 == 9
    && (ok <==> OutletDefined(g, ny, nx, row))
    && forall y, x, d :: OnGrid(ny, nx, y, x, d) ==>
         if y >= row then result[y, x, d] == g(y, x, d) && writers(y, x, d) == before(y, x, d)
         else
           && (cells(y, x).Some? ==> result[y, x, d] == cells(y, x).value.At(d))
           && writers(y, x, d) == ReconstructionOwner(ny, nx, y, x, d, before(y, x, d))
  }

  method ApplyInletOutlet(streamed: array3<real>, u: real, ghost g: Field, ghost before: Writers)
      returns (r: Result<array3<real>, SolverError>, ghost writers: Writers)
    requires Holds(streamed, g)
    ensures r.Ok? <==> streamed.Length0 >= MIN_CHANNEL_NY && streamed.Length1 >= MIN_CHANNEL_NX && ValidInlet(u)
                       && OutletDefined(g, streamed.Length0, streamed.Length1, streamed.Length0)
    ensures r.Err? ==>
      (r.error == DomainError <==> streamed.Length0 > 0 && streamed.Length1 > 0
                                   && !(streamed.Length0 >= 5 && streamed.Length1 >= 3 && 0.0 <= u <= 0.1))
    ensures r.Ok? ==> fresh(r.value) && Shaped(r.value, streamed.Length0, streamed.Length1)
    ensures r.Ok? ==> forall y, x, d :: OnGrid(streamed.Length0, streamed.Length1, y, x, d) ==>
      && InletOutlet(g, u, streamed.Length0, streamed.Length1, y, x).Some?
      && r.value[y, x, d] == InletOutlet(g, u, streamed.Length0, streamed.Length1, y, x).value.At(d)
      && writers(y, x, d) == ReconstructionOwner(streamed.Length0, streamed.Length1, y, x, d, before(y, x, d))
  {
    writers := before;
    var ny, nx := streamed.Length0, streamed.Length1;
    if ny == 0 || nx == 0 {
      return Err(NumericalStabilityError), writers;
    }
    if ny < MIN_CHANNEL_NY || nx < MIN_CHANNEL_NX || !(0.0 <= u <= MAX_INLET_VELOCITY_LU) {
      return Err(DomainError), writers;
    }
    var result := new real[ny, nx, 9]((y, x, d) requires OnGrid(ny, nx, y, x, d) reads streamed => streamed[y, x, d]);
    ghost var cells := Rebuilt(g, u, ny, nx);
    OuterRowsUnchanged(g, u, ny, nx);
    var finite := true;
    for y := 1 to ny - 1
      invariant fresh(result) && Shaped(result, ny, nx)
      invariant RowsRebuilt(result, g, cells, y, finite, writers, before)
    {
      var ok;
      ok, writers := RebuildRow(result, u, y, g, cells, finite, writers, before);
      finite := finite && ok;
    }
    if !finite {
      return Err(NumericalStabilityError), writers;
    }
    AllRebuilt(result, g, u, writers, before);
    r := Ok(result);
  }

  lemma OuterRowsUnchanged(g: Field, u: real, ny: int, nx: int)
    requires u != 1.0
    ensures forall y, x, d :: OnGrid(ny, nx, y, x, d) && !(0 < y < ny - 1) ==>
      Rebuilt(g, u, ny, nx)(y, x).Some? && Rebuilt(g, u, ny, nx)(y, x).value.At(d) == g(y, x, d)
  {
    forall y, x, d | OnGrid(ny, nx, y, x, d) && !(0 < y < ny - 1)
      ensures Rebuilt(g, u, ny, nx)(y, x).Some? && Rebuilt(g, u, ny, nx)(y, x).value.At(d) == g(y, x, d)
    {
      assert Rebuilt(g, u, ny, nx)(y, x) == Some(CellOf(g, y, x));
    }
  }

  lemma AllRebuilt(result: array3<real>, g: Field, u: real, writers: Writers, before: Writers)
    requires u != 1.0 && result.Length0 >= MIN_CHANNEL_NY && result.Length1 >= MIN_CHANNEL_NX
    requires RowsRebuilt(result, g, Rebuilt(g, u, result.Length0, result.Length1), result.Length0 - 1, true,
                         writers, before)
    ensures OutletDefined(g, result.Length0, result.Length1, result.Length0)
    ensures forall y, x, d :: OnGrid(result.Length0, result.Length1, y, x, d) ==>
      && InletOutlet(g, u, result.Length0, result.Length1, y, x).Some?
      && result[y, x, d] == InletOutlet(g, u, result.Length0, result.Length1, y, x).value.At(d)
      && writers(y, x, d) == ReconstructionOwner(result.Length0, result.Length1, y, x, d, before(y, x, d))
  {
    var ny, nx := result.Length0, result.Length1;
    var cells := Rebuilt(g, u, ny, nx);
    OuterRowsUnchanged(g, u, ny, nx);
    forall y, x | 0 <= y < ny && 0 <= x < nx
      ensures cells(y, x).Some? && cells(y, x) == InletOutlet(g, u, ny, nx, y, x)
    {
      if 0 < y < ny - 1 {
        assert OutletDensity(g, nx, y) != 0.0;
      }
    }
  }

  /** Rebuild the inlet and outlet cells of one active row. The flag says whether every value
      written is a number. */
  method RebuildRow(result: array3<real>, u: real, y: nat, ghost g: Field, ghost cells: (int, int) -> Option<Cell>,
                    ghost okSoFar: bool, ghost soFar: Writers, ghost before: Writers)
      returns (ok: bool, ghost writers: Writers)
    requires ValidInlet(u)
    requires result.Length0 >= MIN_CHANNEL_NY && result.Length1 >= MIN_CHANNEL_NX && 0 < y < result.Length0 - 1
    requires cells == Rebuilt(g, u, result.Length0, result.Length1)
    requires RowsRebuilt(result, g, cells, y, okSoFar, soFar, before)
    modifies result
    ensures RowsRebuilt(result, g, cells, y + 1, okSoFar && ok, writers, before)
  {
    hide InletCell, OutletCell, OutletDensity, CellOf, Rebuilt;
    var ny, nx := result.Length0, result.Length1;
    ghost var inlet := InletCell(CellOf(g, y, 0), u, ny, y);
    ghost var outlet := OutletCell(CellOf(g, y, nx - 1), CellOf(g, y, nx - 2), ny, y);
    RowCells(g, u, ny, nx, y, inlet, outlet);
    writers := RebuildInlet(result, u, y, g, inlet, soFar);
    ok, writers := RebuildOutlet(result, y, g, outlet, writers);
    assert OutletDefined(g, ny, nx, y + 1) <==> OutletDefined(g, ny, nx, y) && OutletDensity(g, nx, y) != 0.0;
  }

  lemma RowCells(g: Field, u: real, ny: int, nx: int, y: int, inlet: Cell, outlet: Option<Cell>)
    requires u != 1.0 && 0 < y < ny - 1 && nx >= MIN_CHANNEL_NX
    requires inlet == InletCell(CellOf(g, y, 0), u, ny, y)
    requires outlet == OutletCell(CellOf(g, y, nx - 1), CellOf(g, y, nx - 2), ny, y)
    ensures var cells := Rebuilt(g, u, ny, nx);
      && cells(y, 0) == Some(inlet) && cells(y, nx - 1) == outlet
      && forall x, d :: OnGrid(ny, nx, y, x, d) && 0 < x < nx - 1 ==>
        cells(y, x).Some? && cells(y, x).value.At(d) == g(y, x, d)
  {
    forall x, d | OnGrid(ny, nx, y, x, d) && 0 < x < nx - 1
      ensures Rebuilt(g, u, ny, nx)(y, x).Some? && Rebuilt(g, u, ny, nx)(y, x).value.At(d) == g(y, x, d)
    {
      assert Rebuilt(g, u, ny, nx)(y, x) == Some(CellOf(g, y, x));
    }
  }

  method RebuildInlet(result: array3<real>, u: real, y: nat, ghost g: Field, ghost inlet: Cell, ghost before: Writers)
      returns (ghost writers: Writers)
    requires ValidInlet(u) && result.Length2 == 9
    requires result.Length0 >= MIN_CHANNEL_NY && result.Length1 >= MIN_CHANNEL_NX && 0 < y < result.Length0 - 1
    requires forall d :: 0 <= d < 9 ==> result[y, 0, d] == g(y, 0, d)
    requires inlet == InletCell(CellOf(g, y, 0), u, result.Length0, y)
    modifies result
    ensures forall i, j, k :: OnGrid(result.Length0, result.Length1, i, j, k) ==>
      && result[i, j, k] == (if i == y && j == 0 then inlet.At(k) else old(result[i, j, k]))
      && writers(i, j, k) == (if i == y && j == 0
                              then ReconstructionOwner(result.Length0, result.Length1, y, 0, k, before(i, j, k))
                              else before(i, j, k))
  {
    var ny := result.Length0;
    var node := ReadNode(result, y, 0, g);
    var (provisional, rho) := ZouHe(node, u);
    if 1 < y < ny - 2 {
      var regular := RegularizeNode(provisional, rho, u);
      writers := WriteNode(result, y, 0, regular, inlet, before);
    } else {
      CornerInlet(node, u, ny, y, provisional);
      writers := WriteCorner(result, y, provisional, inlet, node, before);
    }
  }

  method ReadNode(a: array3<real>, y: nat, x: nat, ghost g: Field) returns (c: Cell)
    requires y < a.Length0 && x < a.Length1 && a.Length2 == 9
    requires forall d :: 0 <= d < 9 ==> a[y, x, d] == g(y, x, d)
    ensures c == CellOf(g, y, x)
  {
    c := Cell(a[y, x, 0], a[y, x, 1], a[y, x, 2], a[y, x, 3], a[y, x, 4],
              a[y, x, 5], a[y, x, 6], a[y, x, 7], a[y, x, 8]);
  }

  method WriteNode(result: array3<real>, y: nat, x: nat, values: array<real>, ghost c: Cell, ghost before: Writers)
      returns (ghost writers: Writers)
    requires y < result.Length0 && x < result.Length1 && result.Length2 == 9
    requires values.Length == 9 && forall d :: 0 <= d < 9 ==> values[d] == c.At(d)
    modifies result
    ensures forall i, j, k :: OnGrid(result.Length0, result.Length1, i, j, k) ==>
      && result[i, j, k] == (if i == y && j == x then c.At(k) else old(result[i, j, k]))
      && writers(i, j, k) == (if i == y && j == x then Inlet else before(i, j, k))
  {
    writers := before;
    for d := 0 to 9
      invariant forall e :: 0 <= e < 9 ==> values[e] == c.At(e)
      invariant forall i, j, k :: OnGrid(result.Length0, result.Length1, i, j, k) ==>
        && result[i, j, k] == (if i == y && j == x && k < d then c.At(k) else old(result[i, j, k]))
        && writers(i, j, k) == (if i == y && j == x && k < d then Inlet else before(i, j, k))
    {
      result[y, x, d] := values[d];
      writers := Wrote(writers, y, x, d, Inlet);
    }
  }

  /** What an inlet node beside a wall takes from the provisional reconstruction. */
  ghost predicate IsCornerInlet(inlet: Cell, node: Cell, p: Cell, ny: int, y: int) {
    inlet == node.(f1 := p.f1, f5 := if y != 1 then p.f5 else node.f5, f8 := if y != ny - 2 then p.f8 else node.f8)
  }

  lemma CornerInlet(c: Cell, u: real, ny: int, y: int, p: Cell)
    requires u != 1.0 && !(1 < y < ny - 2) && p == ZouHe(c, u).0
    ensures IsCornerInlet(InletCell(c, u, ny, y), c, p, ny, y)
  {
  }

  method WriteCorner(result: array3<real>, y: nat, p: Cell, ghost inlet: Cell, ghost node: Cell,
                     ghost before: Writers)
      returns (ghost writers: Writers)
    requires result.Length2 == 9 && result.Length1 >= MIN_CHANNEL_NX && 0 < y < result.Length0 - 1
    requires !(1 < y < result.Length0 - 2) && IsCornerInlet(inlet, node, p, result.Length0, y)
    requires forall d :: 0 <= d < 9 ==> result[y, 0, d] == node.At(d)
    modifies result
    ensures forall i, j, k :: OnGrid(result.Length0, result.Length1, i, j, k) ==>
      && result[i, j, k] == (if i == y && j == 0 then inlet.At(k) else old(result[i, j, k]))
      && writers(i, j, k) == (if i == y && j == 0
                              then ReconstructionOwner(result.Length0, result.Length1, y, 0, k, before(i, j, k))
                              else before(i, j, k))
  {
    var ny := result.Length0;
    result[y, 0, 1] := p.f1;
    writers := Wrote(before, y, 0, 1, Inlet);
    if y != 1 {
      result[y, 0, 5] := p.f5;
      writers := Wrote(writers, y, 0, 5, Inlet);
    }
    if y != ny - 2 {
      result[y, 0, 8] := p.f8;
      writers := Wrote(writers, y, 0, 8, Inlet);
    }
  }

  method RebuildOutlet(result: array3<real>, y: nat, ghost g: Field, ghost outlet: Option<Cell>,
                       ghost before: Writers)
      returns (ok: bool, ghost writers: Writers)
    requires result.Length2 == 9
    requires result.Length0 >= MIN_CHANNEL_NY && result.Length1 >= MIN_CHANNEL_NX && 0 < y < result.Length0 - 1
    requires forall x, d :: 1 <= x < result.Length1 && 0 <= d < 9 ==> result[y, x, d] == g(y, x, d)
    requires outlet == OutletCell(CellOf(g, y, result.Length1 - 1), CellOf(g, y, result.Length1 - 2), result.Length0, y)
    modifies result
    ensures ok <==> OutletDensity(g, result.Length1, y) != 0.0
    ensures ok <==> outlet.Some?
    ensures forall i, j, k :: OnGrid(result.Length0, result.Length1, i, j, k) ==>
      && (if i == y && j == result.Length1 - 1 then ok ==> result[i, j, k] == outlet.value.At(k)
          else result[i, j, k] == old(result[i, j, k]))
      && writers(i, j, k) == (if i == y && j == result.Length1 - 1
                              then ReconstructionOwner(result.Length0, result.Length1, y, j, k, before(i, j, k))
                              else before(i, j, k))
  {
    hide OutletCell, ReconstructionOwner, OutletNode, Cell.Rho, CellOf, Cell.At;
    var nx := result.Length1;
    var neighbor := ReadNode(result, y, nx - 2, g);
    ghost var node := CellOf(g, y, nx - 1);
    forall d | 0 <= d < 9 ensures node.At(d) == g(y, nx - 1, d) {
      CellOfAt(g, y, nx - 1, d);
    }
    var v3, v6, v7;
    ok, v3, v6, v7 := Reconstruct(neighbor, node, result.Length0, y);
    writers := WriteOutlet(result, y, v3, v6, v7, node, before);
  }

  /** Equilibrium plus non-equilibrium of the upstream neighbour, for the three entering directions. */
  method Reconstruct(neighbor: Cell, ghost node: Cell, ghost ny: int, ghost y: int)
      returns (ok: bool, v3: real, v6: real, v7: real)
    ensures ok <==> neighbor.Rho() != 0.0
    ensures OutletCell(node, neighbor, ny, y) == if ok then Some(OutletNode(node, v3, v6, v7, ny, y)) else None
  {
    var rho := neighbor.Rho();
    ok := rho != 0.0;
    var u := if ok then neighbor.Mx() / rho else 0.0;
    var v := if ok then neighbor.My() / rho else 0.0;
    var e3, e6, e7 := EquilibriumAt(3, rho, u, v), EquilibriumAt(6, rho, u, v), EquilibriumAt(7, rho, u, v);
    v3, v6, v7 := e3 + (neighbor.f3 - e3), e6 + (neighbor.f6 - e6), e7 + (neighbor.f7 - e7);
  }

  /** An outlet node whose entering populations take the given values, wall links excepted. */
  ghost function OutletNode(c: Cell, v3: real, v6: real, v7: real, ny: int, y: int): Cell {
    c.(f3 := v3, f6 := if y != 1 then v6 else c.f6, f7 := if y != ny - 2 then v7 else c.f7)
  }

  method WriteOutlet(result: array3<real>, y: nat, v3: real, v6: real, v7: real, ghost node: Cell,
                     ghost before: Writers)
      returns (ghost writers: Writers)
    requires result.Length2 == 9 && result.Length1 >= MIN_CHANNEL_NX && 0 < y < result.Length0 - 1
    requires forall d :: 0 <= d < 9 ==> result[y, result.Length1 - 1, d] == node.At(d)
    modifies result
    ensures forall i, j, k :: OnGrid(result.Length0, result.Length1, i, j, k) ==>
      && result[i, j, k] == (if i == y && j == result.Length1 - 1
                             then OutletNode(node, v3, v6, v7, result.Length0, y).At(k)
                             else old(result[i, j, k]))
      && writers(i, j, k) == (if i == y && j == result.Length1 - 1
                              then ReconstructionOwner(result.Length0, result.Length1, y, j, k, before(i, j, k))
                              else before(i, j, k))
  {
    var ny, nx := result.Length0, result.Length1;
    ghost var c := OutletNode(node, v3, v6, v7, ny, y);
    assert forall k :: 0 <= k < 9 ==>
      c.At(k) == (if k == 3 then v3
                  else if k == 6 && y != 1 then v6
                  else if k == 7 && y != ny - 2 then v7
                  else node.At(k));
    result[y, nx - 1, 3] := v3;
    writers := Wrote(before, y, nx - 1, 3, Outlet);
    if y != 1 {
      result[y, nx - 1, 6] := v6;
      writers := Wrote(writers, y, nx - 1, 6, Outlet);
    }
    if y != ny - 2 {
      result[y, nx - 1, 7] := v7;
      writers := Wrote(writers, y, nx - 1, 7, Outlet);
    }
  }
}
