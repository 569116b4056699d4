/** The D2Q9 lattice of the flow solver over exact reals: velocity, weight and opposite tables,
    moments, equilibrium, BGK collision, and the regularized Zou-He inlet reconstruction. */
module Lattice {
  import opened Wrappers

  /** Streamwise component of one lattice direction; any other index rests. */
  function Cx(d: int): int {
    if d == 1 || d == 5 || d == 8 then 1
    else if d == 3 || d == 6 || d == 7 then -1
    else 0
  }

  /** Cross-stream component of one lattice direction. */
  function Cy(d: int): int {
    if d == 2 || d == 5 || d == 6 then 1
    else if d == 4 || d == 7 || d == 8 then -1
    else 0
  }

  function Opposite(d: int): int {
    if d == 1 then 3
    else if d == 2 then 4
    else if d == 3 then 1
    else if d == 4 then 2
    else if d == 5 then 7
    else if d == 6 then 8
    else if d == 7 then 5
    else if d == 8 then 6
    else 0
  }

  function Weight(d: int): real {
    if d == 0 then 4.0 / 9.0
    else if 1 <= d <= 4 then 1.0 / 9.0
    else 1.0 / 36.0
  }

  /** The direction tables agree: Opposite is the involution that negates both components, and a
      direction in 0..8 is determined by its components. */
  lemma DirectionTables(d: int, e: int)
    requires 0 <= d < 9 && 0 <= e < 9
    ensures 0 <= Opposite(d) < 9 && Opposite(Opposite(d)) == d
    ensures Cx(Opposite(d)) == -Cx(d) && Cy(Opposite(d)) == -Cy(d)
    ensures Weight(Opposite(d)) == Weight(d)
    ensures Cx(d) == Cx(e) && Cy(d) == Cy(e) ==> d == e
  {
  }

  /** The nine populations of one cell. */
  datatype Cell = Cell(f0: real, f1: real, f2: real, f3: real, f4: real,
                       f5: real, f6: real, f7: real, f8: real)
  {
    function At(d: int): real {
      match d
      case 0 => f0
      case 1 => f1
      case 2 => f2
      case 3 => f3
      case 4 => f4
      case 5 => f5
      case 6 => f6
      case 7 => f7
      case _ => f8
    }

    function Rho(): real { f0 + f1 + f2 + f3 + f4 + f5 + f6 + f7 + f8 }

    /** Streamwise momentum. */
    function Mx(): real { f1 - f3 + f5 - f6 - f7 + f8 }

    /** Cross-stream momentum. */
    function My(): real { f2 - f4 + f5 + f6 - f7 - f8 }

    function Pxx(): real { f1 + f3 + f5 + f6 + f7 + f8 }

    function Pxy(): real { f5 - f6 + f7 - f8 }

    function Pyy(): real { f2 + f4 + f5 + f6 + f7 + f8 }

    function Minus(o: Cell): Cell {
      Cell(f0 - o.f0, f1 - o.f1, f2 - o.f2, f3 - o.f3, f4 - o.f4,
           f5 - o.f5, f6 - o.f6, f7 - o.f7, f8 - o.f8)
    }
  }

  /** Second-order equilibrium of one direction. */
  function Feq(weight: real, cx: real, cy: real, rho: real, u: real, v: real): real {
    var cu := cx * u + cy * v;
    weight * rho * (1.0 + 3.0 * cu + 4.5 * cu * cu - 1.5 * (u * u + v * v))
  }

  function EquilibriumAt(d: int, rho: real, u: real, v: real): real {
    Feq(Weight(d), Cx(d) as real, Cy(d) as real, rho, u, v)
  }

  function Equilibrium(rho: real, u: real, v: real): Cell {
    Cell(EquilibriumAt(0, rho, u, v), EquilibriumAt(1, rho, u, v), EquilibriumAt(2, rho, u, v),
         EquilibriumAt(3, rho, u, v), EquilibriumAt(4, rho, u, v), EquilibriumAt(5, rho, u, v),
         EquilibriumAt(6, rho, u, v), EquilibriumAt(7, rho, u, v), EquilibriumAt(8, rho, u, v))
  }

  /** The equilibrium of one direction as a linear form in density, momentum (p, q) and Euler stress. */
  function Expanded(d: int, rho: real, p: real, q: real, xx: real, xy: real, yy: real): real {
    var cx, cy := Cx(d) as real, Cy(d) as real;
    Weight(d)
    * (rho + 3.0 * (cx * p + cy * q) + 4.5 * (cx * cx * xx + 2.0 * (cx * cy) * xy + cy * cy * yy) - 1.5 * (xx + yy))
  }

  lemma EquilibriumExpanded(d: int, rho: real, u: real, v: real)
    requires 0 <= d < 9
    ensures EquilibriumAt(d, rho, u, v) == Expanded(d, rho, rho * u, rho * v, rho * u * u, rho * u * v, rho * v * v)
  {
    var cx, cy := Cx(d) as real, Cy(d) as real;
    var cu := cx * u + cy * v;
    assert rho * cu == cx * (rho * u) + cy * (rho * v);
    assert rho * cu * cu == cx * cx * (rho * u * u) + 2.0 * (cx * cy) * (rho * u * v) + cy * cy * (rho * v * v);
    Regroup(Weight(d), rho, cu, u * u + v * v);
    assert rho * (u * u + v * v) == rho * u * u + rho * v * v;
  }

  lemma Regroup(w: real, rho: real, cu: real, square: real)
    ensures w * rho * (1.0 + 3.0 * cu + 4.5 * cu * cu - 1.5 * square)
         == w * (rho + 3.0 * (rho * cu) + 4.5 * (rho * cu * cu) - 1.5 * (rho * square))
  {
    assert rho * (4.5 * cu * cu) == 4.5 * (rho * cu * cu);
    assert rho * (1.0 + 3.0 * cu + 4.5 * cu * cu - 1.5 * square)
        == rho + 3.0 * (rho * cu) + 4.5 * (rho * cu * cu) - 1.5 * (rho * square);
  }

  /** The moments of a cell given by those linear forms. */
  lemma ExpandedMoments(e: Cell, rho: real, p: real, q: real, xx: real, xy: real, yy: real)
    requires e.f0 == Expanded(0, rho, p, q, xx, xy, yy) && e.f1 == Expanded(1, rho, p, q, xx, xy, yy)
    requires e.f2 == Expanded(2, rho, p, q, xx, xy, yy) && e.f3 == Expanded(3, rho, p, q, xx, xy, yy)
    requires e.f4 == Expanded(4, rho, p, q, xx, xy, yy) && e.f5 == Expanded(5, rho, p, q, xx, xy, yy)
    requires e.f6 == Expanded(6, rho, p, q, xx, xy, yy) && e.f7 == Expanded(7, rho, p, q, xx, xy, yy)
    requires e.f8 == Expanded(8, rho, p, q, xx, xy, yy)
    ensures e.Rho() == rho && e.Mx() == p && e.My() == q
    ensures e.Pxx() == rho / 3.0 + xx && e.Pxy() == xy && e.Pyy() == rho / 3.0 + yy
  {
  }

  /** The equilibrium carries exactly the density, momentum and Euler stress it was built from. */
  lemma EquilibriumMoments(rho: real, u: real, v: real)
    ensures Equilibrium(rho, u, v).Rho() == rho
    ensures Equilibrium(rho, u, v).Mx() == rho * u
    ensures Equilibrium(rho, u, v).My() == rho * v
    ensures Equilibrium(rho, u, v).Pxx() == rho / 3.0 + rho * u * u
    ensures Equilibrium(rho, u, v).Pxy() == rho * u * v
    ensures Equilibrium(rho, u, v).Pyy() == rho / 3.0 + rho * v * v
  {
    hide EquilibriumAt, Expanded, Cell.Rho, Cell.Mx, Cell.My, Cell.Pxx, Cell.Pxy, Cell.Pyy;
    EquilibriumExpanded(0, rho, u, v);
    EquilibriumExpanded(1, rho, u, v);
    EquilibriumExpanded(2, rho, u, v);
    EquilibriumExpanded(3, rho, u, v);
    EquilibriumExpanded(4, rho, u, v);
    EquilibriumExpanded(5, rho, u, v);
    EquilibriumExpanded(6, rho, u, v);
    EquilibriumExpanded(7, rho, u, v);
    EquilibriumExpanded(8, rho, u, v);
    ExpandedMoments(Equilibrium(rho, u, v), rho, rho * u, rho * v, rho * u * u, rho * u * v, rho * v * v);
  }

  /** One relaxation step of one population towards a target. */
  function Relaxed(x: real, target: real, omega: real): real { x - omega * (x - target) }

  /** One relaxation step of every population of a cell. */
  function Relax(c: Cell, e: Cell, omega: real): Cell {
    Cell(Relaxed(c.f0, e.f0, omega), Relaxed(c.f1, e.f1, omega), Relaxed(c.f2, e.f2, omega),
         Relaxed(c.f3, e.f3, omega), Relaxed(c.f4, e.f4, omega), Relaxed(c.f5, e.f5, omega),
         Relaxed(c.f6, e.f6, omega), Relaxed(c.f7, e.f7, omega), Relaxed(c.f8, e.f8, omega))
  }

  /** BGK collision of one cell. A cell of zero density has no velocity: the kernel stores a value
      that is not a number there, which the model writes None. */
  function Collide(c: Cell, omega: real): Option<Cell> {
    var rho := c.Rho();
    if rho == 0.0 then None
    else
      var u := c.Mx() / rho;
      var v := c.My() / rho;
      Some(Relax(c, Equilibrium(rho, u, v), omega))
  }

  lemma Distribute(w: real, a0: real, a1: real, a2: real, a3: real, a4: real, a5: real, a6: real, a7: real, a8: real)
    ensures w * a0 + w * a1 + w * a2 + w * a3 + w * a4 + w * a5 + w * a6 + w * a7 + w * a8
         == w * (a0 + a1 + a2 + a3 + a4 + a5 + a6 + a7 + a8)
  {
  }

  /** Relaxation towards a cell of the same density and momentum keeps both. */
  lemma RelaxKeeps(c: Cell, e: Cell, omega: real)
    requires e.Rho() == c.Rho() && e.Mx() == c.Mx() && e.My() == c.My()
    ensures var r := Relax(c, e, omega);
      r.Rho() == c.Rho() && r.Mx() == c.Mx() && r.My() == c.My()
  {
    RelaxKeepsDensity(c, e, omega);
    RelaxKeepsMomentum(c, e, omega);
  }

  lemma RelaxKeepsDensity(c: Cell, e: Cell, omega: real)
    requires e.Rho() == c.Rho()
    ensures Relax(c, e, omega).Rho() == c.Rho()
  {
    var n := c.Minus(e);
    assert n.Rho() == 0.0;
    Distribute(omega, n.f0, n.f1, n.f2, n.f3, n.f4, n.f5, n.f6, n.f7, n.f8);
  }

  lemma RelaxKeepsMomentum(c: Cell, e: Cell, omega: real)
    requires e.Mx() == c.Mx() && e.My() == c.My()
    ensures Relax(c, e, omega).Mx() == c.Mx() && Relax(c, e, omega).My() == c.My()
  {
    var n := c.Minus(e);
    assert n.Mx() == 0.0 && n.My() == 0.0;
    Distribute(omega, 0.0, n.f1, 0.0, -n.f3, 0.0, n.f5, -n.f6, -n.f7, n.f8);
    Distribute(omega, 0.0, 0.0, n.f2, 0.0, -n.f4, n.f5, n.f6, -n.f7, -n.f8);
  }

  /** Collision keeps density and both momenta of its cell, whatever the relaxation rate. */
  lemma CollisionConserves(c: Cell, omega: real)
    ensures Collide(c, omega).Some? <==> c.Rho() != 0.0
    ensures Collide(c, omega).Some? ==>
      var r := Collide(c, omega).value;
      r.Rho() == c.Rho() && r.Mx() == c.Mx() && r.My() == c.My()
  {
    if c.Rho() != 0.0 {
      ConservedByRelaxation(c, c.Rho(), c.Mx() / c.Rho(), c.My() / c.Rho(), omega);
    }
  }

  lemma ConservedByRelaxation(c: Cell, rho: real, u: real, v: real, omega: real)
    requires rho == c.Rho() && rho * u == c.Mx() && rho * v == c.My()
    ensures var r := Relax(c, Equilibrium(rho, u, v), omega);
      r.Rho() == c.Rho() && r.Mx() == c.Mx() && r.My() == c.My()
  {
    EquilibriumMoments(rho, u, v);
    RelaxKeeps(c, Equilibrium(rho, u, v), omega);
  }

  /** The density at the inlet, from the populations that do not enter there. */
  function InletDensity(c: Cell, u: real): real
    requires u != 1.0
  {
    (c.f0 + c.f2 + c.f4 + 2.0 * (c.f3 + c.f6 + c.f7)) / (1.0 - u)
  }

  /** Zou-He reconstruction of the three populations entering through the inlet column, and the
      density it derives from the other six. */
  function ZouHe(c: Cell, u: real): (Cell, real)
    requires u != 1.0
  {
    var rho := InletDensity(c, u);
    (Reenter(c, rho, u), rho)
  }

  /** The three entering populations rebuilt for a density and velocity. */
  function Reenter(c: Cell, rho: real, u: real): Cell {
    c.(f1 := c.f3 + (2.0 / 3.0) * rho * u,
       f5 := c.f7 + 0.5 * (c.f4 - c.f2) + (1.0 / 6.0) * rho * u,
       f8 := c.f6 + 0.5 * (c.f2 - c.f4) + (1.0 / 6.0) * rho * u)
  }

  lemma TimesSplits(a: real, x: real, y: real)
    ensures a * x * y == a * (x * y)
  {
  }

  /** The entering populations for a given momentum. */
  lemma EnteringMoments(c: Cell, rho: real, p: real, r: Cell)
    requires rho - p == c.f0 + c.f2 + c.f4 + 2.0 * (c.f3 + c.f6 + c.f7)
    requires r == c.(f1 := c.f3 + (2.0 / 3.0) * p, f5 := c.f7 + 0.5 * (c.f4 - c.f2) + (1.0 / 6.0) * p,
                     f8 := c.f6 + 0.5 * (c.f2 - c.f4) + (1.0 / 6.0) * p)
    ensures r.Rho() == rho && r.Mx() == p && r.My() == 0.0
  {
  }

  lemma DensityBalances(c: Cell, u: real)
    requires u != 1.0
    ensures var rho := InletDensity(c, u); rho - rho * u == c.f0 + c.f2 + c.f4 + 2.0 * (c.f3 + c.f6 + c.f7)
  {
    var known := c.f0 + c.f2 + c.f4 + 2.0 * (c.f3 + c.f6 + c.f7);
    assert InletDensity(c, u) * (1.0 - u) == known;
  }

  /** The reconstruction reads none of what it replaces. */
  lemma ZouHeReadsKnown(c: Cell, u: real, a: real, b: real, e: real)
    requires u != 1.0
    ensures InletDensity(c.(f1 := a, f5 := b, f8 := e), u) == InletDensity(c, u)
    ensures ZouHe(c.(f1 := a, f5 := b, f8 := e), u) == ZouHe(c, u)
  {
    assert InletDensity(c.(f1 := a, f5 := b, f8 := e), u) == InletDensity(c, u);
    ReentryReadsKnown(c, InletDensity(c, u), u, a, b, e);
    hide InletDensity, Reenter;
  }

  lemma ReentryReadsKnown(c: Cell, rho: real, u: real, a: real, b: real, e: real)
    ensures Reenter(c.(f1 := a, f5 := b, f8 := e), rho, u) == Reenter(c, rho, u)
  {
  }

  /** The reconstruction meets its prescribed state exactly, and reads none of what it replaces. */
  lemma ZouHeExact(c: Cell, u: real)
    requires u != 1.0
    ensures var (r, rho) := ZouHe(c, u);
      r.Rho() == rho && r.Mx() == rho * u && r.My() == 0.0
    ensures forall a: real, b: real, e: real :: ZouHe(c.(f1 := a, f5 := b, f8 := e), u) == ZouHe(c, u)
  {
    DensityBalances(c, u);
    forall a: real, b: real, e: real ensures ZouHe(c.(f1 := a, f5 := b, f8 := e), u) == ZouHe(c, u) {
      ZouHeReadsKnown(c, u, a, b, e);
    }
    hide InletDensity;
    var (r, rho) := ZouHe(c, u);
    TimesSplits(2.0 / 3.0, rho, u);
    TimesSplits(1.0 / 6.0, rho, u);
    EnteringMoments(c, rho, rho * u, r);
  }

  function RegularizedPopulation(weight: real, cx: real, cy: real, equilibrium: real, piXx: real, piXy: real,
                                 piYy: real): real {
    equilibrium + 4.5 * weight
      * ((cx * cx - 1.0 / 3.0) * piXx + 2.0 * cx * cy * piXy + (cy * cy - 1.0 / 3.0) * piYy)
  }

  /** The regularized population of one direction from a non-equilibrium stress. */
  function RegularizedAt(d: int, rho: real, u: real, piXx: real, piXy: real, piYy: real): real {
    RegularizedPopulation(Weight(d), Cx(d) as real, Cy(d) as real,
                          EquilibriumAt(d, rho, u, 0.0), piXx, piXy, piYy)
  }

  /** All nine populations rebuilt from density, inlet velocity and non-equilibrium stress. */
  function Regularize(c: Cell, rho: real, u: real): Cell {
    var n := c.Minus(Equilibrium(rho, u, 0.0));
    var xx, xy, yy := n.Pxx(), n.Pxy(), n.Pyy();
    Cell(RegularizedAt(0, rho, u, xx, xy, yy), RegularizedAt(1, rho, u, xx, xy, yy),
         RegularizedAt(2, rho, u, xx, xy, yy), RegularizedAt(3, rho, u, xx, xy, yy),
         RegularizedAt(4, rho, u, xx, xy, yy), RegularizedAt(5, rho, u, xx, xy, yy),
         RegularizedAt(6, rho, u, xx, xy, yy), RegularizedAt(7, rho, u, xx, xy, yy),
         RegularizedAt(8, rho, u, xx, xy, yy))
  }

  /** The projection adds a stress and nothing else: its own moments below second order vanish. */
  lemma ProjectionMoments(rho: real, u: real, xx: real, xy: real, yy: real, r: Cell)
    requires forall d :: 0 <= d < 9 ==> r.At(d) == RegularizedAt(d, rho, u, xx, xy, yy)
    ensures var e := Equilibrium(rho, u, 0.0);
      && r.Rho() == e.Rho() && r.Mx() == e.Mx() && r.My() == e.My()
      && r.Pxx() == e.Pxx() + xx && r.Pxy() == e.Pxy() + xy && r.Pyy() == e.Pyy() + yy
  {
    assert r.At(0) == r.f0 && r.At(1) == r.f1 && r.At(2) == r.f2 && r.At(3) == r.f3;
    assert r.At(4) == r.f4 && r.At(5) == r.f5 && r.At(6) == r.f6 && r.At(7) == r.f7 && r.At(8) == r.f8;
  }

  /** Regularization imposes the prescribed density and momentum on any cell, keeps the cell's own
      second-order stress, and has nothing left to do when it is applied again. */
  lemma RegularizeIsProjection(c: Cell, rho: real, u: real)
    ensures var r := Regularize(c, rho, u);
      && r.Rho() == rho && r.Mx() == rho * u && r.My() == 0.0
      && r.Pxx() == c.Pxx() && r.Pxy() == c.Pxy() && r.Pyy() == c.Pyy()
      && Regularize(r, rho, u) == r
  {
    var r := Regularize(c, rho, u);
    var e := Equilibrium(rho, u, 0.0);
    var n := c.Minus(e);
    ProjectionMoments(rho, u, n.Pxx(), n.Pxy(), n.Pyy(), r);
    EquilibriumMoments(rho, u, 0.0);
    var m := r.Minus(e);
    assert m.Pxx() == n.Pxx() && m.Pxy() == n.Pxy() && m.Pyy() == n.Pyy();
  }
}
