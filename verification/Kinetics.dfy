/** What collision and regularization do to a cell, told by its nine moments. The moments determine the cell, so the
    equilibrium and the regularized cell are the only ones with theirs. */
module Kinetics {
  import opened Lattice
  import opened Wrappers

  /** The three moments above second order. */
  function ThirdX(c: Cell): real { c.f3 - c.f1 + 2.0 * (c.f5 - c.f6 - c.f7 + c.f8) }

  function ThirdY(c: Cell): real { c.f4 - c.f2 + 2.0 * (c.f5 + c.f6 - c.f7 - c.f8) }

  function Fourth(c: Cell): real { c.f0 - 2.0 * (c.f1 + c.f2 + c.f3 + c.f4) + 4.0 * (c.f5 + c.f6 + c.f7 + c.f8) }

  /** Cells of equal moments are equal. */
  lemma MomentsDetermine(a: Cell, b: Cell)
    requires a.Rho() == b.Rho() && a.Mx() == b.Mx() && a.My() == b.My()
    requires a.Pxx() == b.Pxx() && a.Pxy() == b.Pxy() && a.Pyy() == b.Pyy()
    requires ThirdX(a) == ThirdX(b) && ThirdY(a) == ThirdY(b) && Fourth(a) == Fourth(b)
    ensures a == b
  {
  }

  /** A cell of given density, momentum and second-order stress, and nothing above. */
  ghost predicate HasState(c: Cell, rho: real, mx: real, my: real, pxx: real, pxy: real, pyy: real) {
    && c.Rho() == rho && c.Mx() == mx && c.My() == my
    && c.Pxx() == pxx && c.Pxy() == pxy && c.Pyy() == pyy
    && ThirdX(c) == 0.0 && ThirdY(c) == 0.0 && Fourth(c) == 0.0
  }

  lemma ExpandedHigher(e: Cell, rho: real, p: real, q: real, xx: real, xy: real, yy: real)
    requires e.f0 == Expanded(0, rho, p, q, xx, xy, yy) && e.f1 == Expanded(1, rho, p, q, xx, xy, yy)
    requires e.f2 == Expanded(2, rho, p, q, xx, xy, yy) && e.f3 == Expanded(3, rho, p, q, xx, xy, yy)
    requires e.f4 == Expanded(4, rho, p, q, xx, xy, yy) && e.f5 == Expanded(5, rho, p, q, xx, xy, yy)
    requires e.f6 == Expanded(6, rho, p, q, xx, xy, yy) && e.f7 == Expanded(7, rho, p, q, xx, xy, yy)
    requires e.f8 == Expanded(8, rho, p, q, xx, xy, yy)
    ensures ThirdX(e) == 0.0 && ThirdY(e) == 0.0 && Fourth(e) == 0.0
  {
  }

  /** The equilibrium is the one cell with its density, momentum and Euler stress, and nothing above. */
  lemma EquilibriumExactly(c: Cell, rho: real, u: real, v: real)
    ensures c == Equilibrium(rho, u, v) <==>
      HasState(c, rho, rho * u, rho * v, rho / 3.0 + rho * u * u, rho * u * v, rho / 3.0 + rho * v * v)
  {
    EquilibriumMoments(rho, u, v);
    EquilibriumHigher(rho, u, v);
    hide EquilibriumAt, Cell.Rho, Cell.Mx, Cell.My, Cell.Pxx, Cell.Pxy, Cell.Pyy, ThirdX, ThirdY, Fourth, Equilibrium;
    if HasState(c, rho, rho * u, rho * v, rho / 3.0 + rho * u * u, rho * u * v, rho / 3.0 + rho * v * v) {
      MomentsDetermine(c, Equilibrium(rho, u, v));
    }
  }

  lemma EquilibriumHigher(rho: real, u: real, v: real)
    ensures var e := Equilibrium(rho, u, v); ThirdX(e) == 0.0 && ThirdY(e) == 0.0 && Fourth(e) == 0.0
  {
    hide EquilibriumAt, Expanded, ThirdX, ThirdY, Fourth;
    EquilibriumExpanded(0, rho, u, v);
    EquilibriumExpanded(1, rho, u, v);
    EquilibriumExpanded(2, rho, u, v);
    EquilibriumExpanded(3, rho, u, v);
    EquilibriumExpanded(4, rho, u, v);
    EquilibriumExpanded(5, rho, u, v);
    EquilibriumExpanded(6, rho, u, v);
    EquilibriumExpanded(7, rho, u, v);
    EquilibriumExpanded(8, rho, u, v);
    ExpandedHigher(Equilibrium(rho, u, v), rho, rho * u, rho * v, rho * u * u, rho * u * v, rho * v * v);
  }

  lemma RelaxedAt(c: Cell, e: Cell, omega: real, d: int)
    requires 0 <= d < 9
    ensures Relax(c, e, omega).At(d) - e.At(d) == (1.0 - omega) * (c.At(d) - e.At(d))
  {
    hide Relaxed;
    assert Relax(c, e, omega).At(d) == Relaxed(c.At(d), e.At(d), omega);
    RelaxedDistance(c.At(d), e.At(d), omega);
  }

  lemma RelaxedDistance(x: real, target: real, omega: real)
    ensures Relaxed(x, target, omega) - target == (1.0 - omega) * (x - target)
  {
  }

  lemma EquilibriumPopulation(d: int, rho: real, u: real, v: real)
    requires 0 <= d < 9
    ensures Equilibrium(rho, u, v).At(d) == EquilibriumAt(d, rho, u, v)
  {
    hide EquilibriumAt;
  }

  /** Collision relaxes: every population keeps the fraction 1 - omega of its distance to the equilibrium of the
      cell's own density and velocity. */
  lemma CollisionRelaxes(c: Cell, omega: real, d: int)
    requires c.Rho() != 0.0 && 0 <= d < 9
    ensures Collide(c, omega).Some?
    ensures var rho, u, v := c.Rho(), c.Mx() / c.Rho(), c.My() / c.Rho();
      Collide(c, omega).value.At(d) - EquilibriumAt(d, rho, u, v)
      == (1.0 - omega) * (c.At(d) - EquilibriumAt(d, rho, u, v))
  {
    hide Equilibrium, EquilibriumAt, Relax, Cell.Rho, Cell.Mx, Cell.My, Cell.At;
    var rho, u, v := c.Rho(), c.Mx() / c.Rho(), c.My() / c.Rho();
    EquilibriumPopulation(d, rho, u, v);
    RelaxedAt(c, Equilibrium(rho, u, v), omega, d);
  }

  /** Distances of nine populations that all shrink alike shrink the stresses alike. */
  lemma StressShrinks(r: Cell, c: Cell, e: Cell, k: real)
    requires forall d :: 0 <= d < 9 ==> r.At(d) - e.At(d) == k * (c.At(d) - e.At(d))
    ensures r.Pxx() - e.Pxx() == k * (c.Pxx() - e.Pxx())
    ensures r.Pxy() - e.Pxy() == k * (c.Pxy() - e.Pxy())
    ensures r.Pyy() - e.Pyy() == k * (c.Pyy() - e.Pyy())
  {
    PopulationsShrink(r, c, e, k);
    var n, m := r.Minus(e), c.Minus(e);
    hide Cell.Pxx, Cell.Pxy, Cell.Pyy, Cell.At, Cell.Minus;
    MomentsShrink(n, m, k);
    MinusMoments(r, e);
    MinusMoments(c, e);
  }

  lemma PopulationsShrink(r: Cell, c: Cell, e: Cell, k: real)
    requires forall d :: 0 <= d < 9 ==> r.At(d) - e.At(d) == k * (c.At(d) - e.At(d))
    ensures var n, m := r.Minus(e), c.Minus(e);
      && n.f1 == k * m.f1 && n.f2 == k * m.f2 && n.f3 == k * m.f3 && n.f4 == k * m.f4
      && n.f5 == k * m.f5 && n.f6 == k * m.f6 && n.f7 == k * m.f7 && n.f8 == k * m.f8
  {
    assert r.At(1) == r.f1 && r.At(2) == r.f2 && r.At(3) == r.f3 && r.At(4) == r.f4;
    assert r.At(5) == r.f5 && r.At(6) == r.f6 && r.At(7) == r.f7 && r.At(8) == r.f8;
  }

  lemma MinusMoments(c: Cell, e: Cell)
    ensures c.Minus(e).Pxx() == c.Pxx() - e.Pxx()
    ensures c.Minus(e).Pxy() == c.Pxy() - e.Pxy()
    ensures c.Minus(e).Pyy() == c.Pyy() - e.Pyy()
  {
  }

  lemma MomentsShrink(n: Cell, m: Cell, k: real)
    requires n.f1 == k * m.f1 && n.f2 == k * m.f2 && n.f3 == k * m.f3 && n.f4 == k * m.f4
    requires n.f5 == k * m.f5 && n.f6 == k * m.f6 && n.f7 == k * m.f7 && n.f8 == k * m.f8
    ensures n.Pxx() == k * m.Pxx() && n.Pxy() == k * m.Pxy() && n.Pyy() == k * m.Pyy()
  {
    Distribute(k, 0.0, m.f1, 0.0, m.f3, 0.0, m.f5, m.f6, m.f7, m.f8);
    Distribute(k, 0.0, 0.0, 0.0, 0.0, 0.0, m.f5, -m.f6, m.f7, -m.f8);
    Distribute(k, 0.0, 0.0, m.f2, 0.0, m.f4, m.f5, m.f6, m.f7, m.f8);
  }

  /** So the stress beyond the Euler stress of the cell keeps the fraction 1 - omega too. */
  lemma CollisionShrinksStress(c: Cell, omega: real)
    requires c.Rho() != 0.0
    ensures Collide(c, omega).Some?
    ensures var rho, u, v, r := c.Rho(), c.Mx() / c.Rho(), c.My() / c.Rho(), Collide(c, omega).value;
      && r.Pxx() - (rho / 3.0 + rho * u * u) == (1.0 - omega) * (c.Pxx() - (rho / 3.0 + rho * u * u))
      && r.Pxy() - rho * u * v == (1.0 - omega) * (c.Pxy() - rho * u * v)
      && r.Pyy() - (rho / 3.0 + rho * v * v) == (1.0 - omega) * (c.Pyy() - (rho / 3.0 + rho * v * v))
  {
    hide Collide, Equilibrium, EquilibriumAt, Cell.Rho, Cell.Mx, Cell.My, Cell.Pxx, Cell.Pxy, Cell.Pyy, Cell.At;
    var rho, u, v := c.Rho(), c.Mx() / c.Rho(), c.My() / c.Rho();
    CollisionConserves(c, omega);
    forall d | 0 <= d < 9
      ensures Collide(c, omega).value.At(d) - Equilibrium(rho, u, v).At(d)
           == (1.0 - omega) * (c.At(d) - Equilibrium(rho, u, v).At(d))
    {
      CollisionRelaxes(c, omega, d);
      EquilibriumPopulation(d, rho, u, v);
    }
    StressShrinks(Collide(c, omega).value, c, Equilibrium(rho, u, v), 1.0 - omega);
    EquilibriumMoments(rho, u, v);
  }

  lemma FactorCancels(omega: real, x: real)
    requires (1.0 - omega) * x == x && omega != 0.0
    ensures x == 0.0
  {
    assert omega * x == 0.0;
  }

  lemma EqualPopulations(a: Cell, b: Cell)
    requires forall d :: 0 <= d < 9 ==> a.At(d) == b.At(d)
    ensures a == b
  {
    assert a.At(0) == a.f0 && a.At(1) == a.f1 && a.At(2) == a.f2 && a.At(3) == a.f3 && a.At(4) == a.f4;
    assert a.At(5) == a.f5 && a.At(6) == a.f6 && a.At(7) == a.f7 && a.At(8) == a.f8;
    assert b.At(0) == b.f0 && b.At(1) == b.f1 && b.At(2) == b.f2 && b.At(3) == b.f3 && b.At(4) == b.f4;
    assert b.At(5) == b.f5 && b.At(6) == b.f6 && b.At(7) == b.f7 && b.At(8) == b.f8;
  }

  /** Collision rests exactly at equilibrium: a cell is left alone if and only if it is the equilibrium of its own
      density and velocity. */
  lemma CollisionRestsExactly(c: Cell, omega: real)
    requires c.Rho() != 0.0 && omega != 0.0
    ensures Collide(c, omega) == Some(c) <==> c == Equilibrium(c.Rho(), c.Mx() / c.Rho(), c.My() / c.Rho())
  {
    hide Collide, Equilibrium, EquilibriumAt, Cell.Rho, Cell.Mx, Cell.My, Cell.At;
    CollisionConserves(c, omega);
    var r, e := Collide(c, omega).value, Equilibrium(c.Rho(), c.Mx() / c.Rho(), c.My() / c.Rho());
    forall d | 0 <= d < 9
      ensures r.At(d) - e.At(d) == (1.0 - omega) * (c.At(d) - e.At(d))
      ensures r.At(d) == c.At(d) <==> c.At(d) == e.At(d)
    {
      CollisionRelaxes(c, omega, d);
      EquilibriumPopulation(d, c.Rho(), c.Mx() / c.Rho(), c.My() / c.Rho());
      if r.At(d) == c.At(d) {
        FactorCancels(omega, c.At(d) - e.At(d));
      }
    }
    if r == c {
      EqualPopulations(c, e);
    }
    if c == e {
      EqualPopulations(r, c);
    }
  }

  lemma ProjectionHigher(r: Cell, rho: real, u: real, xx: real, xy: real, yy: real)
    requires forall d :: 0 <= d < 9 ==> r.At(d) == RegularizedAt(d, rho, u, xx, xy, yy)
    ensures ThirdX(r) == 0.0 && ThirdY(r) == 0.0 && Fourth(r) == 0.0
  {
    var e := Equilibrium(rho, u, 0.0);
    EquilibriumHigher(rho, u, 0.0);
    hide EquilibriumAt;
    assert r.At(0) == r.f0 && r.At(1) == r.f1 && r.At(2) == r.f2 && r.At(3) == r.f3;
    assert r.At(4) == r.f4 && r.At(5) == r.f5 && r.At(6) == r.f6 && r.At(7) == r.f7 && r.At(8) == r.f8;
    assert r.f0 == e.f0 - 2.0 / 3.0 * (xx + yy);
    assert r.f1 == e.f1 + 0.5 * (2.0 / 3.0 * xx - 1.0 / 3.0 * yy)
      && r.f3 == e.f3 + 0.5 * (2.0 / 3.0 * xx - 1.0 / 3.0 * yy);
    assert r.f2 == e.f2 + 0.5 * (2.0 / 3.0 * yy - 1.0 / 3.0 * xx)
      && r.f4 == e.f4 + 0.5 * (2.0 / 3.0 * yy - 1.0 / 3.0 * xx);
    assert r.f5 == e.f5 + 0.125 * (2.0 / 3.0 * (xx + yy) + 2.0 * xy)
      && r.f7 == e.f7 + 0.125 * (2.0 / 3.0 * (xx + yy) + 2.0 * xy);
    assert r.f6 == e.f6 + 0.125 * (2.0 / 3.0 * (xx + yy) - 2.0 * xy)
      && r.f8 == e.f8 + 0.125 * (2.0 / 3.0 * (xx + yy) - 2.0 * xy);
    hide RegularizedAt, Equilibrium;
  }

  lemma RegularizedPopulations(c: Cell, rho: real, u: real, d: int)
    requires 0 <= d < 9
    ensures var n := c.Minus(Equilibrium(rho, u, 0.0));
      Regularize(c, rho, u).At(d) == RegularizedAt(d, rho, u, n.Pxx(), n.Pxy(), n.Pyy())
  {
    hide RegularizedAt, Equilibrium;
  }

  /** The regularized cell is the one cell with the prescribed density and momentum, the second-order stress of the
      original, and nothing above. */
  lemma RegularizeExactly(r: Cell, c: Cell, rho: real, u: real)
    ensures r == Regularize(c, rho, u) <==> HasState(r, rho, rho * u, 0.0, c.Pxx(), c.Pxy(), c.Pyy())
  {
    hide Regularize, Equilibrium, Cell.Rho, Cell.Mx, Cell.My, Cell.Pxx, Cell.Pxy, Cell.Pyy, ThirdX, ThirdY, Fourth,
         RegularizedAt;
    RegularizeIsProjection(c, rho, u);
    var n := c.Minus(Equilibrium(rho, u, 0.0));
    forall d | 0 <= d < 9
      ensures Regularize(c, rho, u).At(d) == RegularizedAt(d, rho, u, n.Pxx(), n.Pxy(), n.Pyy())
    {
      RegularizedPopulations(c, rho, u, d);
    }
    ProjectionHigher(Regularize(c, rho, u), rho, u, n.Pxx(), n.Pxy(), n.Pyy());
    if HasState(r, rho, rho * u, 0.0, c.Pxx(), c.Pxy(), c.Pyy()) {
      MomentsDetermine(r, Regularize(c, rho, u));
    }
  }
}
