/** The outlet sponge: populations near the outlet relax towards the inlet equilibrium, the more strongly
    the closer to the outlet. The staged form works column by column; the kernel works cell by cell. */
module Sponge {
  import opened ChannelGather
  import opened ChannelStages
  import opened Lattice
  import opened Wrappers

  const MAX_SPONGE_STRENGTH := 0.15
  const MIN_SPONGE_COLUMNS := 16

  /** The strength of a column of the sponge. */
  function Strength(start: int, columns: int, x: int): real
    requires columns > 1
  {
    var fraction := (x - start) as real / (columns - 1) as real;
    MAX_SPONGE_STRENGTH * fraction * fraction
  }

  /** The kernel, one population. */
  function Sponged(f: Field, u: real, start: int, columns: int, ny: int, y: int, x: int, d: int): real
    requires columns > 1
  {
    if 0 < y < ny - 1 && x >= start then
      f(y, x, d) + Strength(start, columns, x) * (EquilibriumAt(d, 1.0, u, 0.0) - f(y, x, d))
    else f(y, x, d)
  }

  lemma SquareRises(a: real, b: real)
    requires 0.0 <= a < b
    ensures a * a < b * b
  {
    PositiveProduct(b - a, b + a);
  }

  lemma PositiveProduct(x: real, y: real)
    requires x > 0.0 && y > 0.0
    ensures x * y > 0.0
  {
  }

  lemma RatioRises(a: int, b: int, n: int)
    requires 0 <= a < b <= n && n > 0
    ensures 0.0 <= a as real / n as real < b as real / n as real <= 1.0
  {
  }

  /** The profile rises strictly from zero at the first column to its maximum at the last. */
  lemma StrengthRises(start: int, columns: int, x: int, x': int)
    requires columns > 1 && start <= x < x' < start + columns
    ensures 0.0 <= Strength(start, columns, x) < Strength(start, columns, x') <= MAX_SPONGE_STRENGTH
    ensures Strength(start, columns, start) == 0.0
      && Strength(start, columns, start + columns - 1) == MAX_SPONGE_STRENGTH
  {
    var n := columns - 1;
    var a, b := (x - start) as real / n as real, (x' - start) as real / n as real;
    RatioRises(x - start, x' - start, n);
    SquareRises(a, b);
    if b < 1.0 {
      SquareRises(b, 1.0);
    }
  }

  /** The profile is quadratic: 0.15 at the last column, and at each column the square of its way through. */
  lemma StrengthQuadratic(start: int, columns: int, x: int, s: real)
    requires columns > 1
    ensures var n, k := (columns - 1) as real, (x - start) as real;
      s == Strength(start, columns, x) <==> s * (n * n) == 0.15 * (k * k)
  {
    var n, k := (columns - 1) as real, (x - start) as real;
    RatioSquared(k, n);
    if s * (n * n) == 0.15 * (k * k) {
      SameProduct(s, Strength(start, columns, x), n);
    }
  }

  lemma RatioSquared(k: real, n: real)
    requires n > 0.0
    ensures 0.15 * (k / n) * (k / n) * (n * n) == 0.15 * (k * k)
  {
    var q := k / n;
    assert q * n == k;
    assert q * q * (n * n) == (q * n) * (q * n);
  }

  lemma SameProduct(a: real, b: real, n: real)
    requires a * (n * n) == b * (n * n) && n > 0.0
    ensures a == b
  {
    PositiveProduct(n, n);
    assert (a - b) * (n * n) == 0.0;
  }

  /** What the sponge does to a population: in the inner rows of its columns the distance to the inlet equilibrium
      shrinks by the column's strength, and everywhere else nothing changes. */
  lemma SpongeRelaxes(f: Field, u: real, start: int, columns: int, ny: int, y: int, x: int, d: int, s: real)
    requires columns > 1
    requires var n, k := (columns - 1) as real, (x - start) as real; s * (n * n) == 0.15 * (k * k)
    ensures var r, target := Sponged(f, u, start, columns, ny, y, x, d), EquilibriumAt(d, 1.0, u, 0.0);
      if 0 < y < ny - 1 && x >= start then r - target == (1.0 - s) * (f(y, x, d) - target) else r == f(y, x, d)
  {
    hide Strength, EquilibriumAt;
    StrengthQuadratic(start, columns, x, s);
    if 0 < y < ny - 1 && x >= start {
      SpongedAt(f, u, start, columns, ny, y, x, d);
      Shrinks(f(y, x, d), EquilibriumAt(d, 1.0, u, 0.0), s);
    }
  }

  /** All nine populations of a sponge cell. */
  function SpongedCell(f: Field, u: real, start: int, columns: int, ny: int, y: int, x: int): Cell
    requires columns > 1
  {
    Cell(Sponged(f, u, start, columns, ny, y, x, 0), Sponged(f, u, start, columns, ny, y, x, 1),
         Sponged(f, u, start, columns, ny, y, x, 2), Sponged(f, u, start, columns, ny, y, x, 3),
         Sponged(f, u, start, columns, ny, y, x, 4), Sponged(f, u, start, columns, ny, y, x, 5),
         Sponged(f, u, start, columns, ny, y, x, 6), Sponged(f, u, start, columns, ny, y, x, 7),
         Sponged(f, u, start, columns, ny, y, x, 8))
  }

  /** What the sponge does to a cell: its deviation from unit density and inlet momentum shrinks by exactly
      the strength of its column, in all three moments. */
  lemma SpongeShrinksDeviation(f: Field, u: real, start: int, columns: int, ny: int, y: int, x: int)
    requires columns > 1 && 0 < y < ny - 1 && x >= start
    ensures var c, r, s := CellOf(f, y, x), SpongedCell(f, u, start, columns, ny, y, x), Strength(start, columns, x);
      && r.Rho() - 1.0 == (1.0 - s) * (c.Rho() - 1.0)
      && r.Mx() - u == (1.0 - s) * (c.Mx() - u)
      && r.My() == (1.0 - s) * c.My()
  {
    hide SpongedCell, Relax, Equilibrium, Strength, CellOf;
    var c, s := CellOf(f, y, x), Strength(start, columns, x);
    var e := Equilibrium(1.0, u, 0.0);
    SpongeIsRelaxation(f, u, start, columns, ny, y, x);
    EquilibriumMoments(1.0, u, 0.0);
    RelaxMoves(c, e, s);
  }

  lemma SpongeIsRelaxation(f: Field, u: real, start: int, columns: int, ny: int, y: int, x: int)
    requires columns > 1 && 0 < y < ny - 1 && x >= start
    ensures SpongedCell(f, u, start, columns, ny, y, x)
      == Relax(CellOf(f, y, x), Equilibrium(1.0, u, 0.0), Strength(start, columns, x))
  {
    hide Strength, EquilibriumAt, Sponged, Relaxed;
    forall d | 0 <= d < 9 ensures Sponged(f, u, start, columns, ny, y, x, d)
                               == Relaxed(f(y, x, d), EquilibriumAt(d, 1.0, u, 0.0), Strength(start, columns, x)) {
      SpongedAt(f, u, start, columns, ny, y, x, d);
    }
  }

  lemma SpongedAt(f: Field, u: real, start: int, columns: int, ny: int, y: int, x: int, d: int)
    requires columns > 1 && 0 < y < ny - 1 && x >= start
    ensures Sponged(f, u, start, columns, ny, y, x, d)
         == Relaxed(f(y, x, d), EquilibriumAt(d, 1.0, u, 0.0), Strength(start, columns, x))
  {
    hide Strength, EquilibriumAt;
    Negated(Strength(start, columns, x), f(y, x, d), EquilibriumAt(d, 1.0, u, 0.0));
  }

  lemma Negated(s: real, a: real, b: real)
    ensures a + s * (b - a) == a - s * (a - b)
  {
  }

  lemma Shrinks(a: real, b: real, s: real)
    ensures a - s * (a - b) - b == (1.0 - s) * (a - b)
  {
  }

  lemma RelaxRho(c: Cell, e: Cell, s: real)
    ensures Relax(c, e, s).Rho() == c.Rho() - s * (c.Rho() - e.Rho())
  {
    var n := c.Minus(e);
    assert n.Rho() == c.Rho() - e.Rho();
    Distribute(s, n.f0, n.f1, n.f2, n.f3, n.f4, n.f5, n.f6, n.f7, n.f8);
  }

  lemma RelaxMx(c: Cell, e: Cell, s: real)
    ensures Relax(c, e, s).Mx() == c.Mx() - s * (c.Mx() - e.Mx())
  {
    var n := c.Minus(e);
    assert n.Mx() == c.Mx() - e.Mx();
    Distribute(s, 0.0, n.f1, 0.0, -n.f3, 0.0, n.f5, -n.f6, -n.f7, n.f8);
  }

  lemma RelaxMy(c: Cell, e: Cell, s: real)
    ensures Relax(c, e, s).My() == c.My() - s * (c.My() - e.My())
  {
    var n := c.Minus(e);
    assert n.My() == c.My() - e.My();
    Distribute(s, 0.0, 0.0, n.f2, 0.0, -n.f4, n.f5, n.f6, -n.f7, -n.f8);
  }

  /** Relaxation moves each moment towards the target's by the relaxation rate. */
  lemma RelaxMoves(c: Cell, e: Cell, s: real)
    ensures var r := Relax(c, e, s);
      && r.Rho() - e.Rho() == (1.0 - s) * (c.Rho() - e.Rho())
      && r.Mx() - e.Mx() == (1.0 - s) * (c.Mx() - e.Mx())
      && r.My() - e.My() == (1.0 - s) * (c.My() - e.My())
  {
    RelaxRho(c, e, s);
    RelaxMx(c, e, s);
    RelaxMy(c, e, s);
    hide Relax;
    Shrinks(c.Rho(), e.Rho(), s);
    Shrinks(c.Mx(), e.Mx(), s);
    Shrinks(c.My(), e.My(), s);
  }

  /** The profile over all columns, zero outside the sponge. */
  method SpongeStrengths(nx: nat, columns: nat) returns (result: array<real>)
    requires 1 < columns < nx
    ensures fresh(result) && result.Length == nx
    ensures forall x :: 0 <= x < nx ==>
      result[x] == if x < nx - columns then 0.0 else Strength(nx - columns, columns, x)
  {
    result := new real[nx](x => 0.0);
    var start := nx - columns;
    for x := start to nx
      invariant forall q :: 0 <= q < nx ==> result[q] == if start <= q < x then Strength(start, columns, q) else 0.0
    {
      var fraction := (x - start) as real / (columns - 1) as real;
      result[x] := MAX_SPONGE_STRENGTH * fraction * fraction;
    }
  }

  /** Whether the obstacle stays out of the sponge. */
  method SpongeIsClear(mask: array2<bool>, columns: nat) returns (clear: bool)
    requires columns <= mask.Length1
    ensures clear <==> forall y, x :: 0 < y < mask.Length0 - 1 && mask.Length1 - columns <= x < mask.Length1 ==>
      !mask[y, x]
  {
    for y := 1 to if mask.Length0 >= 2 then mask.Length0 - 1 else 1
      invariant forall p, x :: 0 < p < y && mask.Length1 - columns <= x < mask.Length1 ==> !mask[p, x]
    {
      for x := mask.Length1 - columns to mask.Length1
        invariant forall q :: mask.Length1 - columns <= q < x ==> !mask[y, q]
      {
        if mask[y, x] {
          return false;
        }
      }
    }
    return true;
  }

  /** The staged sponge: on a copy, relax the inner rows of every column of positive strength. It is the
      kernel, population by population. */
  method ApplySponge(post: array3<real>, columns: nat, mask: array2<bool>, u: real)
      returns (r: Result<array3<real>, SolverError>)
    requires columns >= MIN_SPONGE_COLUMNS
    ensures r.Ok? <==>
      && post.Length2 == 9 && post.Length0 >= 5 && post.Length1 >= 3
      && columns < post.Length1 && 0.0 <= u <= 0.1
      && mask.Length0 == post.Length0 && mask.Length1 == post.Length1
      && forall y, x :: 0 < y < mask.Length0 - 1 && mask.Length1 - columns <= x < mask.Length1 ==> !mask[y, x]
    ensures r.Err? ==>
      (r.error == NumericalStabilityError <==> post.Length2 != 9 || post.Length0 == 0 || post.Length1 == 0)
    ensures r.Ok? ==> fresh(r.value) && Shaped(r.value, post.Length0, post.Length1)
    ensures r.Ok? ==> forall y, x, d :: OnGrid(post.Length0, post.Length1, y, x, d) ==>
      r.value[y, x, d] == Sponged(Snapshot(post), u, post.Length1 - columns, columns, post.Length0, y, x, d)
  {
    if post.Length2 != 9 || post.Length0 == 0 || post.Length1 == 0 {
      return Err(NumericalStabilityError);
    }
    if post.Length0 < MIN_CHANNEL_NY || post.Length1 < MIN_CHANNEL_NX || columns >= post.Length1 {
      return Err(DomainError);
    }
    if mask.Length0 != post.Length0 || mask.Length1 != post.Length1 {
      return Err(DomainError);
    }
    var clear := SpongeIsClear(mask, columns);
    if !clear || !ValidInlet(u) {
      return Err(DomainError);
    }
    var ny, nx := post.Length0, post.Length1;
    var start := nx - columns;
    ghost var f := Snapshot(post);
    hide Snapshot, Strength, EquilibriumAt, Sponged;
    var strengths := SpongeStrengths(nx, columns);
    var result := new real[ny, nx, 9](
      (y, x, d) requires OnGrid(ny, nx, y, x, d) && Shaped(post, ny, nx) reads post => post[y, x, d]);
    for x := 0 to nx
      invariant forall y, q, d :: OnGrid(ny, nx, y, q, d) ==>
        result[y, q, d] == if q < x then Sponged(f, u, start, columns, ny, y, q, d) else f(y, q, d)
      modifies result
    {
      if strengths[x] > 0.0 {
        RelaxColumn(result, x, strengths[x], u, f);
      }
      forall y, d | 0 <= y < ny && 0 <= d < 9
        ensures Sponged(f, u, start, columns, ny, y, x, d)
             == if strengths[x] > 0.0 && 0 < y < ny - 1
                then Towards(f(y, x, d), strengths[x], EquilibriumAt(d, 1.0, u, 0.0))
                else f(y, x, d)
      {
        ColumnCase(f, u, start, columns, ny, nx, y, x, d);
      }
    }
    return Ok(result);
  }

  function Towards(current: real, strength: real, target: real): real { current + strength * (target - current) }

  /** A column outside the sponge, at its start, or inside it. */
  lemma ColumnCase(f: Field, u: real, start: int, columns: int, ny: int, nx: int, y: int, x: int, d: int)
    requires columns > 1 && start + columns == nx && 0 <= x < nx
    ensures var s := if x < start then 0.0 else Strength(start, columns, x);
      s >= 0.0 && Sponged(f, u, start, columns, ny, y, x, d)
        == if s > 0.0 && 0 < y < ny - 1 then Towards(f(y, x, d), s, EquilibriumAt(d, 1.0, u, 0.0)) else f(y, x, d)
  {
    if x > start {
      StrengthRises(start, columns, start, x);
    }
    if x == start {
      StrengthRises(start, columns, start, start + 1);
    }
    hide Strength, EquilibriumAt;
    if x == start {
      NoStrength(f(y, x, d), EquilibriumAt(d, 1.0, u, 0.0));
    }
  }

  lemma NoStrength(current: real, target: real)
    ensures current + 0.0 * (target - current) == current
  {
  }

  /** Relax one column, direction by direction, row by row. */
  method RelaxColumn(result: array3<real>, x: nat, strength: real, u: real, ghost f: Field)
    requires result.Length2 == 9 && x < result.Length1 && result.Length0 >= 2
    requires forall y, d :: 0 <= y < result.Length0 && 0 <= d < 9 ==> result[y, x, d] == f(y, x, d)
    modifies result
    ensures forall y, q, d :: OnGrid(result.Length0, result.Length1, y, q, d) ==>
      result[y, q, d] == if q == x && 0 < y < result.Length0 - 1
                         then Towards(f(y, x, d), strength, EquilibriumAt(d, 1.0, u, 0.0))
                         else old(result[y, q, d])
  {
    hide EquilibriumAt, Towards;
    var ny, nx := result.Length0, result.Length1;
    for d := 0 to 9
      invariant forall y, q, e :: OnGrid(ny, nx, y, q, e) ==>
        result[y, q, e] == if q == x && 0 < y < ny - 1 && e < d
                           then Towards(f(y, x, e), strength, EquilibriumAt(e, 1.0, u, 0.0))
                           else old(result[y, q, e])
    {
      var target := EquilibriumAt(d, 1.0, u, 0.0);
      for y := 1 to ny - 1
        invariant forall p, q, e :: OnGrid(ny, nx, p, q, e) ==>
          result[p, q, e] == if q == x && 0 < p < ny - 1 && (e < d || (e == d && p < y))
                             then Towards(f(p, x, e), strength, EquilibriumAt(e, 1.0, u, 0.0)) else old(result[p, q, e])
      {
        result[y, x, d] := Towards(result[y, x, d], strength, target);
      }
    }
  }
}
