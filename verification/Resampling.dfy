/** Conservative area averaging: each output cell is the average of the inputs under its bin, with the
    inputs at the ends of the bin counted by the fraction that lies inside. Sums are exact. */
module Resampling {
  import opened Reals
  import opened Wrappers

  type Line = int -> real

  const OUTPUT_GRID_NY := 320
  const OUTPUT_GRID_NX := 256

  function Sum(f: Line, a: int, b: int): real
    decreases b - a
  {
    if a >= b then 0.0 else Sum(f, a, b - 1) + f(b - 1)
  }

  /** Where output bin j begins: j times the ratio of the sizes. */
  function Edge(n: nat, m: nat, j: int): real
    requires m > 0
  {
    (j * n) as real / m as real
  }

  function BinWidth(n: nat, m: nat): real
    requires m > 0
  {
    n as real / m as real
  }

  /** The part of input cell i that lies in output bin j, as the source computes it. */
  function Weight(n: nat, m: nat, j: int, i: int): real
    requires m > 0
  {
    Min(i as real + 1.0, Edge(n, m, j + 1)) - Max(i as real, Edge(n, m, j))
  }

  function First(n: nat, m: nat, j: int): int
    requires m > 0
  {
    Edge(n, m, j).Floor
  }

  function Last(n: nat, m: nat, j: int): int
    requires m > 0
  {
    Ceiling(Edge(n, m, j + 1))
  }

  /** A weighted value. */
  function Term(weight: real, x: real): real { weight * x }

  /** One output value. */
  function Resampled(n: nat, m: nat, input: Line, j: int): real
    requires 0 < m <= n
  {
    Sum(i => Term(Weight(n, m, j, i), input(i)), First(n, m, j), Last(n, m, j)) / BinWidth(n, m)
  }

  /** The length of input cell i below a point. */
  function Below(x: real, i: int): real { Min(Max(x - i as real, 0.0), 1.0) }

  /** The overlap of input cell i with output bin j, defined for every pair. */
  function Overlap(n: nat, m: nat, j: int, i: int): real
    requires m > 0
  {
    Below(Edge(n, m, j + 1), i) - Below(Edge(n, m, j), i)
  }

  lemma RatioMonotone(x: int, y: int, m: nat)
    requires x <= y && m > 0
    ensures x as real / m as real <= y as real / m as real
  {
  }

  lemma ProductMonotone(j: int, k: int, n: nat)
    requires j <= k
    ensures j * n <= k * n
  {
  }

  lemma EdgeMonotone(n: nat, m: nat, j: int, k: int)
    requires m > 0 && j <= k
    ensures Edge(n, m, j) <= Edge(n, m, k)
  {
    ProductMonotone(j, k, n);
    RatioMonotone(j * n, k * n, m);
  }

  lemma EdgeEnds(n: nat, m: nat)
    requires m > 0
    ensures Edge(n, m, 0) == 0.0 && Edge(n, m, m) == n as real
  {
    Cancels(n, m);
  }

  lemma Cancels(n: nat, m: nat)
    requires m > 0
    ensures (m * n) as real / m as real == n as real
  {
    assert (m * n) as real == n as real * m as real;
  }

  lemma EdgeStep(n: nat, m: nat, j: int)
    requires m > 0
    ensures Edge(n, m, j + 1) - Edge(n, m, j) == BinWidth(n, m)
  {
    assert (j + 1) * n == j * n + n;
    assert ((j + 1) * n) as real == (j * n) as real + n as real;
    RatioAdds((j * n) as real, n as real, m as real);
  }

  lemma RatioAdds(x: real, y: real, m: real)
    requires m > 0.0
    ensures (x + y) / m == x / m + y / m
  {
  }

  /** Inside the source's index range the source's weight is the overlap, and it is never negative. */
  lemma WeightIsOverlap(n: nat, m: nat, j: int, i: int)
    requires m > 0 && First(n, m, j) <= i < Last(n, m, j)
    ensures Weight(n, m, j, i) == Overlap(n, m, j, i) && Weight(n, m, j, i) >= 0.0
  {
    EdgeMonotone(n, m, j, j + 1);
    hide Edge;
  }

  /** Outside that range there is no overlap. */
  lemma NoOverlapOutside(n: nat, m: nat, j: int, i: int)
    requires m > 0 && !(First(n, m, j) <= i < Last(n, m, j))
    ensures Overlap(n, m, j, i) == 0.0
  {
    EdgeMonotone(n, m, j, j + 1);
    hide Edge;
  }

  lemma {:induction false} SumAgrees(f: Line, g: Line, a: int, b: int)
    requires forall i :: a <= i < b ==> f(i) == g(i)
    ensures Sum(f, a, b) == Sum(g, a, b)
    decreases b - a
  {
    if a < b {
      SumAgrees(f, g, a, b - 1);
    }
  }

  lemma {:induction false} SumAdds(k: Line, f: Line, g: Line, a: int, b: int)
    requires forall i :: a <= i < b ==> k(i) == f(i) + g(i)
    ensures Sum(k, a, b) == Sum(f, a, b) + Sum(g, a, b)
    decreases b - a
  {
    if a < b {
      SumAdds(k, f, g, a, b - 1);
    }
  }

  lemma TermLaws(x: real, y: real, c: real)
    ensures Term(x + y, c) == Term(x, c) + Term(y, c) && Term(0.0, c) == 0.0 && Term(1.0, c) == c
  {
  }

  lemma {:induction false} SumOfTerms(k: Line, f: Line, c: real, a: int, b: int)
    requires forall i :: a <= i < b ==> k(i) == Term(f(i), c)
    ensures Sum(k, a, b) == Term(Sum(f, a, b), c)
    decreases b - a
  {
    hide Term;
    if a < b {
      SumOfTerms(k, f, c, a, b - 1);
      TermLaws(Sum(f, a, b - 1), f(b - 1), c);
    } else {
      TermLaws(0.0, 0.0, c);
    }
  }

  lemma {:induction false} SumAtMost(f: Line, g: Line, a: int, b: int)
    requires forall i :: a <= i < b ==> f(i) <= g(i)
    ensures Sum(f, a, b) <= Sum(g, a, b)
    decreases b - a
  {
    if a < b {
      SumAtMost(f, g, a, b - 1);
    }
  }

  lemma {:induction false} SumSplits(f: Line, a: int, b: int, c: int)
    requires a <= b <= c
    ensures Sum(f, a, c) == Sum(f, a, b) + Sum(f, b, c)
    decreases c - b
  {
    if b < c {
      SumSplits(f, a, b, c - 1);
    }
  }

  lemma {:induction false} SumVanishes(f: Line, a: int, b: int)
    requires forall i :: a <= i < b ==> f(i) == 0.0
    ensures Sum(f, a, b) == 0.0
    decreases b - a
  {
    if a < b {
      SumVanishes(f, a, b - 1);
    }
  }

  lemma {:induction false} SumTelescopes(f: Line, g: Line, m: nat)
    requires forall j :: 0 <= j < m ==> f(j) == g(j + 1) - g(j)
    ensures Sum(f, 0, m) == g(m) - g(0)
    decreases m
  {
    if m > 0 {
      SumTelescopes(f, g, m - 1);
    }
  }

  /** Summing over one index and then the other gives the same either way. */
  lemma {:induction false} SumSwaps(k: (int, int) -> real, rows: Line, columns: Line, m: nat, n: nat)
    requires forall j :: 0 <= j < m ==> rows(j) == Sum(i => k(j, i), 0, n)
    requires forall i :: 0 <= i < n ==> columns(i) == Sum(j => k(j, i), 0, m)
    ensures Sum(rows, 0, m) == Sum(columns, 0, n)
    decreases m
  {
    if m == 0 {
      SumVanishes(columns, 0, n);
    } else {
      var fewer: Line := i => Sum(j => k(j, i), 0, m - 1);
      SumSwaps(k, rows, fewer, m - 1, n);
      SumAdds(columns, fewer, i => k(m - 1, i), 0, n);
    }
  }

  /** The cells from a to b below a point make up the point, clamped. */
  lemma {:induction false} SumBelow(f: Line, x: real, a: int, b: int)
    requires a <= b && forall i :: a <= i < b ==> f(i) == Below(x, i)
    ensures Sum(f, a, b) == Min(Max(x, a as real), b as real) - a as real
    decreases b - a
  {
    if a < b {
      SumBelow(f, x, a, b - 1);
    }
  }

  lemma RangeOrdered(n: nat, m: nat, j: int)
    requires m > 0
    ensures First(n, m, j) <= Last(n, m, j)
    ensures First(n, m, j) as real <= Edge(n, m, j) <= Edge(n, m, j + 1) <= Last(n, m, j) as real
    ensures 0 <= j < m ==> 0 <= First(n, m, j) && Last(n, m, j) <= n
  {
    EdgeMonotone(n, m, j, j + 1);
    if 0 <= j < m {
      EdgeEnds(n, m);
      EdgeMonotone(n, m, 0, j);
      EdgeMonotone(n, m, j + 1, m);
    }
    hide Edge;
  }

  /** The weights of an output bin are never negative and sum to the bin width. */
  lemma WeightsFillBin(n: nat, m: nat, j: int)
    requires m > 0
    ensures Sum(i => Weight(n, m, j, i), First(n, m, j), Last(n, m, j)) == BinWidth(n, m)
    ensures forall i :: First(n, m, j) <= i < Last(n, m, j) ==> Weight(n, m, j, i) >= 0.0
  {
    var a, b := First(n, m, j), Last(n, m, j);
    var start, stop := Edge(n, m, j), Edge(n, m, j + 1);
    var weights: Line := i => Weight(n, m, j, i);
    var below: Line, above: Line := i => Below(start, i), i => Below(stop, i);
    RangeOrdered(n, m, j);
    EdgeStep(n, m, j);
    forall i | a <= i < b ensures Weight(n, m, j, i) == Overlap(n, m, j, i) && Weight(n, m, j, i) >= 0.0 {
      WeightIsOverlap(n, m, j, i);
    }
    hide Weight, First, Last, Edge, BinWidth, Below;
    SumBelow(below, start, a, b);
    SumBelow(above, stop, a, b);
    SumAdds(above, weights, below, a, b);
    SumAgrees(i => Weight(n, m, j, i), weights, a, b);
  }

  /** The overlaps of an input cell with all output bins sum to one. */
  lemma OverlapsFillCell(n: nat, m: nat, i: int)
    requires m > 0 && 0 <= i < n
    ensures Sum(j => Overlap(n, m, j, i), 0, m) == 1.0
  {
    var g: Line := j => Below(Edge(n, m, j), i);
    EdgeEnds(n, m);
    SumTelescopes(j => Overlap(n, m, j, i), g, m);
    hide Edge;
  }

  /** The source's sum over its index range is the overlap-weighted sum over all inputs. */
  lemma OverlapSumInRange(n: nat, m: nat, input: Line, j: int, weighted: Line)
    requires 0 < m <= n && 0 <= j < m && forall i :: 0 <= i < n ==> weighted(i) == Term(Overlap(n, m, j, i), input(i))
    ensures Sum(i => Term(Weight(n, m, j, i), input(i)), First(n, m, j), Last(n, m, j)) == Sum(weighted, 0, n)
  {
    var a, b := First(n, m, j), Last(n, m, j);
    RangeOrdered(n, m, j);
    hide Weight, Overlap, First, Last, Edge, Term;
    forall i | 0 <= i < n ensures weighted(i) == if a <= i < b then Term(Weight(n, m, j, i), input(i)) else 0.0 {
      if a <= i < b {
        WeightIsOverlap(n, m, j, i);
      } else {
        NoOverlapOutside(n, m, j, i);
        TermLaws(0.0, 0.0, input(i));
      }
    }
    SumSplits(weighted, 0, a, n);
    SumSplits(weighted, a, b, n);
    SumVanishes(weighted, 0, a);
    SumVanishes(weighted, b, n);
    SumAgrees(i => Term(Weight(n, m, j, i), input(i)), weighted, a, b);
  }

  /** An output times the bin width is the overlap-weighted sum over all inputs. */
  lemma OutputIsOverlapSum(n: nat, m: nat, input: Line, j: int, weighted: Line)
    requires 0 < m <= n && 0 <= j < m && forall i :: 0 <= i < n ==> weighted(i) == Term(Overlap(n, m, j, i), input(i))
    ensures Term(Resampled(n, m, input, j), BinWidth(n, m)) == Sum(weighted, 0, n)
  {
    hide Weight, Overlap, First, Last, Edge, Sum;
    OverlapSumInRange(n, m, input, j, weighted);
    DividesBack(Sum(weighted, 0, n), n as real, m as real);
  }

  lemma DividesBack(x: real, n: real, m: real)
    requires n > 0.0 && m > 0.0
    ensures n / m > 0.0 && x / (n / m) * (n / m) == x
  {
    PositiveRatio(n, m);
    Undivided(x, n / m);
  }

  lemma PositiveRatio(n: real, m: real)
    requires n > 0.0 && m > 0.0
    ensures n / m > 0.0
  {
  }

  lemma Undivided(x: real, y: real)
    requires y > 0.0
    ensures x / y * y == x
  {
  }

  /** Resampling is conservative: the outputs, each times the bin width, sum to the sum of the inputs. */
  lemma Conserves(n: nat, m: nat, input: Line, output: Line)
    requires 0 < m <= n && forall j :: 0 <= j < m ==> output(j) == Resampled(n, m, input, j)
    ensures Term(Sum(output, 0, m), BinWidth(n, m)) == Sum(input, 0, n)
  {
    hide Resampled, Overlap, BinWidth, Term;
    var k: (int, int) -> real := (j, i) => Term(Overlap(n, m, j, i), input(i));
    var rows: Line := j => Term(output(j), BinWidth(n, m));
    forall j | 0 <= j < m ensures rows(j) == Sum(i => k(j, i), 0, n) {
      OutputIsOverlapSum(n, m, input, j, i => k(j, i));
    }
    forall i | 0 <= i < n ensures input(i) == Sum(j => k(j, i), 0, m) {
      OverlapsFillCell(n, m, i);
      SumOfTerms(j => k(j, i), j => Overlap(n, m, j, i), input(i), 0, m);
      TermLaws(0.0, 0.0, input(i));
    }
    SumSwaps(k, rows, input, m, n);
    SumOfTerms(rows, output, BinWidth(n, m), 0, m);
  }

  /** The same up to every bin edge, which fixes every output: the outputs of the first j bins, each times the bin
      width, sum to what the inputs hold below j times the ratio of the sizes. */
  lemma ConservesUpTo(n: nat, m: nat, input: Line, output: Line, j: nat, held: Line)
    requires 0 < m <= n && j <= m && forall q :: 0 <= q < m ==> output(q) == Resampled(n, m, input, q)
    requires forall i :: 0 <= i < n ==>
      held(i) == Min(Max((j * n) as real / m as real - i as real, 0.0), 1.0) * input(i)
    ensures Sum(output, 0, j) * (n as real / m as real) == Sum(held, 0, n)
  {
    hide Resampled, Sum;
    forall i | 0 <= i < n ensures held(i) == Term(Below(Edge(n, m, j), i), input(i)) {
    }
    HeldUpTo(n, m, input, output, j, held);
  }

  lemma {:induction false} HeldUpTo(n: nat, m: nat, input: Line, output: Line, j: nat, held: Line)
    requires 0 < m <= n && j <= m && forall q :: 0 <= q < m ==> output(q) == Resampled(n, m, input, q)
    requires forall i :: 0 <= i < n ==> held(i) == Term(Below(Edge(n, m, j), i), input(i))
    ensures Term(Sum(output, 0, j), BinWidth(n, m)) == Sum(held, 0, n)
    decreases j
  {
    hide Resampled, Edge, Below, Term, BinWidth;
    if j == 0 {
      forall i | 0 <= i < n ensures held(i) == 0.0 {
        NothingBelow(n, m, i, input(i));
      }
      SumVanishes(held, 0, n);
      TermLaws(0.0, 0.0, BinWidth(n, m));
    } else {
      var earlier: Line := i => Term(Below(Edge(n, m, j - 1), i), input(i));
      var weighted: Line := i => Term(Overlap(n, m, j - 1, i), input(i));
      HeldUpTo(n, m, input, output, j - 1, earlier);
      OutputIsOverlapSum(n, m, input, j - 1, weighted);
      forall i | 0 <= i < n ensures held(i) == earlier(i) + weighted(i) {
        TermLaws(Below(Edge(n, m, j - 1), i), Overlap(n, m, j - 1, i), input(i));
      }
      SumAdds(held, earlier, weighted, 0, n);
      SumLast(output, 0, j - 1);
      TermLaws(Sum(output, 0, j - 1), output(j - 1), BinWidth(n, m));
    }
  }

  lemma NothingBelow(n: nat, m: nat, i: nat, x: real)
    requires m > 0
    ensures Term(Below(Edge(n, m, 0), i), x) == 0.0
  {
    EdgeEnds(n, m);
    TermLaws(0.0, 0.0, x);
  }

  lemma WeightedBetween(weights: Line, weighted: Line, input: Line, lo: real, hi: real, a: int, b: int)
    requires forall i :: a <= i < b ==>
      weights(i) >= 0.0 && lo <= input(i) <= hi && weighted(i) == Term(weights(i), input(i))
    ensures Term(Sum(weights, a, b), lo) <= Sum(weighted, a, b) <= Term(Sum(weights, a, b), hi)
  {
    hide Term;
    var least: Line, most: Line := i => Term(weights(i), lo), i => Term(weights(i), hi);
    forall i | a <= i < b ensures least(i) <= weighted(i) <= most(i) {
      Between(lo, input(i), hi, weights(i));
    }
    SumAtMost(least, weighted, a, b);
    SumAtMost(weighted, most, a, b);
    SumOfTerms(least, weights, lo, a, b);
    SumOfTerms(most, weights, hi, a, b);
  }

  /** An average stays within the bounds of what it averages. */
  lemma Bounded(n: nat, m: nat, input: Line, j: int, lo: real, hi: real)
    requires 0 < m <= n && 0 <= j < m
    requires forall i :: First(n, m, j) <= i < Last(n, m, j) ==> lo <= input(i) <= hi
    ensures lo <= Resampled(n, m, input, j) <= hi
  {
    hide Weight, First, Last, Edge, Sum, Term;
    var a, b := First(n, m, j), Last(n, m, j);
    WeightsFillBin(n, m, j);
    WeightedBetween(i => Weight(n, m, j, i), i => Term(Weight(n, m, j, i), input(i)), input, lo, hi, a, b);
    PositiveRatio(n as real, m as real);
    QuotientBetween(lo, Sum(i => Term(Weight(n, m, j, i), input(i)), a, b), hi, BinWidth(n, m));
  }

  lemma Between(lo: real, x: real, hi: real, w: real)
    requires lo <= x <= hi && w >= 0.0
    ensures Term(w, lo) <= Term(w, x) <= Term(w, hi)
  {
  }

  lemma QuotientBetween(lo: real, x: real, hi: real, w: real)
    requires w > 0.0 && Term(w, lo) <= x <= Term(w, hi)
    ensures lo <= x / w <= hi
  {
    var q := x / w;
    Undivided(x, w);
    if q < lo {
      Stricter(q, lo, w);
    }
    if hi < q {
      Stricter(hi, q, w);
    }
  }

  lemma Stricter(x: real, y: real, w: real)
    requires x < y && w > 0.0
    ensures x * w < y * w
  {
  }

  /** A field as rows of values. */
  type Matrix = seq<seq<real>>

  predicate Shaped(a: Matrix, rows: nat, columns: nat) {
    |a| == rows && forall i :: 0 <= i < rows ==> |a[i]| == columns
  }

  function Entry(a: Matrix, i: int, k: int): real {
    if 0 <= i < |a| && 0 <= k < |a[i]| then a[i][k] else 0.0
  }

  function Column(a: Matrix, k: int): Line { i => Entry(a, i, k) }

  function Row(a: Matrix, i: int): Line { k => Entry(a, i, k) }

  function Total(a: Matrix, rows: nat, columns: nat): real { Sum(i => Sum(Row(a, i), 0, columns), 0, rows) }

  function Transposed(a: Matrix, rows: nat, columns: nat): (r: Matrix)
    requires Shaped(a, rows, columns)
    ensures Shaped(r, columns, rows)
    ensures forall i, k :: 0 <= i < rows && 0 <= k < columns ==> Entry(r, k, i) == Entry(a, i, k)
  {
    seq(columns, k requires 0 <= k < columns => seq(rows, i requires 0 <= i < rows => a[i][k]))
  }

  /** One matrix reduces another along its rows: every column is resampled. */
  ghost predicate Reduces(a: Matrix, r: Matrix, n: nat, m: nat, columns: nat)
    requires 0 < m <= n
  {
    && Shaped(a, n, columns) && Shaped(r, m, columns)
    && forall j, k :: 0 <= j < m && 0 <= k < columns ==> Entry(r, j, k) == Resampled(n, m, Column(a, k), j)
  }

  lemma TotalTransposed(a: Matrix, rows: nat, columns: nat)
    requires Shaped(a, rows, columns)
    ensures Total(Transposed(a, rows, columns), columns, rows) == Total(a, rows, columns)
  {
    var t := Transposed(a, rows, columns);
    hide Transposed;
    TotalByColumns(a, rows, columns);
    forall k | 0 <= k < columns ensures Sum(Column(a, k), 0, rows) == Sum(Row(t, k), 0, rows) {
      SumAgrees(Column(a, k), Row(t, k), 0, rows);
    }
    SumAgrees(k => Sum(Column(a, k), 0, rows), k => Sum(Row(t, k), 0, rows), 0, columns);
  }

  lemma TotalByColumns(a: Matrix, rows: nat, columns: nat)
    ensures Total(a, rows, columns) == Sum(k => Sum(Column(a, k), 0, rows), 0, columns)
  {
    var entries: (int, int) -> real := (i, k) => Entry(a, i, k);
    var byRow: Line, byColumn: Line := i => Sum(Row(a, i), 0, columns), k => Sum(Column(a, k), 0, rows);
    forall i | 0 <= i < rows ensures byRow(i) == Sum(k => entries(i, k), 0, columns) {
      SumAgrees(Row(a, i), k => entries(i, k), 0, columns);
    }
    forall k | 0 <= k < columns ensures byColumn(k) == Sum(i => entries(i, k), 0, rows) {
      SumAgrees(Column(a, k), i => entries(i, k), 0, rows);
    }
    SumSwaps(entries, byRow, byColumn, rows, columns);
    SumAgrees(i => Sum(Row(a, i), 0, columns), byRow, 0, rows);
    SumAgrees(k => Sum(Column(a, k), 0, rows), byColumn, 0, columns);
  }

  /** Reducing one axis is conservative over the whole field. */
  lemma ReducesConserves(a: Matrix, r: Matrix, n: nat, m: nat, columns: nat)
    requires 0 < m <= n && Reduces(a, r, n, m, columns)
    ensures Term(Total(r, m, columns), BinWidth(n, m)) == Total(a, n, columns)
  {
    hide Resampled, BinWidth, Term, Entry, Total;
    TotalByColumns(a, n, columns);
    TotalByColumns(r, m, columns);
    var reduced: Line, original: Line := k => Sum(Column(r, k), 0, m), k => Sum(Column(a, k), 0, n);
    forall k | 0 <= k < columns ensures original(k) == Term(reduced(k), BinWidth(n, m)) {
      Conserves(n, m, Column(a, k), Column(r, k));
    }
    SumOfTerms(original, reduced, BinWidth(n, m), 0, columns);
    SumAgrees(k => Sum(Column(r, k), 0, m), reduced, 0, columns);
    SumAgrees(k => Sum(Column(a, k), 0, n), original, 0, columns);
  }

  ghost predicate Within(a: Matrix, rows: nat, columns: nat, lo: real, hi: real) {
    forall i, k :: 0 <= i < rows && 0 <= k < columns ==> lo <= Entry(a, i, k) <= hi
  }

  lemma ReducesBounded(a: Matrix, r: Matrix, n: nat, m: nat, columns: nat, lo: real, hi: real)
    requires 0 < m <= n && Reduces(a, r, n, m, columns) && Within(a, n, columns, lo, hi)
    ensures Within(r, m, columns, lo, hi)
  {
    hide Resampled, Entry, First, Last;
    forall j, k | 0 <= j < m && 0 <= k < columns ensures lo <= Entry(r, j, k) <= hi {
      RangeOrdered(n, m, j);
      Bounded(n, m, Column(a, k), j, lo, hi);
    }
  }

  datatype ResampleError = TooSmall

  /** The weighted terms of one column of a bin. */
  function BinTerms(a: Matrix, n: nat, m: nat, j: int, k: int): Line
    requires m > 0
  {
    i => Term(Weight(n, m, j, i), Column(a, k)(i))
  }

  lemma BinTermsStep(a: Matrix, n: nat, m: nat, columns: nat, j: nat, k: nat, first: int, i: int)
    requires m > 0 && Shaped(a, n, columns) && 0 <= i < n && k < columns && first <= i
    ensures Sum(BinTerms(a, n, m, j, k), first, i + 1)
      == Sum(BinTerms(a, n, m, j, k), first, i) + Term(Weight(n, m, j, i), a[i][k])
  {
    hide Term, Weight;
    var f, column := BinTerms(a, n, m, j, k), Column(a, k);
    assert column(i) == a[i][k];
    assert f(i) == Term(Weight(n, m, j, i), column(i));
    SumLast(f, first, i);
  }

  lemma SumLast(f: Line, a: int, i: int)
    requires a <= i
    ensures Sum(f, a, i + 1) == Sum(f, a, i) + f(i)
  {
  }

  lemma BinTermsDone(a: Matrix, n: nat, m: nat, j: nat, k: nat)
    requires 0 < m <= n
    ensures BinWidth(n, m) > 0.0
    ensures Resampled(n, m, Column(a, k), j)
      == Sum(BinTerms(a, n, m, j, k), First(n, m, j), Last(n, m, j)) / BinWidth(n, m)
  {
    PositiveRatio(n as real, m as real);
    hide First, Last, Edge, Weight, Term, Column;
    SumAgrees(BinTerms(a, n, m, j, k), i => Term(Weight(n, m, j, i), Column(a, k)(i)), First(n, m, j), Last(n, m, j));
  }

  lemma NothingSummed(f: Line, a: int)
    ensures Sum(f, a, a) == 0.0
  {
  }

  /** One output row: the weights of its bin against the rows under it, over the bin width. */
  method BinRow(a: Matrix, n: nat, m: nat, columns: nat, j: nat) returns (row: seq<real>)
    requires 0 < m <= n && j < m && Shaped(a, n, columns)
    ensures |row| == columns && forall k :: 0 <= k < columns ==> row[k] == Resampled(n, m, Column(a, k), j)
  {
    RangeOrdered(n, m, j);
    hide First, Last, Edge, Weight, Term, Sum, BinTerms, Column, Entry, BinWidth, Resampled;
    var first, last := First(n, m, j), Last(n, m, j);
    var sums := seq(columns, k => 0.0);
    forall k | 0 <= k < columns ensures Sum(BinTerms(a, n, m, j, k), first, first) == 0.0 {
      NothingSummed(BinTerms(a, n, m, j, k), first);
    }
    for i := first to last
      invariant |sums| == columns
      invariant forall k :: 0 <= k < columns ==> sums[k] == Sum(BinTerms(a, n, m, j, k), first, i)
    {
      var weight := Weight(n, m, j, i);
      forall k | 0 <= k < columns
        ensures Sum(BinTerms(a, n, m, j, k), first, i + 1)
          == Sum(BinTerms(a, n, m, j, k), first, i) + Term(weight, a[i][k])
      {
        BinTermsStep(a, n, m, columns, j, k, first, i);
      }
      sums := seq(columns, k requires 0 <= k < columns => sums[k] + Term(weight, a[i][k]));
    }
    BinTermsDone(a, n, m, j, 0);
    row := seq(columns, k requires 0 <= k < columns => sums[k] / BinWidth(n, m));
    forall k | 0 <= k < columns ensures row[k] == Resampled(n, m, Column(a, k), j) {
      BinTermsDone(a, n, m, j, k);
    }
  }

  /** Reduce one axis; the other axis of the field moves along unchanged. */
  method AreaResampleAxis(a: Matrix, rows: nat, columns: nat, outputSize: nat, axis: nat)
      returns (r: Result<Matrix, ResampleError>)
    requires Shaped(a, rows, columns) && outputSize > 0 && axis < 2
    ensures r.Err? <==> (if axis == 0 then rows else columns) < outputSize
    ensures r.Ok? && axis == 0 ==> Reduces(a, r.value, rows, outputSize, columns)
    ensures r.Ok? && axis == 1 ==>
      && Shaped(r.value, rows, outputSize)
      && Reduces(Transposed(a, rows, columns), Transposed(r.value, rows, outputSize), columns, outputSize, rows)
  {
    hide Resampled, Entry, Transposed, Column;
    var moved, inputSize, width := a, rows, columns;
    if axis == 1 {
      moved, inputSize, width := Transposed(a, rows, columns), columns, rows;
    }
    if inputSize < outputSize {
      return Err(TooSmall);
    }
    var reduced := new seq<real>[outputSize](j => []);
    for j := 0 to outputSize
      invariant forall q :: 0 <= q < j ==>
        && |reduced[q]| == width
        && forall k :: 0 <= k < width ==> reduced[q][k] == Resampled(inputSize, outputSize, Column(moved, k), q)
    {
      var row := BinRow(moved, inputSize, outputSize, width, j);
      reduced[j] := row;
    }
    var result := reduced[..];
    RowsReduce(moved, result, inputSize, outputSize, width);
    if axis == 1 {
      TransposedBack(result, outputSize, rows);
      return Ok(Transposed(result, outputSize, rows));
    }
    return Ok(result);
  }

  lemma RowsReduce(a: Matrix, r: Matrix, n: nat, m: nat, columns: nat)
    requires 0 < m <= n && Shaped(a, n, columns) && Shaped(r, m, columns)
    requires forall j, k :: 0 <= j < m && 0 <= k < columns ==> r[j][k] == Resampled(n, m, Column(a, k), j)
    ensures Reduces(a, r, n, m, columns)
  {
    hide Resampled, Column;
  }

  lemma TransposedBack(a: Matrix, rows: nat, columns: nat)
    requires Shaped(a, rows, columns)
    ensures Transposed(Transposed(a, rows, columns), columns, rows) == a
  {
    var b := Transposed(Transposed(a, rows, columns), columns, rows);
    forall i | 0 <= i < rows ensures b[i] == a[i] {
      assert |b[i]| == |a[i]|;
    }
  }

  /** Row j of the field once its columns have been resampled. */
  function Narrowed(a: Matrix, rows: nat, j: int): Line
    requires rows >= 320
  {
    x => Resampled(rows, 320, Column(a, x), j)
  }

  /** An output depends only on the inputs. */
  lemma ResampledAlike(n: nat, m: nat, input: Line, input': Line, j: int)
    requires 0 < m <= n && 0 <= j < m && forall i :: 0 <= i < n ==> input(i) == input'(i)
    ensures Resampled(n, m, input, j) == Resampled(n, m, input', j)
  {
    RangeOrdered(n, m, j);
    hide Weight, First, Last, Edge, Term;
    SumAgrees(i => Term(Weight(n, m, j, i), input(i)), i => Term(Weight(n, m, j, i), input'(i)), First(n, m, j),
              Last(n, m, j));
  }

  lemma BothAxesEntries(a: Matrix, b: Matrix, c: Matrix, rows: nat, columns: nat, j: int, k: int)
    requires rows >= 320 && columns >= 256 && Shaped(b, 320, columns) && Shaped(c, 320, 256)
    requires Reduces(a, b, rows, 320, columns)
    requires Reduces(Transposed(b, 320, columns), Transposed(c, 320, 256), columns, 256, 320)
    requires 0 <= j < 320 && 0 <= k < 256
    ensures Entry(c, j, k) == Resampled(columns, 256, Narrowed(a, rows, j), k)
  {
    hide Resampled, Entry, Transposed;
    var bt, ct := Transposed(b, 320, columns), Transposed(c, 320, 256);
    assert Entry(ct, k, j) == Entry(c, j, k);
    assert Entry(ct, k, j) == Resampled(columns, 256, Column(bt, j), k);
    forall x | 0 <= x < columns ensures Column(bt, j)(x) == Narrowed(a, rows, j)(x) {
      assert Entry(bt, x, j) == Entry(b, j, x);
      assert Entry(b, j, x) == Resampled(rows, 320, Column(a, x), j);
    }
    ResampledAlike(columns, 256, Column(bt, j), Narrowed(a, rows, j), k);
  }

  /** Both axes: the persisted field. Its total, times the area of an output cell, is the total of the
      solver field, and it stays within the solver field's bounds. */
  method AreaAverage(a: Matrix, rows: nat, columns: nat) returns (r: Result<Matrix, ResampleError>)
    requires Shaped(a, rows, columns)
    ensures r.Ok? <==> rows >= 320 && columns >= 256
    ensures r.Ok? ==> Shaped(r.value, 320, 256)
    ensures r.Ok? ==> forall j, k :: 0 <= j < 320 && 0 <= k < 256 ==>
      Entry(r.value, j, k) == Resampled(columns, 256, Narrowed(a, rows, j), k)
    ensures r.Ok? ==>
      Term(Term(Total(r.value, OUTPUT_GRID_NY, OUTPUT_GRID_NX), BinWidth(columns, OUTPUT_GRID_NX)),
           BinWidth(rows, OUTPUT_GRID_NY))
      == Total(a, rows, columns)
    ensures forall lo, hi :: r.Ok? && Within(a, rows, columns, lo, hi) ==>
      Within(r.value, OUTPUT_GRID_NY, OUTPUT_GRID_NX, lo, hi)
  {
    hide Total, Within, Reduces, Transposed, BinWidth, Term, Resampled, Narrowed, Entry;
    var narrowed := AreaResampleAxis(a, rows, columns, OUTPUT_GRID_NY, 0);
    if narrowed.Err? {
      return narrowed;
    }
    var b := narrowed.value;
    ReducesShaped(a, b, rows, OUTPUT_GRID_NY, columns);
    r := AreaResampleAxis(b, OUTPUT_GRID_NY, columns, OUTPUT_GRID_NX, 1);
    if r.Ok? {
      BothAxes(a, b, r.value, rows, columns);
      ReducesShaped(Transposed(b, 320, columns), Transposed(r.value, 320, 256), columns, 256, 320);
      forall j, k | 0 <= j < 320 && 0 <= k < 256
        ensures Entry(r.value, j, k) == Resampled(columns, 256, Narrowed(a, rows, j), k)
      {
        BothAxesEntries(a, b, r.value, rows, columns, j, k);
      }
    }
  }

  lemma ReducesShaped(a: Matrix, r: Matrix, n: nat, m: nat, columns: nat)
    requires 0 < m <= n && Reduces(a, r, n, m, columns)
    ensures Shaped(r, m, columns)
  {
  }

  lemma WithinTransposed(a: Matrix, rows: nat, columns: nat, lo: real, hi: real)
    requires Shaped(a, rows, columns)
    ensures Within(a, rows, columns, lo, hi) <==> Within(Transposed(a, rows, columns), columns, rows, lo, hi)
  {
    var t := Transposed(a, rows, columns);
    hide Entry, Transposed;
    if Within(t, columns, rows, lo, hi) {
      forall i, k | 0 <= i < rows && 0 <= k < columns ensures lo <= Entry(a, i, k) <= hi {
        assert Entry(t, k, i) == Entry(a, i, k);
      }
    }
  }

  /** The two reductions composed. */
  lemma BothAxes(a: Matrix, b: Matrix, c: Matrix, rows: nat, columns: nat)
    requires rows >= OUTPUT_GRID_NY && columns >= OUTPUT_GRID_NX && Shaped(b, OUTPUT_GRID_NY, columns)
      && Shaped(c, OUTPUT_GRID_NY, OUTPUT_GRID_NX)
    requires Reduces(a, b, rows, OUTPUT_GRID_NY, columns)
    requires Reduces(Transposed(b, OUTPUT_GRID_NY, columns), Transposed(c, OUTPUT_GRID_NY, OUTPUT_GRID_NX), columns,
                     OUTPUT_GRID_NX, OUTPUT_GRID_NY)
    ensures Term(Term(Total(c, OUTPUT_GRID_NY, OUTPUT_GRID_NX), BinWidth(columns, OUTPUT_GRID_NX)),
                 BinWidth(rows, OUTPUT_GRID_NY))
         == Total(a, rows, columns)
    ensures forall lo, hi :: Within(a, rows, columns, lo, hi) ==> Within(c, OUTPUT_GRID_NY, OUTPUT_GRID_NX, lo, hi)
  {
    hide Total, Within, Reduces, Transposed, BinWidth, Term;
    var bt, ct := Transposed(b, OUTPUT_GRID_NY, columns), Transposed(c, OUTPUT_GRID_NY, OUTPUT_GRID_NX);
    ReducesConserves(a, b, rows, OUTPUT_GRID_NY, columns);
    ReducesConserves(bt, ct, columns, OUTPUT_GRID_NX, OUTPUT_GRID_NY);
    TotalTransposed(b, OUTPUT_GRID_NY, columns);
    TotalTransposed(c, OUTPUT_GRID_NY, OUTPUT_GRID_NX);
    forall lo, hi | Within(a, rows, columns, lo, hi) ensures Within(c, OUTPUT_GRID_NY, OUTPUT_GRID_NX, lo, hi) {
      ReducesBounded(a, b, rows, OUTPUT_GRID_NY, columns, lo, hi);
      WithinTransposed(b, OUTPUT_GRID_NY, columns, lo, hi);
      ReducesBounded(bt, ct, columns, OUTPUT_GRID_NX, OUTPUT_GRID_NY, lo, hi);
      WithinTransposed(c, OUTPUT_GRID_NY, OUTPUT_GRID_NX, lo, hi);
    }
  }
}
