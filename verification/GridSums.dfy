/** Finite sums over rectangles of cells, and the two re-indexings that streaming needs: the periodic
    shift by one lattice velocity, and the plain shift of a function that vanishes near the edge. */
module GridSums {
  type CellMap = (int, int) -> real

  /** Sum over columns x0 <= x < x1 of row y. */
  function RowSum(g: CellMap, y: int, x0: int, x1: int): real
    decreases x1 - x0
  {
    if x1 <= x0 then 0.0 else RowSum(g, y, x0, x1 - 1) + g(y, x1 - 1)
  }

  /** Sum over rows y0 <= y < y1 and columns x0 <= x < x1. */
  function RectSum(g: CellMap, y0: int, y1: int, x0: int, x1: int): real
    decreases y1 - y0
  {
    if y1 <= y0 then 0.0 else RectSum(g, y0, y1 - 1, x0, x1) + RowSum(g, y1 - 1, x0, x1)
  }

  lemma {:induction false} RowAgree(g: CellMap, h: CellMap, y: int, y': int, x0: int, x1: int)
    requires forall x :: x0 <= x < x1 ==> g(y, x) == h(y', x)
    ensures RowSum(g, y, x0, x1) == RowSum(h, y', x0, x1)
    decreases x1 - x0
  {
    if x0 < x1 {
      RowAgree(g, h, y, y', x0, x1 - 1);
    }
  }

  lemma {:induction false} RectAgree(g: CellMap, h: CellMap, y0: int, y1: int, x0: int, x1: int)
    requires forall y, x :: y0 <= y < y1 && x0 <= x < x1 ==> g(y, x) == h(y, x)
    ensures RectSum(g, y0, y1, x0, x1) == RectSum(h, y0, y1, x0, x1)
    decreases y1 - y0
  {
    if y0 < y1 {
      RectAgree(g, h, y0, y1 - 1, x0, x1);
      RowAgree(g, h, y1 - 1, y1 - 1, x0, x1);
    }
  }

  lemma {:induction false} RowAdd(k: CellMap, g: CellMap, h: CellMap, y: int, x0: int, x1: int)
    requires forall x :: x0 <= x < x1 ==> k(y, x) == g(y, x) + h(y, x)
    ensures RowSum(k, y, x0, x1) == RowSum(g, y, x0, x1) + RowSum(h, y, x0, x1)
    decreases x1 - x0
  {
    if x0 < x1 {
      RowAdd(k, g, h, y, x0, x1 - 1);
    }
  }

  lemma {:induction false} RectAdd(k: CellMap, g: CellMap, h: CellMap, y0: int, y1: int, x0: int, x1: int)
    requires forall y, x :: y0 <= y < y1 && x0 <= x < x1 ==> k(y, x) == g(y, x) + h(y, x)
    ensures RectSum(k, y0, y1, x0, x1) == RectSum(g, y0, y1, x0, x1) + RectSum(h, y0, y1, x0, x1)
    decreases y1 - y0
  {
    if y0 < y1 {
      RectAdd(k, g, h, y0, y1 - 1, x0, x1);
      RowAdd(k, g, h, y1 - 1, x0, x1);
    }
  }

  lemma {:induction false} RowScale(k: CellMap, a: real, g: CellMap, y: int, x0: int, x1: int)
    requires forall x :: x0 <= x < x1 ==> k(y, x) == a * g(y, x)
    ensures RowSum(k, y, x0, x1) == a * RowSum(g, y, x0, x1)
    decreases x1 - x0
  {
    if x0 < x1 {
      RowScale(k, a, g, y, x0, x1 - 1);
    }
  }

  lemma {:induction false} RectScale(k: CellMap, a: real, g: CellMap, y0: int, y1: int, x0: int, x1: int)
    requires forall y, x :: y0 <= y < y1 && x0 <= x < x1 ==> k(y, x) == a * g(y, x)
    ensures RectSum(k, y0, y1, x0, x1) == a * RectSum(g, y0, y1, x0, x1)
    decreases y1 - y0
  {
    if y0 < y1 {
      RectScale(k, a, g, y0, y1 - 1, x0, x1);
      RowScale(k, a, g, y1 - 1, x0, x1);
    }
  }

  lemma {:induction false} RowShift(g: CellMap, h: CellMap, y: int, y': int, x0: int, x1: int, c: int)
    requires forall x :: x0 <= x < x1 ==> h(y', x + c) == g(y, x)
    ensures RowSum(g, y, x0, x1) == RowSum(h, y', x0 + c, x1 + c)
    decreases x1 - x0
  {
    if x0 < x1 {
      RowShift(g, h, y, y', x0, x1 - 1, c);
      assert h(y', x1 - 1 + c) == g(y, x1 - 1);
    }
  }

  lemma {:induction false} RowSplitFirst(g: CellMap, y: int, x0: int, x1: int)
    requires x0 < x1
    ensures RowSum(g, y, x0, x1) == g(y, x0) + RowSum(g, y, x0 + 1, x1)
    decreases x1 - x0
  {
    if x0 + 1 < x1 {
      RowSplitFirst(g, y, x0, x1 - 1);
    }
  }

  lemma {:induction false} RectSplitFirst(g: CellMap, y0: int, y1: int, x0: int, x1: int)
    requires y0 < y1
    ensures RectSum(g, y0, y1, x0, x1) == RowSum(g, y0, x0, x1) + RectSum(g, y0 + 1, y1, x0, x1)
    decreases y1 - y0
  {
    if y0 + 1 < y1 {
      RectSplitFirst(g, y0, y1 - 1, x0, x1);
    }
  }

  lemma {:induction false} RectShiftRows(g: CellMap, h: CellMap, y0: int, y1: int, x0: int, x1: int, c: int)
    requires forall y :: y0 <= y < y1 ==> RowSum(g, y, x0, x1) == RowSum(h, y + c, x0, x1)
    ensures RectSum(g, y0, y1, x0, x1) == RectSum(h, y0 + c, y1 + c, x0, x1)
    decreases y1 - y0
  {
    if y0 < y1 {
      RectShiftRows(g, h, y0, y1 - 1, x0, x1, c);
      assert RowSum(g, y1 - 1, x0, x1) == RowSum(h, y1 - 1 + c, x0, x1);
    }
  }

  /** Index i brought back onto 0..n-1 from at most one period away. */
  function Wrap(i: int, n: int): int {
    if i < 0 then i + n else if i >= n then i - n else i
  }

  lemma WrapIsRemainder(i: int, n: int)
    requires n >= 1 && -n <= i < 2 * n
    ensures i % n == Wrap(i, n)
  {
    if i < 0 {
      RemainderUnique(i, n, -1, i + n);
    } else if i >= n {
      RemainderUnique(i, n, 1, i - n);
    }
  }

  lemma RemainderUnique(i: int, n: int, q: int, r: int)
    requires n >= 1 && 0 <= r < n && i == q * n + r
    ensures i % n == r
  {
    Quotient(i, n, i / n, i % n, q, r);
  }

  lemma Quotient(i: int, n: int, q: int, r: int, q': int, r': int)
    requires n >= 1 && 0 <= r < n && 0 <= r' < n && i == n * q + r && i == q' * n + r'
    ensures r == r'
  {
    ProductBounds(n, q - q');
    assert n * (q - q') == r' - r;
  }

  lemma ProductBounds(n: int, k: int)
    requires n >= 1
    ensures k >= 1 ==> n * k >= n
    ensures k <= -1 ==> n * k <= -n
  {
  }

  /** Pulling a row periodically from one column away permutes it. */
  lemma RowPeriodic(g: CellMap, h: CellMap, y: int, y': int, nx: int, c: int)
    requires nx >= 1 && -1 <= c <= 1
    requires forall x :: 0 <= x < nx ==> g(y, x) == h(y', Wrap(x - c, nx))
    ensures RowSum(g, y, 0, nx) == RowSum(h, y', 0, nx)
  {
    if c == 0 {
      RowAgree(g, h, y, y', 0, nx);
    } else if c == 1 {
      RowSplitFirst(g, y, 0, nx);
      RowShift(g, h, y, y', 1, nx, -1);
    } else {
      RowSplitFirst(h, y', 0, nx);
      RowShift(g, h, y, y', 0, nx - 1, 1);
    }
  }

  /** Pulling a grid periodically along one lattice velocity permutes its cells: whatever is summed
      over the pulled grid has the sum it had before. */
  lemma RectPeriodic(g: CellMap, h: CellMap, ny: int, nx: int, cy: int, cx: int)
    requires ny >= 1 && nx >= 1 && -1 <= cy <= 1 && -1 <= cx <= 1
    requires forall y, x :: 0 <= y < ny && 0 <= x < nx ==> g(y, x) == h(Wrap(y - cy, ny), Wrap(x - cx, nx))
    ensures RectSum(g, 0, ny, 0, nx) == RectSum(h, 0, ny, 0, nx)
  {
    forall y | 0 <= y < ny ensures RowSum(g, y, 0, nx) == RowSum(h, Wrap(y - cy, ny), 0, nx) {
      RowPeriodic(g, h, y, Wrap(y - cy, ny), nx, cx);
    }
    if cy == 0 {
      RectShiftRows(g, h, 0, ny, 0, nx, 0);
    } else if cy == 1 {
      RectSplitFirst(g, 0, ny, 0, nx);
      RectShiftRows(g, h, 1, ny, 0, nx, -1);
    } else {
      RectSplitFirst(h, 0, ny, 0, nx);
      RectShiftRows(g, h, 0, ny - 1, 0, nx, 1);
    }
  }

  /** Shifting a function that vanishes outside the interior keeps its sum over the grid. */
  lemma RectShiftInterior(g: CellMap, h: CellMap, ny: int, nx: int, cy: int, cx: int)
    requires ny >= 1 && nx >= 1 && -1 <= cy <= 1 && -1 <= cx <= 1
    requires forall y, x :: !(1 <= y < ny - 1 && 1 <= x < nx - 1) ==> h(y, x) == 0.0
    requires forall y, x :: 0 <= y < ny && 0 <= x < nx ==> g(y, x) == h(y - cy, x - cx)
    ensures RectSum(g, 0, ny, 0, nx) == RectSum(h, 0, ny, 0, nx)
  {
    RectPeriodic(g, h, ny, nx, cy, cx);
  }
}
