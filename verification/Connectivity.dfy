/** Whether fluid joins the inlet column to the outlet column of a masked grid, decided by breadth-first
    search over rows 1 to ny - 2. */
module Connectivity {

  datatype Cell = Cell(y: int, x: int)

  /** A grid of ny rows and nx columns with a solid mask. */
  datatype Grid = Grid(ny: int, nx: int, solid: (int, int) -> bool) {
    /** A fluid cell off the bottom and top rows. */
    predicate Open(c: Cell) {
      1 <= c.y < ny - 1 && 0 <= c.x < nx && !solid(c.y, c.x)
    }

    ghost predicate Valid() { ny >= 0 && nx >= 1 }
  }

  predicate Adjacent(a: Cell, b: Cell) {
    || (a.y == b.y && (a.x == b.x + 1 || b.x == a.x + 1))
    || (a.x == b.x && (a.y == b.y + 1 || b.y == a.y + 1))
  }

  /** A four-connected path of open cells from the inlet column. */
  ghost predicate FromInlet(g: Grid, path: seq<Cell>) {
    && path != [] && path[0].x == 0
    && (forall i :: 0 <= i < |path| ==> g.Open(path[i]))
    && forall i :: 0 <= i < |path| - 1 ==> Adjacent(path[i], path[i + 1])
  }

  ghost predicate Reached(g: Grid, c: Cell) {
    exists path :: FromInlet(g, path) && path[|path| - 1] == c
  }

  /** Some path of open cells joins column 0 to column nx - 1. */
  ghost predicate Connected(g: Grid) {
    exists path: seq<Cell> :: FromInlet(g, path) && path[|path| - 1].x == g.nx - 1
  }

  /** Spelled out: the path runs over fluid in rows 1 to ny - 2, from the first column to the last, and every
      step goes to one of the four neighbours. */
  lemma ConnectedExactly(g: Grid)
    ensures Connected(g) <==> exists path: seq<Cell> :: Crosses(g, path)
  {
    forall path: seq<Cell> ensures Crosses(g, path) <==> FromInlet(g, path) && path[|path| - 1].x == g.nx - 1 {
      if FromInlet(g, path) {
        forall i | 0 < i < |path| ensures path[i] in Neighbours(path[i - 1]) {
          assert Adjacent(path[i - 1], path[i - 1 + 1]);
        }
      }
      if Crosses(g, path) {
        forall i | 0 <= i < |path| - 1 ensures Adjacent(path[i], path[i + 1]) {
          assert path[i + 1] in Neighbours(path[i + 1 - 1]);
        }
      }
    }
  }

  function Neighbours(c: Cell): set<Cell> {
    {Cell(c.y, c.x - 1), Cell(c.y, c.x + 1), Cell(c.y - 1, c.x), Cell(c.y + 1, c.x)}
  }

  ghost predicate Crosses(g: Grid, path: seq<Cell>) {
    && |path| > 0 && path[0].x == 0 && path[|path| - 1].x == g.nx - 1
    && (forall i :: 0 < i < |path| ==> path[i] in Neighbours(path[i - 1]))
    && forall c :: c in path ==> 1 <= c.y && c.y <= g.ny - 2 && 0 <= c.x && c.x <= g.nx - 1 && !g.solid(c.y, c.x)
  }

  lemma InletReached(g: Grid, c: Cell)
    requires g.Open(c) && c.x == 0
    ensures Reached(g, c)
  {
    assert FromInlet(g, [c]) && [c][|[c]| - 1] == c;
  }

  lemma NeighbourReached(g: Grid, a: Cell, b: Cell)
    requires Reached(g, a) && g.Open(b) && Adjacent(a, b)
    ensures Reached(g, b)
  {
    var path :| FromInlet(g, path) && path[|path| - 1] == a;
    var longer := path + [b];
    assert FromInlet(g, longer) && longer[|longer| - 1] == b;
  }

  /** All open cells, as a finite set. */
  ghost function OpenCells(g: Grid): set<Cell> {
    set y, x | 1 <= y < g.ny - 1 && 0 <= x < g.nx && g.Open(Cell(y, x)) :: Cell(y, x)
  }

  lemma OpenIsFinite(g: Grid, c: Cell)
    requires g.Open(c)
    ensures c in OpenCells(g)
  {
    assert c == Cell(c.y, c.x);
  }

  /** Everything reachable in one step from a cell has been seen, and the cell is not at the outlet. */
  ghost predicate Expanded(g: Grid, seen: set<Cell>, c: Cell) {
    c.x != g.nx - 1 && forall b :: g.Open(b) && Adjacent(c, b) ==> b in seen
  }

  /** The search invariant: what has been seen is reachable, the queue has been seen, the inlet has been
      seen, and whatever is seen but no longer queued has been expanded. */
  ghost predicate Searching(g: Grid, seen: set<Cell>, queue: seq<Cell>) {
    SoundlySeen(g, seen, queue) && forall c :: c in seen && c !in queue ==> Expanded(g, seen, c)
  }

  ghost predicate SoundlySeen(g: Grid, seen: set<Cell>, queue: seq<Cell>) {
    && (forall c :: c in seen ==> g.Open(c) && Reached(g, c))
    && (forall i :: 0 <= i < |queue| ==> queue[i] in seen)
    && forall c :: g.Open(c) && c.x == 0 ==> c in seen
  }

  /** With an empty queue every path has been followed to its end, so none reaches the outlet. */
  lemma {:induction false} PathIsSeen(g: Grid, seen: set<Cell>, path: seq<Cell>, i: nat)
    requires Searching(g, seen, []) && FromInlet(g, path) && i < |path|
    ensures path[i] in seen && path[i].x != g.nx - 1
    decreases i
  {
    hide Reached;
    if i > 0 {
      PathIsSeen(g, seen, path, i - 1);
      assert Expanded(g, seen, path[i - 1]);
    }
    assert Expanded(g, seen, path[i]);
  }

  lemma ExhaustedMeansDisconnected(g: Grid, seen: set<Cell>)
    requires Searching(g, seen, [])
    ensures !Connected(g)
  {
    hide Searching;
    forall path: seq<Cell> | FromInlet(g, path) ensures path[|path| - 1].x != g.nx - 1 {
      PathIsSeen(g, seen, path, |path| - 1);
    }
  }

  lemma OutletMeansConnected(g: Grid, c: Cell)
    requires Reached(g, c) && c.x == g.nx - 1
    ensures Connected(g)
  {
    var path :| FromInlet(g, path) && path[|path| - 1] == c;
  }

  /** A cell as one index, row by row. */
  function IndexOf(g: Grid, c: Cell): int { c.y * g.nx + c.x }

  lemma IndexDecodes(g: Grid, c: Cell)
    requires g.nx >= 1 && 0 <= c.x < g.nx && c.y >= 0
    ensures IndexOf(g, c) / g.nx == c.y && IndexOf(g, c) % g.nx == c.x
  {
    var i := IndexOf(g, c);
    Quotients(g.nx, c.y, c.x, i / g.nx, i % g.nx);
  }

  lemma Quotients(n: int, q: int, r: int, q': int, r': int)
    requires n >= 1 && 0 <= r < n && 0 <= r' < n && q * n + r == q' * n + r'
    ensures q == q' && r == r'
  {
    if q < q' {
      Times(q + 1, q', n);
    }
    if q' < q {
      Times(q' + 1, q, n);
    }
  }

  lemma Times(x: int, y: int, n: int)
    requires x <= y && n >= 1
    ensures x * n <= y * n
  {
  }

  lemma IndexSteps(g: Grid, y: int, x: int)
    ensures IndexOf(g, Cell(y - 1, x)) == IndexOf(g, Cell(y, x)) - g.nx
      && IndexOf(g, Cell(y + 1, x)) == IndexOf(g, Cell(y, x)) + g.nx
    ensures IndexOf(g, Cell(y, x - 1)) == IndexOf(g, Cell(y, x)) - 1
      && IndexOf(g, Cell(y, x + 1)) == IndexOf(g, Cell(y, x)) + 1
  {
  }

  /** The visited array marks exactly the cells seen. */
  ghost predicate Marks(g: Grid, visited: array2<bool>, seen: set<Cell>)
    reads visited
  {
    && visited.Length0 == g.ny && visited.Length1 == g.nx
    && forall y, x :: 0 <= y < g.ny && 0 <= x < g.nx ==> (visited[y, x] <==> Cell(y, x) in seen)
  }

  /** The frontier holds the indices of the queued cells. */
  ghost predicate Queues(g: Grid, frontier: seq<int>, queue: seq<Cell>) {
    |frontier| == |queue| && forall i :: 0 <= i < |queue| ==> frontier[i] == IndexOf(g, queue[i])
  }

  /** Like the search invariant, while one cell is still being expanded. */
  ghost predicate Expanding(g: Grid, seen: set<Cell>, queue: seq<Cell>, at: Cell) {
    SoundlySeen(g, seen, queue) && at in seen && OthersExpanded(g, seen, queue, at)
  }

  ghost predicate OthersExpanded(g: Grid, seen: set<Cell>, queue: seq<Cell>, at: Cell) {
    forall c :: c in seen && c !in queue && c != at ==> Expanded(g, seen, c)
  }

  lemma ExpandedMore(g: Grid, seen: set<Cell>, c: Cell, b: Cell)
    requires Expanded(g, seen, b)
    ensures Expanded(g, seen + {c}, b)
  {
  }

  lemma OthersStayExpanded(g: Grid, seen: set<Cell>, queue: seq<Cell>, at: Cell, c: Cell)
    requires OthersExpanded(g, seen, queue, at)
    ensures OthersExpanded(g, seen + {c}, queue + [c], at)
  {
    hide Expanded;
    forall b | b in seen + {c} && b !in queue + [c] && b != at ensures Expanded(g, seen + {c}, b) {
      assert b != c && b !in queue;
      ExpandedMore(g, seen, c, b);
    }
  }

  lemma SeenGrows(g: Grid, seen: set<Cell>, queue: seq<Cell>, c: Cell)
    requires SoundlySeen(g, seen, queue) && g.Open(c) && Reached(g, c)
    ensures SoundlySeen(g, seen + {c}, queue + [c])
  {
    hide Reached;
  }

  lemma ExpandingGrows(g: Grid, seen: set<Cell>, queue: seq<Cell>, at: Cell, c: Cell)
    requires Expanding(g, seen, queue, at) && g.Open(c) && Adjacent(at, c)
    ensures Expanding(g, seen + {c}, queue + [c], at)
  {
    NeighbourReached(g, at, c);
    SeenGrows(g, seen, queue, c);
    OthersStayExpanded(g, seen, queue, at, c);
    hide SoundlySeen, OthersExpanded, Reached, Adjacent;
  }

  /** Mark one neighbour and queue it, if it is fluid and not yet seen. */
  method Visit(g: Grid, visited: array2<bool>, frontier: seq<int>, y: int, x: int, index: int, ghost seen: set<Cell>,
               ghost queue: seq<Cell>, ghost at: Cell)
      returns (frontier': seq<int>, ghost seen': set<Cell>, ghost queue': seq<Cell>)
    requires g.Valid() && 1 <= y < g.ny - 1 && 0 <= x < g.nx && index == IndexOf(g, Cell(y, x))
    requires Marks(g, visited, seen) && Queues(g, frontier, queue) && Expanding(g, seen, queue, at)
      && Adjacent(at, Cell(y, x))
    modifies visited
    ensures Marks(g, visited, seen') && Queues(g, frontier', queue') && Expanding(g, seen', queue', at)
    ensures seen <= seen' && (g.Open(Cell(y, x)) ==> Cell(y, x) in seen')
    ensures |OpenCells(g) - seen'| + |queue'| == |OpenCells(g) - seen| + |queue|
  {
    hide Expanding, Queues;
    frontier', seen', queue' := frontier, seen, queue;
    if !g.solid(y, x) && !visited[y, x] {
      ghost var c := Cell(y, x);
      ExpandingGrows(g, seen, queue, at, c);
      OpenIsFinite(g, c);
      OneFewer(OpenCells(g), seen, c);
      QueueOneMore(g, frontier, queue, c);
      visited[y, x] := true;
      frontier' := frontier + [index];
      seen' := seen + {c};
      queue' := queue + [c];
    }
  }

  lemma OneFewer(all: set<Cell>, seen: set<Cell>, c: Cell)
    requires c in all && c !in seen
    ensures |all - (seen + {c})| == |all - seen| - 1
  {
    assert all - seen == (all - (seen + {c})) + {c};
  }

  lemma QueueOneMore(g: Grid, frontier: seq<int>, queue: seq<Cell>, c: Cell)
    requires Queues(g, frontier, queue)
    ensures Queues(g, frontier + [IndexOf(g, c)], queue + [c])
  {
  }

  /** After all four neighbours have been visited the cell is expanded. */
  lemma ExpansionDone(g: Grid, seen: set<Cell>, queue: seq<Cell>, at: Cell)
    requires Expanding(g, seen, queue, at) && at.x != g.nx - 1
    requires forall b :: g.Open(b) && Adjacent(at, b) ==> b in seen
    ensures Searching(g, seen, queue)
  {
    hide SoundlySeen;
    assert Expanded(g, seen, at);
  }

  lemma ExpansionStarts(g: Grid, seen: set<Cell>, queue: seq<Cell>)
    requires Searching(g, seen, queue) && queue != []
    ensures Expanding(g, seen, queue[1..], queue[0]) && g.Open(queue[0]) && Reached(g, queue[0])
  {
    hide Expanded, Reached;
    assert queue == [queue[0]] + queue[1..];
  }

  /** Visit the four neighbours of a cell that is not at the outlet. */
  method Expand(g: Grid, visited: array2<bool>, frontier: seq<int>, y: int, x: int, index: int, ghost seen: set<Cell>,
                ghost queue: seq<Cell>)
      returns (frontier': seq<int>, ghost seen': set<Cell>, ghost queue': seq<Cell>)
    requires g.Valid() && g.Open(Cell(y, x)) && x != g.nx - 1 && index == IndexOf(g, Cell(y, x))
    requires Marks(g, visited, seen) && Queues(g, frontier, queue) && Expanding(g, seen, queue, Cell(y, x))
    modifies visited
    ensures Marks(g, visited, seen') && Queues(g, frontier', queue') && Searching(g, seen', queue')
    ensures |OpenCells(g) - seen'| + |queue'| == |OpenCells(g) - seen| + |queue|
  {
    hide Expanding, Queues, Searching, Marks, IndexOf;
    ghost var at := Cell(y, x);
    IndexSteps(g, y, x);
    frontier', seen', queue' := frontier, seen, queue;
    if x > 0 {
      frontier', seen', queue' := Visit(g, visited, frontier', y, x - 1, index - 1, seen', queue', at);
    }
    if x + 1 < g.nx {
      frontier', seen', queue' := Visit(g, visited, frontier', y, x + 1, index + 1, seen', queue', at);
    }
    if y > 1 {
      frontier', seen', queue' := Visit(g, visited, frontier', y - 1, x, index - g.nx, seen', queue', at);
    }
    if y + 1 < g.ny - 1 {
      frontier', seen', queue' := Visit(g, visited, frontier', y + 1, x, index + g.nx, seen', queue', at);
    }
    FourNeighbours(g, seen', y, x);
    ExpansionDone(g, seen', queue', at);
  }

  lemma FourNeighbours(g: Grid, seen: set<Cell>, y: int, x: int)
    requires g.Open(Cell(y, x - 1)) ==> Cell(y, x - 1) in seen
    requires g.Open(Cell(y, x + 1)) ==> Cell(y, x + 1) in seen
    requires g.Open(Cell(y - 1, x)) ==> Cell(y - 1, x) in seen
    requires g.Open(Cell(y + 1, x)) ==> Cell(y + 1, x) in seen
    ensures forall b :: g.Open(b) && Adjacent(Cell(y, x), b) ==> b in seen
  {
    forall b | g.Open(b) && Adjacent(Cell(y, x), b) ensures b in seen {
      assert b in {Cell(y, x - 1), Cell(y, x + 1), Cell(y - 1, x), Cell(y + 1, x)};
    }
  }

  /** Queue the open cells of the inlet column. */
  method Begin(g: Grid, visited: array2<bool>)
      returns (frontier: seq<int>, ghost seen: set<Cell>, ghost queue: seq<Cell>)
    requires g.Valid() && g.ny >= 3 && Marks(g, visited, {})
    modifies visited
    ensures Marks(g, visited, seen) && Queues(g, frontier, queue) && Searching(g, seen, queue)
  {
    hide Reached;
    frontier, seen, queue := [], {}, [];
    for y := 1 to g.ny - 1
      invariant Marks(g, visited, seen) && Queues(g, frontier, queue)
      invariant forall c :: c in seen ==> g.Open(c) && Reached(g, c) && c in queue
      invariant forall i :: 0 <= i < |queue| ==> queue[i] in seen
      invariant forall c :: g.Open(c) && c.x == 0 && c.y < y ==> c in seen
    {
      if !g.solid(y, 0) {
        ghost var c := Cell(y, 0);
        InletReached(g, c);
        visited[y, 0] := true;
        frontier := frontier + [y * g.nx];
        seen := seen + {c};
        queue := queue + [c];
      }
    }
  }

  /** The search answers exactly whether fluid joins inlet to outlet, for every mask. */
  method FluidConnectsInletToOutlet(g: Grid) returns (r: bool)
    requires g.Valid()
    ensures r <==> Connected(g)
  {
    hide Marks, Queues, Searching, Expanding, Reached;
    if g.ny < 3 {
      TooFlat(g);
      return false;
    }
    var visited := new bool[g.ny, g.nx]((y, x) => false);
    NothingMarked(g, visited);
    var frontier, seen, queue := Begin(g, visited);
    while frontier != []
      invariant Marks(g, visited, seen) && Queues(g, frontier, queue) && Searching(g, seen, queue)
      decreases |OpenCells(g) - seen| + |queue|
    {
      var index := frontier[0];
      QueueHead(g, frontier, queue);
      ExpansionStarts(g, seen, queue);
      IndexDecodes(g, queue[0]);
      frontier := frontier[1..];
      var y, x := index / g.nx, index % g.nx;
      if x == g.nx - 1 {
        OutletMeansConnected(g, queue[0]);
        return true;
      }
      frontier, seen, queue := Expand(g, visited, frontier, y, x, index, seen, queue[1..]);
    }
    QueueEmpty(g, frontier, queue);
    ExhaustedMeansDisconnected(g, seen);
    return false;
  }

  lemma TooFlat(g: Grid)
    requires g.ny < 3
    ensures !Connected(g)
  {
    forall path: seq<Cell> ensures !FromInlet(g, path) {
      if path != [] {
        assert !g.Open(path[0]);
      }
    }
  }

  lemma NothingMarked(g: Grid, visited: array2<bool>)
    requires visited.Length0 == g.ny && visited.Length1 == g.nx
    requires forall y, x :: 0 <= y < g.ny && 0 <= x < g.nx ==> !visited[y, x]
    ensures Marks(g, visited, {})
  {
  }

  lemma QueueHead(g: Grid, frontier: seq<int>, queue: seq<Cell>)
    requires Queues(g, frontier, queue) && frontier != []
    ensures queue != [] && frontier[0] == IndexOf(g, queue[0]) && Queues(g, frontier[1..], queue[1..])
  {
  }

  lemma QueueEmpty(g: Grid, frontier: seq<int>, queue: seq<Cell>)
    requires Queues(g, frontier, queue) && frontier == []
    ensures queue == []
  {
  }
}
