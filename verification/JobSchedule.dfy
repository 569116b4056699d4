/** When admitted jobs run: a first-in first-out semaphore of fixed width, a timeout on every started job,
    and steps that take no time themselves. Time passes only when nothing can start and no timeout is
    overdue. */
module JobSchedule {
  import opened Collections
  import opened JobRecords
  import opened SolveJobs
  import opened Wrappers

  /** Jobs are numbered by admission. `ahead` is the number of jobs that counted as unfinished when each
      one was admitted; the first `|starts|` jobs have started; `ends` holds when those that are over ended. */
  datatype Floor = Floor(now: Time, admitted: seq<Time>, ahead: seq<nat>, starts: seq<Time>, ends: seq<Option<Time>>)

  datatype Move = Admit(ahead: nat) | StartNext | Finish(job: nat) | Tick(to: Time)

  /** The jobs among the first i that are not over at a time. */
  ghost function Busy(f: Floor, i: nat, t: Time): set<nat>
    requires |f.ends| == |f.starts|
  {
    set k | 0 <= k < i && (k >= |f.ends| || f.ends[k] == None || f.ends[k].value > t)
  }

  ghost function Unfinished(f: Floor): set<nat> {
    set k | 0 <= k < |f.admitted| && (k >= |f.ends| || f.ends[k] == None)
  }

  ghost function Holding(f: Floor): set<nat> {
    set k | 0 <= k < |f.ends| && f.ends[k] == None
  }

  ghost predicate Enabled(f: Floor, m: Move, width: nat, timeout: Time)
    requires |f.ends| == |f.starts|
  {
    match m
    // A job that has given up its slot may still count as unfinished, until its failure has been recorded.
    case Admit(ahead) => ahead >= |Unfinished(f)|
    case StartNext => |f.starts| < |f.admitted| && |Holding(f)| < width
    case Finish(job) => job < |f.ends| && f.ends[job] == None
    case Tick(to) =>
      && f.now <= to && (|f.starts| < |f.admitted| ==> |Holding(f)| >= width)
      && forall k :: k in Holding(f) ==> to <= f.starts[k] + timeout
  }

  function Step(f: Floor, m: Move): Floor {
    match m
    case Admit(ahead) => f.(admitted := f.admitted + [f.now], ahead := f.ahead + [ahead])
    case StartNext => f.(starts := f.starts + [f.now], ends := f.ends + [None])
    case Finish(job) => if job < |f.ends| then f.(ends := f.ends[job := Some(f.now)]) else f
    case Tick(to) => f.(now := to)
  }

  ghost predicate LegalRun(f: Floor, moves: seq<Move>, width: nat, timeout: Time)
    decreases |moves|
  {
    |f.ends| == |f.starts| && (moves != [] ==>
      Enabled(f, moves[0], width, timeout) && LegalRun(Step(f, moves[0]), moves[1..], width, timeout))
  }

  ghost function RunMoves(f: Floor, moves: seq<Move>): Floor
    decreases |moves|
  {
    if moves == [] then f else RunMoves(Step(f, moves[0]), moves[1..])
  }

  function Empty(now: Time): Floor { Floor(now, [], [], [], []) }

  /** Times are in order, and every started job keeps its timeout. */
  ghost predicate Timed(f: Floor, timeout: Time) {
    && |f.ends| == |f.starts| <= |f.admitted| == |f.ahead|
    && (forall k :: 0 <= k < |f.admitted| ==> f.admitted[k] <= f.now)
    && (forall i, k :: 0 <= i <= k < |f.admitted| ==> f.admitted[i] <= f.admitted[k])
    && (forall k :: 0 <= k < |f.starts| ==> f.starts[k] <= f.now)
    && (forall k :: 0 <= k < |f.ends| ==>
          if f.ends[k].Some? then f.starts[k] <= f.ends[k].value <= f.now && f.ends[k].value <= f.starts[k] + timeout
          else f.now <= f.starts[k] + timeout)
  }

  /** Job i could have started by time t, as far as its own admission and its predecessor go, but did not. */
  ghost predicate Waiting(f: Floor, i: nat, t: Time)
    requires |f.ends| == |f.starts| <= |f.admitted|
  {
    && i <= |f.starts| && i < |f.admitted| && f.admitted[i] <= t && (i > 0 ==> f.starts[i - 1] <= t)
    && t < if i < |f.starts| then f.starts[i] else f.now
  }

  /** A job waits only while the jobs before it fill the semaphore. */
  ghost predicate Conserving(f: Floor, width: nat)
    requires |f.ends| == |f.starts| <= |f.admitted|
  {
    forall i, t :: Waiting(f, i, t) ==> |Busy(f, i, t)| >= width
  }

  /** Each job was admitted behind at least the jobs that were then unfinished. */
  ghost predicate Counted(f: Floor)
    requires |f.ends| == |f.starts| <= |f.admitted| == |f.ahead|
  {
    forall i :: 0 <= i < |f.admitted| ==> |Busy(f, i, f.admitted[i])| <= f.ahead[i]
  }

  ghost predicate FloorSound(f: Floor, width: nat, timeout: Time) {
    Timed(f, timeout) && Conserving(f, width) && Counted(f) && |Holding(f)| <= width
  }

  lemma BusyShrinks(f: Floor, m: Move, i: nat, t: Time)
    requires |f.ends| == |f.starts| && i <= |f.admitted| && (m.Finish? ==> m.job < |f.ends| && f.ends[m.job] == None)
    ensures |Step(f, m).ends| == |Step(f, m).starts|
    ensures Busy(Step(f, m), i, t) <= Busy(f, i, t)
    ensures t < f.now || !m.Finish? ==> Busy(Step(f, m), i, t) == Busy(f, i, t)
  {
  }

  lemma TimedStep(f: Floor, m: Move, width: nat, timeout: Time)
    requires Timed(f, timeout) && Enabled(f, m, width, timeout) && timeout > 0
    ensures Timed(Step(f, m), timeout)
  {
    if m.Tick? {
      forall k | 0 <= k < |f.ends| && f.ends[k] == None ensures m.to <= f.starts[k] + timeout {
        assert k in Holding(f);
      }
    }
  }

  lemma ConservingStep(f: Floor, m: Move, width: nat, timeout: Time)
    requires Timed(f, timeout) && Conserving(f, width) && Enabled(f, m, width, timeout)
    requires Timed(Step(f, m), timeout)
    ensures Conserving(Step(f, m), width)
  {
    var g := Step(f, m);
    forall i, t | Waiting(g, i, t) ensures |Busy(g, i, t)| >= width {
      ConservingAt(f, m, width, timeout, i, t);
    }
  }

  lemma ConservingAt(f: Floor, m: Move, width: nat, timeout: Time, i: nat, t: Time)
    requires Timed(f, timeout) && Conserving(f, width) && Enabled(f, m, width, timeout)
    requires Timed(Step(f, m), timeout)
    requires Waiting(Step(f, m), i, t)
    ensures |Busy(Step(f, m), i, t)| >= width
  {
    hide Busy, Holding;
    BusyShrinks(f, m, i, t);
    if m.Tick? && i == |f.starts| && t >= f.now {
      HoldingBusy(f, t);
      SubsetCardinality(Holding(f), Busy(Step(f, m), i, t));
    }
  }

  lemma HoldingBusy(f: Floor, t: Time)
    requires |f.ends| == |f.starts|
    ensures Holding(f) <= Busy(f, |f.starts|, t)
  {
  }

  lemma CountedStep(f: Floor, m: Move, width: nat, timeout: Time)
    requires Timed(f, timeout) && Counted(f) && Enabled(f, m, width, timeout) && Timed(Step(f, m), timeout)
    ensures Counted(Step(f, m))
  {
    var g := Step(f, m);
    forall i | 0 <= i < |g.admitted| ensures |Busy(g, i, g.admitted[i])| <= g.ahead[i] {
      if i < |f.admitted| {
        BusyShrinks(f, m, i, g.admitted[i]);
        SubsetCardinality(Busy(g, i, g.admitted[i]), Busy(f, i, g.admitted[i]));
      } else {
        SubsetCardinality(Busy(g, i, g.admitted[i]), Unfinished(f));
      }
    }
  }

  lemma HoldingStep(f: Floor, m: Move, width: nat, timeout: Time)
    requires |f.ends| == |f.starts| && |Holding(f)| <= width && Enabled(f, m, width, timeout)
    ensures |Holding(Step(f, m))| <= width
  {
    if m.StartNext? {
      assert Holding(Step(f, m)) == Holding(f) + {|f.ends|};
    } else {
      SubsetCardinality(Holding(Step(f, m)), Holding(f));
    }
  }

  /** The schedule never stops: always a job can start, or one is due to end, or time can go on. */
  lemma NeverStuck(f: Floor, width: nat, timeout: Time)
    requires FloorSound(f, width, timeout)
    ensures exists m: Move ::
      Enabled(f, m, width, timeout) && (m.StartNext? || (m.Finish? && f.now == f.starts[m.job] + timeout)
                                        || m == Tick(f.now + 1))
  {
    if |f.starts| < |f.admitted| && |Holding(f)| < width {
      assert Enabled(f, StartNext, width, timeout);
    } else if k :| k in Holding(f) && f.now == f.starts[k] + timeout {
      assert Enabled(f, Finish(k), width, timeout);
    } else {
      assert Enabled(f, Tick(f.now + 1), width, timeout);
    }
  }

  /** The invariants hold over every run. */
  lemma {:induction false} RunKeepsFloor(f: Floor, moves: seq<Move>, width: nat, timeout: Time)
    requires FloorSound(f, width, timeout) && LegalRun(f, moves, width, timeout) && timeout > 0
    ensures FloorSound(RunMoves(f, moves), width, timeout)
    decreases |moves|
  {
    hide Busy, Conserving, Counted, Enabled, Holding;
    if moves != [] {
      TimedStep(f, moves[0], width, timeout);
      ConservingStep(f, moves[0], width, timeout);
      CountedStep(f, moves[0], width, timeout);
      HoldingStep(f, moves[0], width, timeout);
      RunKeepsFloor(Step(f, moves[0]), moves[1..], width, timeout);
    }
  }

  /** Batches: if `rank` is at least a batch below `m`, its batch number is at least one less. */
  lemma Batches(rank: nat, m: nat, width: nat, timeout: Time)
    requires width > 0 && timeout > 0 && rank + width <= m
    ensures (rank / width + 1) * timeout <= m / width * timeout
  {
    var q, p := rank / width, m / width;
    QuotientBounds(rank, width);
    QuotientBounds(m, width);
    if p <= q {
      Scaled(p, q, width);
    }
    Scaled(q + 1, p, timeout);
  }

  lemma Scaled(x: int, y: int, k: int)
    requires x <= y && k >= 0
    ensures x * k <= y * k
  {
  }

  lemma QuotientBounds(x: nat, width: nat)
    requires width > 0
    ensures x / width * width <= x < x / width * width + width
  {
    assert x == x / width * width + x % width;
  }

  /** Job j starts no later than t, or t is still to come. */
  ghost predicate StartsBy(f: Floor, j: nat, t: Time) {
    if j < |f.starts| then f.starts[j] <= t else f.now <= t
  }

  lemma QuotientScaled(x: nat, y: nat, width: nat, timeout: Time)
    requires width > 0 && timeout > 0 && x <= y
    ensures x / width * timeout <= y / width * timeout
  {
    QuotientBounds(x, width);
    QuotientBounds(y, width);
    if y / width < x / width {
      Scaled(y / width + 1, x / width, width);
    }
    Scaled(x / width, y / width, timeout);
  }

  /** If width jobs before j are still busy at t and k is the first of them, then at t0 <= t job k had at
      least a batch fewer jobs ahead of it than j. */
  lemma AheadOfLeast(f: Floor, j: nat, k: nat, t0: Time, t: Time, width: nat)
    requires |f.ends| == |f.starts| && t0 <= t && |Busy(f, j, t)| >= width
    requires k in Busy(f, j, t) && forall x :: x in Busy(f, j, t) ==> k <= x
    ensures |Busy(f, k, t0)| + width <= |Busy(f, j, t0)| && k < j
  {
    var ahead, behind := Busy(f, k, t0), Busy(f, j, t);
    assert ahead !! behind;
    assert |ahead + behind| == |ahead| + |behind|;
    SubsetCardinality(ahead + behind, Busy(f, j, t0));
  }

  lemma PredecessorStarted(f: Floor, timeout: Time, j: nat, t: Time)
    requires Timed(f, timeout) && j < |f.admitted| && f.admitted[j] <= t && !StartsBy(f, j, t)
    requires j > 0 ==> StartsBy(f, j - 1, t)
    ensures Waiting(f, j, t) && t < f.now
  {
  }

  lemma OverBy(f: Floor, timeout: Time, j: nat, k: nat, start: Time, t: Time)
    requires Timed(f, timeout) && StartsBy(f, k, start) && start + timeout <= t < f.now && timeout > 0
    ensures k !in Busy(f, j, t)
  {
  }

  lemma StartsLater(f: Floor, j: nat, t: Time, t': Time)
    requires StartsBy(f, j, t) && t <= t'
    ensures StartsBy(f, j, t')
  {
  }

  lemma FewerAhead(f: Floor, i: nat, j: nat, t: Time)
    requires |f.ends| == |f.starts| && i <= j
    ensures |Busy(f, i, t)| <= |Busy(f, j, t)|
  {
    SubsetCardinality(Busy(f, i, t), Busy(f, j, t));
  }

  lemma Distributed(q: int, timeout: Time)
    ensures (q + 1) * timeout == q * timeout + timeout
  {
  }

  /** If width jobs before j are still busy at t, the first of them was too far ahead to be. */
  lemma NotSoBusy(f: Floor, width: nat, timeout: Time, j: nat, t0: Time, t: Time)
    requires Timed(f, timeout) && width > 0 && timeout > 0 && t0 <= t < f.now
    requires t == t0 + |Busy(f, j, t0)| / width * timeout
    requires forall k :: 0 <= k < j ==> StartsBy(f, k, t0 + |Busy(f, k, t0)| / width * timeout)
    ensures |Busy(f, j, t)| < width
  {
    hide StartsBy, Busy;
    if |Busy(f, j, t)| >= width {
      var k := Least(Busy(f, j, t));
      AheadOfLeast(f, j, k, t0, t, width);
      var rank := |Busy(f, k, t0)|;
      Batches(rank, |Busy(f, j, t0)|, width, timeout);
      Distributed(rank / width, timeout);
      OverBy(f, timeout, j, k, t0 + rank / width * timeout, t);
      assert false;
    }
  }

  /** The heart of the bound. Fix a moment t0 by which job j has been admitted, and let m be the number
      of jobs before j that are not over at t0. Then j starts within m / width timeouts of t0. */
  lemma {:induction false} StartsWithin(f: Floor, width: nat, timeout: Time, j: nat, t0: Time)
    requires FloorSound(f, width, timeout) && width > 0 && timeout > 0
    requires j < |f.admitted| && f.admitted[j] <= t0
    ensures StartsBy(f, j, t0 + |Busy(f, j, t0)| / width * timeout)
    decreases j
  {
    hide Counted, Busy, StartsBy, Waiting;
    var m := |Busy(f, j, t0)|;
    var t := t0 + m / width * timeout;
    QuotientScaled(0, m, width, timeout);
    forall k | 0 <= k < j ensures StartsBy(f, k, t0 + |Busy(f, k, t0)| / width * timeout) {
      StartsWithin(f, width, timeout, k, t0);
    }
    if j > 0 {
      FewerAhead(f, j - 1, j, t0);
      QuotientScaled(|Busy(f, j - 1, t0)|, m, width, timeout);
      StartsLater(f, j - 1, t0 + |Busy(f, j - 1, t0)| / width * timeout, t);
    }
    if !StartsBy(f, j, t) {
      PredecessorStarted(f, timeout, j, t);
      NotSoBusy(f, width, timeout, j, t0, t);
    }
  }

  /** The promise is kept. A job admitted behind n unfinished jobs starts within n / width timeouts, and is
      over one timeout later, so its retention ends by the expiry promised at admission. Whatever has not
      happened yet is not yet due. */
  lemma PromiseKept(f: Floor, limits: Limits, i: nat)
    requires limits.Valid() && FloorSound(f, limits.concurrency, limits.timeout) && i < |f.admitted|
    ensures var start := f.admitted[i] + f.ahead[i] / limits.concurrency * limits.timeout;
      && StartsBy(f, i, start)
      && (if i < |f.ends| && f.ends[i].Some? then
            f.ends[i].value <= start + limits.timeout
            && f.ends[i].value + TERMINAL_RETENTION <= Promise(limits, f.ahead[i], f.admitted[i])
          else f.now <= start + limits.timeout)
  {
    hide Conserving, Busy;
    var width, timeout := limits.concurrency, limits.timeout;
    var ahead := |Busy(f, i, f.admitted[i])|;
    StartsWithin(f, width, timeout, i, f.admitted[i]);
    QuotientScaled(ahead, f.ahead[i], width, timeout);
    Distributed(f.ahead[i] / width, timeout);
    StartsLater(f, i, f.admitted[i] + ahead / width * timeout, f.admitted[i] + f.ahead[i] / width * timeout);
  }

  /** The same over every run from an empty floor, for every arrival pattern and all run times; and never
      more jobs run than the semaphore is wide. */
  lemma EveryRunKeepsPromises(now: Time, moves: seq<Move>, limits: Limits, i: nat)
    requires limits.Valid() && LegalRun(Empty(now), moves, limits.concurrency, limits.timeout)
    requires i < |RunMoves(Empty(now), moves).admitted|
    ensures var f := RunMoves(Empty(now), moves);
      && |f.ends| == |f.starts| && |f.admitted| == |f.ahead| && |Holding(f)| <= limits.concurrency
      && StartsBy(f, i, f.admitted[i] + f.ahead[i] / limits.concurrency * limits.timeout)
      && (i < |f.ends| && f.ends[i].Some? ==>
        f.ends[i].value + TERMINAL_RETENTION <= Promise(limits, f.ahead[i], f.admitted[i]))
  {
    hide RunMoves, Promise, StartsBy, LegalRun;
    RunKeepsFloor(Empty(now), moves, limits.concurrency, limits.timeout);
    PromiseKept(RunMoves(Empty(now), moves), limits, i);
  }
}
