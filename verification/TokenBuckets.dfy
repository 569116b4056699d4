/** A bounded table of per-client token buckets that forgets idle clients, and the unbounded limiter it
    stands for. Times are real numbers; rounding is not modelled. */
module TokenBuckets {
  import opened Reals
  import opened Wrappers

  type Client = nat

  datatype Bucket = Bucket(tokens: real, updatedAt: real, expiresAt: real)

  type Table = map<Client, Bucket>

  /** A rate: so many requests per window, and how many clients the table may hold. */
  datatype Rate = Rate(capacity: nat, window: real, maxClients: nat) {
    ghost predicate Valid() { window > 0.0 && maxClients >= 1 }
  }

  datatype Decision = Admitted | Disabled | TableFull | Limited(retryAfter: int)

  /** Tokens earned over a time. */
  function Refill(rate: Rate, elapsed: real): real
    requires rate.window > 0.0
  {
    elapsed * rate.capacity as real / rate.window
  }

  /** The time it takes to earn tokens. */
  function Wait(rate: Rate, missing: real): real
    requires rate.capacity > 0
  {
    missing * rate.window / rate.capacity as real
  }

  /** The wait until a bucket with these tokens holds one again. */
  function Shortfall(rate: Rate, tokens: real): real
    requires rate.capacity > 0
  {
    Wait(rate, 1.0 - tokens)
  }

  function RetryAfter(seconds: real): int { if Ceiling(seconds) > 1 then Ceiling(seconds) else 1 }

  function Pruned(table: Table, instant: real): Table {
    map c | c in table && instant < table[c].expiresAt :: table[c]
  }

  /** The bucket a request finds, brought up to date. */
  function Refreshed(rate: Rate, bucket: Option<Bucket>, instant: real): Bucket
    requires rate.window > 0.0
  {
    match bucket
    case None => Bucket(rate.capacity as real, instant, instant + rate.window)
    case Some(b) =>
      Bucket(Min(rate.capacity as real, b.tokens + Refill(rate, instant - b.updatedAt)), instant, instant + rate.window)
  }

  function Lookup(table: Table, c: Client): Option<Bucket> { if c in table then Some(table[c]) else None }

  /** Take a token, or say how long to wait. */
  function Charge(rate: Rate, b: Bucket): (Bucket, Decision)
    requires rate.capacity > 0
  {
    if b.tokens < 1.0 then (b, Limited(RetryAfter(Shortfall(rate, b.tokens))))
      else (b.(tokens := b.tokens - 1.0), Admitted)
  }

  /** One request against the bounded, pruned table. */
  function Consumed(rate: Rate, table: Table, c: Client, instant: real): (Table, Decision)
    requires rate.Valid()
  {
    var p := Pruned(table, instant);
    if rate.capacity == 0 then (p, Disabled)
    else if c !in p && |p| >= rate.maxClients then (p, TableFull)
    else
      var (b, d) := Charge(rate, Refreshed(rate, Lookup(p, c), instant));
      (p[c := b], d)
  }

  /** One request against the limiter that never forgets anybody. */
  function Unpruned(rate: Rate, table: Table, c: Client, instant: real): (Table, Decision)
    requires rate.Valid()
  {
    if rate.capacity == 0 then (table, Disabled)
    else
      var (b, d) := Charge(rate, Refreshed(rate, Lookup(table, c), instant));
      (table[c := b], d)
  }

  datatype Request = Request(client: Client, instant: real)

  /** Requests come in order of time, none before a start. */
  ghost predicate InOrder(requests: seq<Request>, start: real) {
    && (forall i :: 0 <= i < |requests| ==> start <= requests[i].instant)
    && forall i, j :: 0 <= i <= j < |requests| ==> requests[i].instant <= requests[j].instant
  }

  function Decisions(rate: Rate, table: Table, requests: seq<Request>): (r: seq<Decision>)
    requires rate.Valid()
    ensures |r| == |requests|
    decreases |requests|
  {
    if requests == [] then []
    else
      var (t, d) := Consumed(rate, table, requests[0].client, requests[0].instant);
      [d] + Decisions(rate, t, requests[1..])
  }

  /** The table after a run of requests. */
  ghost function TableAfter(rate: Rate, table: Table, requests: seq<Request>): Table
    requires rate.Valid()
    decreases |requests|
  {
    if requests == [] then table
    else TableAfter(rate, Consumed(rate, table, requests[0].client, requests[0].instant).0, requests[1..])
  }

  lemma {:induction false} RunExtends(rate: Rate, table: Table, requests: seq<Request>, q: Request)
    requires rate.Valid()
    ensures var t := TableAfter(rate, table, requests);
      && TableAfter(rate, table, requests + [q]) == Consumed(rate, t, q.client, q.instant).0
      && Decisions(rate, table, requests + [q])
        == Decisions(rate, table, requests) + [Consumed(rate, t, q.client, q.instant).1]
    decreases |requests|
  {
    hide Consumed;
    if requests == [] {
      assert [q][1..] == [] && [] + [q] == [q];
      var t := Consumed(rate, table, q.client, q.instant).0;
      assert TableAfter(rate, t, []) == t && Decisions(rate, t, []) == [];
    } else {
      var t := Consumed(rate, table, requests[0].client, requests[0].instant).0;
      RunExtends(rate, t, requests[1..], q);
      assert (requests + [q])[1..] == requests[1..] + [q];
      assert (requests + [q])[0] == requests[0];
    }
  }

  /** The unbounded limiter's decisions, where requests refused because the bounded table was full are
      treated as never made. */
  function UnprunedDecisions(rate: Rate, table: Table, requests: seq<Request>,
                             observed: seq<Decision>): (r: seq<Decision>)
    requires rate.Valid() && |observed| == |requests|
    ensures |r| == |requests|
    decreases |requests|
  {
    if requests == [] then []
    else if observed[0] == TableFull then [TableFull] + UnprunedDecisions(rate, table, requests[1..], observed[1..])
    else
      var (t, d) := Unpruned(rate, table, requests[0].client, requests[0].instant);
      [d] + UnprunedDecisions(rate, t, requests[1..], observed[1..])
  }

  /** A bucket as requests leave it. */
  ghost predicate SoundBucket(rate: Rate, b: Bucket, now: real) {
    && 0.0 <= b.tokens <= rate.capacity as real && b.updatedAt <= now && b.expiresAt == b.updatedAt + rate.window
  }

  ghost predicate SoundTable(rate: Rate, table: Table, now: real) {
    forall c :: c in table ==> SoundBucket(rate, table[c], now)
  }

  /** The pruned table holds what the unbounded one does, except for clients idle for a whole window. */
  ghost predicate Simulates(rate: Rate, table: Table, full: Table, now: real) {
    && SoundTable(rate, full, now)
    && (forall c :: c in table ==> c in full && full[c] == table[c])
    && forall c :: c in full && c !in table ==> full[c].expiresAt <= now
  }

  lemma RefillLaws(rate: Rate, x: real, y: real)
    requires rate.Valid()
    ensures Refill(rate, x + y) == Refill(rate, x) + Refill(rate, y)
    ensures Refill(rate, rate.window) == rate.capacity as real
    ensures x >= 0.0 ==> Refill(rate, x) >= 0.0
  {
    RefillNonnegative(rate, x);
  }

  lemma RefillNonnegative(rate: Rate, x: real)
    requires rate.Valid()
    ensures x >= 0.0 ==> Refill(rate, x) >= 0.0
  {
    if x >= 0.0 {
      assert x * rate.capacity as real >= 0.0;
      QuotientNonnegative(x * rate.capacity as real, rate.window);
    }
  }

  lemma QuotientNonnegative(x: real, y: real)
    requires x >= 0.0 && y > 0.0
    ensures x / y >= 0.0
  {
  }

  /** A bucket idle for a window is full again, so forgetting it changes nothing. */
  lemma IdleIsFull(rate: Rate, b: Bucket, now: real, instant: real)
    requires rate.Valid() && SoundBucket(rate, b, now) && b.expiresAt <= instant
    ensures Refreshed(rate, Some(b), instant) == Refreshed(rate, None, instant)
  {
    hide Refill;
    var elapsed := instant - b.updatedAt;
    RefillLaws(rate, rate.window, elapsed - rate.window);
    RefillNonnegative(rate, elapsed - rate.window);
  }

  lemma RefreshedSound(rate: Rate, b: Option<Bucket>, now: real, instant: real)
    requires rate.Valid() && now <= instant && (b.Some? ==> SoundBucket(rate, b.value, now))
    ensures SoundBucket(rate, Refreshed(rate, b, instant), instant)
  {
    hide Refill;
    if b.Some? {
      RefillNonnegative(rate, instant - b.value.updatedAt);
    }
  }

  /** One request: the bounded table and the unbounded limiter decide alike, unless the table is full. */
  lemma StepSimulates(rate: Rate, table: Table, full: Table, c: Client, now: real, instant: real)
    requires rate.Valid() && Simulates(rate, table, full, now) && now <= instant
    ensures var (t, d) := Consumed(rate, table, c, instant);
      var (u, e) := Unpruned(rate, full, c, instant);
      if d == TableFull then Simulates(rate, t, full, instant) else d == e && Simulates(rate, t, u, instant)
  {
    hide Refreshed, Shortfall, RetryAfter;
    var p := Pruned(table, instant);
    if c in full {
      RefreshedSound(rate, Some(full[c]), now, instant);
      if c !in p {
        IdleIsFull(rate, full[c], now, instant);
      }
    }
    RefreshedSound(rate, None, now, instant);
  }

  /** Eviction is unobservable: over every run, the pruned table answers exactly as the limiter that
      never forgets, except where it is full. */
  lemma {:induction false} EvictionUnobservable(rate: Rate, table: Table, full: Table, requests: seq<Request>,
                                                now: real)
    requires rate.Valid() && Simulates(rate, table, full, now) && InOrder(requests, now)
    ensures UnprunedDecisions(rate, full, requests, Decisions(rate, table, requests))
      == Decisions(rate, table, requests)
    decreases |requests|
  {
    hide Consumed, Unpruned, Simulates;
    if requests != [] {
      var q := requests[0];
      StepSimulates(rate, table, full, q.client, now, q.instant);
      var t := Consumed(rate, table, q.client, q.instant).0;
      var u := if Consumed(rate, table, q.client, q.instant).1 == TableFull
               then full
               else Unpruned(rate, full, q.client, q.instant).0;
      EvictionUnobservable(rate, t, u, requests[1..], q.instant);
      var d := Decisions(rate, table, requests);
      assert d[1..] == Decisions(rate, t, requests[1..]);
    }
  }

  /** How many requests of a client were admitted. */
  function Admissions(requests: seq<Request>, decisions: seq<Decision>, c: Client): nat
    requires |requests| == |decisions|
  {
    if requests == [] then 0
    else
      (if requests[0].client == c && decisions[0] == Admitted then 1 else 0)
      + Admissions(requests[1..], decisions[1..], c)
  }

  /** The tokens a client could spend at a time. */
  ghost function Level(rate: Rate, table: Table, c: Client, instant: real): real
    requires rate.Valid()
  {
    Refreshed(rate, Lookup(table, c), instant).tokens
  }

  /** Waiting earns at most the refill of the wait. */
  lemma LevelGrows(rate: Rate, table: Table, c: Client, now: real, instant: real)
    requires rate.Valid() && SoundTable(rate, table, now) && now <= instant
    ensures Level(rate, table, c, instant) <= Level(rate, table, c, now) + Refill(rate, instant - now)
    ensures 0.0 <= Level(rate, table, c, instant) <= rate.capacity as real
  {
    hide Refill;
    RefillNonnegative(rate, instant - now);
    RefreshedSound(rate, Lookup(table, c), now, instant);
    if c in table {
      RefillLaws(rate, now - table[c].updatedAt, instant - now);
      RefillNonnegative(rate, now - table[c].updatedAt);
    }
  }

  /** Pruning costs nobody anything. */
  lemma PrunedLevel(rate: Rate, table: Table, c: Client, now: real, instant: real)
    requires rate.Valid() && SoundTable(rate, table, now) && now <= instant
    ensures Level(rate, Pruned(table, instant), c, instant) == Level(rate, table, c, instant)
  {
    hide Refreshed;
    if c in table && c !in Pruned(table, instant) {
      IdleIsFull(rate, table[c], now, instant);
    }
  }

  /** A bucket brought up to date at an instant stays as it is at that instant. */
  lemma RefreshedTwice(rate: Rate, b: Bucket, instant: real)
    requires rate.Valid() && SoundBucket(rate, b, instant) && b.updatedAt == instant
    ensures Refreshed(rate, Some(b), instant) == b
  {
    hide Refill;
    RefillLaws(rate, 0.0, 0.0);
  }

  /** What one request does to the level of any client: an admission costs that client one token, and
      nothing else costs anything. */
  lemma ConsumedLevel(rate: Rate, table: Table, q: Client, c: Client, now: real, instant: real)
    requires rate.Valid() && SoundTable(rate, table, now) && now <= instant
    ensures var (t, d) := Consumed(rate, table, q, instant);
      && SoundTable(rate, t, instant)
      && Level(rate, t, c, instant) == Level(rate, table, c, instant) - (if q == c && d == Admitted then 1.0 else 0.0)
  {
    hide Refreshed, Shortfall, RetryAfter;
    PrunedLevel(rate, table, c, now, instant);
    var p := Pruned(table, instant);
    RefreshedSound(rate, Lookup(p, q), now, instant);
    RefreshedAt(rate, Lookup(p, q), instant);
    var (t, d) := Consumed(rate, table, q, instant);
    if rate.capacity > 0 && d != TableFull && q == c {
      RefreshedTwice(rate, t[q], instant);
    }
  }

  lemma RefreshedAt(rate: Rate, b: Option<Bucket>, instant: real)
    requires rate.Valid()
    ensures Refreshed(rate, b, instant).updatedAt == instant
  {
  }

  /** The rate holds: in any span, from any state, a client gets at most a full bucket and the refill of
      the span. */
  lemma {:induction false} RateBound(rate: Rate, table: Table, requests: seq<Request>, c: Client, now: real,
                                     end: real)
    requires rate.Valid() && SoundTable(rate, table, now) && InOrder(requests, now) && now <= end
    requires forall i :: 0 <= i < |requests| ==> requests[i].instant <= end
    ensures Admissions(requests, Decisions(rate, table, requests), c) as real
         <= Level(rate, table, c, now) + Refill(rate, end - now)
    decreases |requests|
  {
    hide Consumed, Level, Refill, SoundTable;
    LevelGrows(rate, table, c, now, end);
    RefillNonnegative(rate, end - now);
    if requests != [] {
      var q := requests[0];
      var (t, d) := Consumed(rate, table, q.client, q.instant);
      ConsumedLevel(rate, table, q.client, c, now, q.instant);
      LevelGrows(rate, table, c, now, q.instant);
      RateBound(rate, t, requests[1..], c, q.instant, end);
      RefillLaws(rate, q.instant - now, end - q.instant);
      assert Decisions(rate, table, requests)[1..] == Decisions(rate, t, requests[1..]);
    }
  }

  /** So it gets at most capacity times one plus the span over the window. */
  lemma AdmissionsBounded(rate: Rate, table: Table, requests: seq<Request>, c: Client, start: real, end: real)
    requires rate.Valid() && SoundTable(rate, table, start) && InOrder(requests, start) && start <= end
    requires forall i :: 0 <= i < |requests| ==> requests[i].instant <= end
    ensures Admissions(requests, Decisions(rate, table, requests), c) as real
         <= rate.capacity as real * (1.0 + (end - start) / rate.window)
  {
    hide Level, Refill, Decisions, Admissions;
    RateBound(rate, table, requests, c, start, end);
    LevelGrows(rate, table, c, start, start);
    RefillFactor(rate, end - start);
  }

  lemma DivideMultiply(x: real, y: real)
    requires y > 0.0
    ensures x / y * y == x
  {
  }

  lemma MultiplyDivide(x: real, y: real)
    requires y > 0.0
    ensures x * y / y == x
  {
  }

  lemma CancelRatio(x: real, w: real, c: real)
    requires w > 0.0 && c > 0.0
    ensures x * w / c * c / w == x
  {
    var product := x * w;
    var quotient := product / c;
    DivideMultiply(product, c);
    assert quotient * c == product;
    MultiplyDivide(x, w);
  }

  lemma RefillFactor(rate: Rate, x: real)
    requires rate.Valid()
    ensures rate.capacity as real + Refill(rate, x) == rate.capacity as real * (1.0 + x / rate.window)
  {
    var c, w := rate.capacity as real, rate.window;
    DivideMultiply(x, w);
    MultiplyDivide(c * (x / w), w);
    assert c * (x / w) * w == x * c;
  }

  lemma CeilingAbove(x: real)
    ensures Ceiling(x) as real >= x && RetryAfter(x) as real >= x && RetryAfter(x) >= 1
  {
  }

  lemma WaitEarns(rate: Rate, missing: real)
    requires rate.Valid() && rate.capacity > 0
    ensures Refill(rate, Wait(rate, missing)) == missing
  {
    CancelRatio(missing, rate.window, rate.capacity as real);
  }

  /** The refill of the advised wait makes up the shortfall. */
  lemma ShortfallRefilled(rate: Rate, tokens: real, wait: real)
    requires rate.Valid() && rate.capacity > 0 && wait >= Shortfall(rate, tokens)
    ensures tokens + Refill(rate, wait) >= 1.0
  {
    hide Refill, Wait;
    var missing := Shortfall(rate, tokens);
    WaitEarns(rate, 1.0 - tokens);
    RefillLaws(rate, missing, wait - missing);
    RefillNonnegative(rate, wait - missing);
  }

  /** A refreshed bucket that holds a token is charged. */
  lemma EnoughIsAdmitted(rate: Rate, table: Table, c: Client, instant: real)
    requires rate.Valid() && rate.capacity > 0
    requires var p := Pruned(table, instant);
      && (c in p || |p| < rate.maxClients)
      && (c in p ==> p[c].tokens + Refill(rate, instant - p[c].updatedAt) >= 1.0)
    ensures Consumed(rate, table, c, instant).1 == Admitted
  {
    hide Refill;
  }

  /** The advice after a rate refusal suffices: at any later time, if the table still holds the client's
      bucket as it was, or has dropped it and has room, the next request is admitted. */
  lemma LimitedAdviceSuffices(rate: Rate, table: Table, c: Client, now: real, instant: real, later: Table,
                              retry: real)
    requires rate.Valid() && SoundTable(rate, table, now) && now <= instant
    requires var (t, d) := Consumed(rate, table, c, instant);
      && d.Limited? && retry >= instant + d.retryAfter as real
      && (if c in Pruned(later, retry) then c in t && later[c] == t[c] else |Pruned(later, retry)| < rate.maxClients)
    ensures Consumed(rate, later, c, retry).1 == Admitted
  {
    hide Refill, Refreshed, Shortfall, RetryAfter;
    var (t, d) := Consumed(rate, table, c, instant);
    RefreshedAt(rate, Lookup(Pruned(table, instant), c), instant);
    CeilingAbove(Shortfall(rate, t[c].tokens));
    ShortfallRefilled(rate, t[c].tokens, retry - instant);
    EnoughIsAdmitted(rate, later, c, retry);
  }

  /** Requests of other clients leave a client's bucket alone: it is kept as it is until it expires, and
      never changes while it is kept. */
  lemma {:induction false} OthersLeaveBucket(rate: Rate, t: Table, others: seq<Request>, c: Client, end: real)
    requires rate.Valid() && forall i :: 0 <= i < |others| ==> others[i].client != c && others[i].instant <= end
    ensures var u := TableAfter(rate, t, others);
      && (c in u ==> c in t && u[c] == t[c])
      && (c in t && t[c].expiresAt > end ==> c in u)
    decreases |others|
  {
    hide Refreshed, Shortfall, RetryAfter;
    if others != [] {
      var q := others[0];
      OthersLeaveBucket(rate, Consumed(rate, t, q.client, q.instant).0, others[1..], c, end);
    }
  }

  /** The advice after a rate refusal, over every run. Whatever other clients ask in between, a client that
      waits as advised is admitted exactly when its bucket is still held or the table has room; otherwise the
      table is full of others. */
  lemma LimitedAdviceExactly(rate: Rate, table: Table, c: Client, now: real, instant: real, others: seq<Request>,
                             retry: real)
    requires rate.Valid() && SoundTable(rate, table, now) && now <= instant && InOrder(others, instant)
    requires forall i :: 0 <= i < |others| ==> others[i].client != c && others[i].instant <= retry
    requires var d := Consumed(rate, table, c, instant).1; d.Limited? && retry >= instant + d.retryAfter as real
    ensures var u := TableAfter(rate, Consumed(rate, table, c, instant).0, others);
      var p := Pruned(u, retry);
      && (Consumed(rate, u, c, retry).1 == Admitted <==> c in p || |p| < rate.maxClients)
      && (Consumed(rate, u, c, retry).1 == TableFull <==> c !in p && |p| >= rate.maxClients)
  {
    hide Refreshed, Shortfall, RetryAfter, TableAfter;
    var t := Consumed(rate, table, c, instant).0;
    var u := TableAfter(rate, t, others);
    OthersLeaveBucket(rate, t, others, c, retry);
    if c in Pruned(u, retry) || |Pruned(u, retry)| < rate.maxClients {
      LimitedAdviceSuffices(rate, table, c, now, instant, u, retry);
    }
  }

  /** Over a run the tokens that a client could spend grow by at most the refill of the time. */
  lemma {:induction false} LevelAfter(rate: Rate, table: Table, requests: seq<Request>, c: Client, now: real, end: real)
    requires rate.Valid() && SoundTable(rate, table, now) && InOrder(requests, now) && now <= end
    requires forall i :: 0 <= i < |requests| ==> requests[i].instant <= end
    ensures SoundTable(rate, TableAfter(rate, table, requests), end)
    ensures Level(rate, TableAfter(rate, table, requests), c, end)
      <= Level(rate, table, c, now) + Refill(rate, end - now)
    decreases |requests|
  {
    hide Consumed, Level, Refill;
    if requests == [] {
      LevelGrows(rate, table, c, now, end);
    } else {
      hide SoundTable;
      var q := requests[0];
      ConsumedLevel(rate, table, q.client, c, now, q.instant);
      LevelGrows(rate, table, c, now, q.instant);
      LevelAfter(rate, Consumed(rate, table, q.client, q.instant).0, requests[1..], c, q.instant, end);
      RefillLaws(rate, q.instant - now, end - q.instant);
    }
  }

  /** Who could not spend a token is held, and is told to wait. */
  lemma EmptyIsLimited(rate: Rate, table: Table, c: Client, now: real, instant: real)
    requires rate.Valid() && rate.capacity > 0 && SoundTable(rate, table, now) && now <= instant
    requires Level(rate, table, c, instant) < 1.0
    ensures Consumed(rate, table, c, instant).1.Limited?
  {
    hide Refill, Shortfall, RetryAfter;
    PrunedLevel(rate, table, c, now, instant);
  }

  /** The bucket that a rate refusal leaves. */
  lemma RefusedLevel(rate: Rate, table: Table, c: Client, now: real, instant: real)
    requires rate.Valid() && SoundTable(rate, table, now) && now <= instant
    requires Consumed(rate, table, c, instant).1.Limited?
    ensures var (t, d) := Consumed(rate, table, c, instant);
      && rate.capacity > 0 && c in t && SoundTable(rate, t, instant)
      && Level(rate, t, c, instant) == t[c].tokens < 1.0 && d.retryAfter == RetryAfter(Shortfall(rate, t[c].tokens))
  {
    hide Refreshed, Shortfall, RetryAfter;
    var p := Pruned(table, instant);
    RefreshedSound(rate, Lookup(p, c), now, instant);
    RefreshedAt(rate, Lookup(p, c), instant);
    ConsumedLevel(rate, table, c, c, now, instant);
    RefreshedTwice(rate, Consumed(rate, table, c, instant).0[c], instant);
  }

  /** A second less than the advice does not make up the shortfall. */
  lemma ShortfallRemains(rate: Rate, tokens: real, wait: real)
    requires rate.Valid() && rate.capacity > 0 && tokens < 1.0
    requires 0.0 <= wait <= (RetryAfter(Shortfall(rate, tokens)) - 1) as real
    ensures tokens + Refill(rate, wait) < 1.0
  {
    var missing := Shortfall(rate, tokens);
    assert wait == 0.0 || wait < missing by { hide Shortfall; }
    WaitEarns(rate, 1.0 - tokens);
    hide Wait;
    if wait == 0.0 {
      RefillLaws(rate, 0.0, 0.0);
    } else {
      RefillRises(rate, wait, missing);
    }
  }

  lemma RefillRises(rate: Rate, x: real, y: real)
    requires rate.Valid() && rate.capacity > 0 && x < y
    ensures Refill(rate, x) < Refill(rate, y)
  {
    var c, w := rate.capacity as real, rate.window;
    RefillLaws(rate, x, y - x);
    assert (y - x) * c > 0.0;
    QuotientPositive((y - x) * c, w);
  }

  lemma QuotientPositive(x: real, y: real)
    requires x > 0.0 && y > 0.0
    ensures x / y > 0.0
  {
  }

  /** The advice after a rate refusal is no longer than it need be. Until a second before it is over the client is
      still refused, whatever it and others ask in between. */
  lemma LimitedUntilAdvised(rate: Rate, table: Table, c: Client, now: real, instant: real, requests: seq<Request>,
                            retry: real)
    requires rate.Valid() && SoundTable(rate, table, now) && now <= instant <= retry && InOrder(requests, instant)
    requires forall i :: 0 <= i < |requests| ==> requests[i].instant <= retry
    requires var d := Consumed(rate, table, c, instant).1; d.Limited? && retry <= instant + d.retryAfter as real - 1.0
    ensures Consumed(rate, TableAfter(rate, Consumed(rate, table, c, instant).0, requests), c, retry).1.Limited?
  {
    hide Consumed, Level, Shortfall, Refill, RetryAfter, SoundTable, InOrder;
    RefusedLevel(rate, table, c, now, instant);
    var t := Consumed(rate, table, c, instant).0;
    LevelAfter(rate, t, requests, c, instant, retry);
    ShortfallRemains(rate, t[c].tokens, retry - instant);
    EmptyIsLimited(rate, TableAfter(rate, t, requests), c, retry, retry);
  }

  /** Exactly: of the whole numbers of seconds that a refused client can wait while nobody else asks, those from the
      advised one on are enough, and no other. */
  lemma LimitedAdviceLeast(rate: Rate, table: Table, c: Client, now: real, instant: real, wait: nat)
    requires rate.Valid() && SoundTable(rate, table, now) && now <= instant
      && |Pruned(table, instant)| <= rate.maxClients
    requires Consumed(rate, table, c, instant).1.Limited?
    ensures var (t, d) := Consumed(rate, table, c, instant);
      && d.retryAfter >= 1
      && (Consumed(rate, t, c, instant + wait as real).1 == Admitted <==> wait >= d.retryAfter)
      && (Consumed(rate, t, c, instant + wait as real).1.Limited? <==> wait < d.retryAfter)
  {
    hide Consumed, TableAfter;
    var (t, d) := Consumed(rate, table, c, instant);
    var retry := instant + wait as real;
    RefusedLevel(rate, table, c, now, instant);
    CeilingAbove(Shortfall(rate, t[c].tokens));
    assert TableAfter(rate, t, []) == t by { NoRequests(rate, t); }
    if wait < d.retryAfter {
      LimitedUntilAdvised(rate, table, c, now, instant, [], retry);
    } else {
      RoomForOneself(rate, table, c, instant, retry);
      LimitedAdviceSuffices(rate, table, c, now, instant, t, retry);
    }
  }

  lemma NoRequests(rate: Rate, table: Table)
    requires rate.Valid()
    ensures TableAfter(rate, table, []) == table
  {
  }

  /** A client that was held is still held, or its place is free. */
  lemma RoomForOneself(rate: Rate, table: Table, c: Client, instant: real, retry: real)
    requires rate.Valid() && |Pruned(table, instant)| <= rate.maxClients
    requires Consumed(rate, table, c, instant).1.Limited?
    ensures var t := Consumed(rate, table, c, instant).0;
      c in Pruned(t, retry) || |Pruned(t, retry)| < rate.maxClients
  {
    hide Refreshed, Shortfall, RetryAfter;
    var p, t := Pruned(table, instant), Consumed(rate, table, c, instant).0;
    assert t.Keys == p.Keys + {c};
    assert |t| == |t.Keys| && |p| == |p.Keys|;
    if c in p {
      assert p.Keys + {c} == p.Keys;
    }
    if c !in Pruned(t, retry) {
      PrunedShrinks(t, retry, c);
    }
  }

  /** The earliest expiry in a table. */
  ghost predicate Earliest(table: Table, e: real) {
    (exists c :: c in table && table[c].expiresAt == e) && forall c :: c in table ==> e <= table[c].expiresAt
  }

  lemma PrunedShrinks(table: Table, instant: real, c: Client)
    requires c in table && table[c].expiresAt <= instant
    ensures |Pruned(table, instant)| < |table|
  {
    var kept := Pruned(table, instant);
    var gone := table.Keys - kept.Keys;
    assert table.Keys == kept.Keys + gone && c in gone;
    assert |table| == |table.Keys| && |kept| == |kept.Keys|;
  }

  /** The advice after a full-table refusal suffices: if nobody touches the table meanwhile, some client
      is dropped by then and the request is admitted with a fresh bucket. */
  lemma FullAdviceSuffices(rate: Rate, table: Table, c: Client, now: real, instant: real, earliest: real, retry: real)
    requires rate.Valid() && SoundTable(rate, table, now) && now <= instant
      && |Pruned(table, instant)| <= rate.maxClients
    requires Consumed(rate, table, c, instant).1 == TableFull && Earliest(Pruned(table, instant), earliest)
    requires retry >= instant + RetryAfter(earliest - instant) as real
    ensures Consumed(rate, Consumed(rate, table, c, instant).0, c, retry).1 == Admitted
  {
    hide Refill, Refreshed, Shortfall, RetryAfter;
    var p := Pruned(table, instant);
    CeilingAbove(earliest - instant);
    var x :| x in p && p[x].expiresAt == earliest;
    PrunedShrinks(p, retry, x);
    EnoughIsAdmitted(rate, p, c, retry);
  }

  /** Until a second before the advice after a full-table refusal is over, the table is still full if nobody touches
      it. */
  lemma FullUntilAdvised(rate: Rate, table: Table, c: Client, instant: real, earliest: real, retry: real)
    requires rate.Valid() && Consumed(rate, table, c, instant).1 == TableFull
    requires Earliest(Pruned(table, instant), earliest)
    requires instant <= retry <= instant + RetryAfter(earliest - instant) as real - 1.0
    ensures Consumed(rate, Consumed(rate, table, c, instant).0, c, retry).1 == TableFull
  {
    hide Refreshed, Shortfall;
    var p := Pruned(table, instant);
    assert retry == instant || retry < earliest;
    assert Pruned(p, retry) == p;
  }
}
