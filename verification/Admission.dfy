/** The admission controller of the service: per-client rates for predictions and solves, and a daily
    budget of solves and reserved accelerator seconds. */
module Admission {
  import opened Reals
  import opened TokenBuckets
  import opened Wrappers

  const SECONDS_PER_DAY := 86400.0

  /** A wall-clock instant: the day, and the second within it. */
  datatype Wall = Wall(day: int, second: real)

  datatype Refusal =
    | SolveDisabled | BudgetExhausted(retryAfter: int) | RateLimited(retryAfter: int)
    | ClockRegressed | DayRegressed

  /** Limits of a controller; a prediction window is a minute, a solve window an hour. */
  datatype Settings = Settings(
    predictionsPerMinute: nat, solvesPerHour: nat, solvesPerDay: nat, solveTimeout: nat, gpuSeconds: real,
    solveEnabled: bool, maxClients: nat)
  {
    function PredictionRate(): Rate { Rate(predictionsPerMinute, 60.0, maxClients) }

    function SolveRate(): Rate { Rate(solvesPerHour, 3600.0, maxClients) }

    ghost predicate Valid() { maxClients >= 1 && solveTimeout >= 1 && gpuSeconds >= 0.0 }
  }

  /** What a run of one rate has asked and been told, since the controller was made. */
  datatype Record = Record(requests: seq<Request>, decisions: seq<Decision>)

  /** How many requests have been admitted. */
  function CountAdmitted(decisions: seq<Decision>): nat {
    if decisions == [] then 0
    else CountAdmitted(decisions[..|decisions| - 1]) + if decisions[|decisions| - 1] == Admitted then 1 else 0
  }

  lemma OneMoreDecision(decisions: seq<Decision>, d: Decision)
    ensures CountAdmitted(decisions + [d]) == CountAdmitted(decisions) + if d == Admitted then 1 else 0
  {
    assert (decisions + [d])[..|decisions|] == decisions;
  }

  /** The stored table stands for the run of everything asked so far, up to buckets already due to be
      dropped. */
  ghost predicate Faithful(rate: Rate, table: Table, r: Record, last: Option<real>)
    requires rate.Valid()
  {
    && r.decisions == Decisions(rate, map[], r.requests)
    && (last.None? ==> r.requests == [] && table == map[])
    && (last.Some? ==>
          && Pruned(table, last.value) == Pruned(TableAfter(rate, map[], r.requests), last.value)
          && forall i :: 0 <= i < |r.requests| ==> r.requests[i].instant <= last.value)
    && forall i, j :: 0 <= i <= j < |r.requests| ==> r.requests[i].instant <= r.requests[j].instant
  }

  /** Dropping what is due early does not show later. */
  lemma PrunedEarly(t: Table, u: Table, early: real, late: real)
    requires early <= late && Pruned(t, early) == Pruned(u, early)
    ensures Pruned(t, late) == Pruned(u, late)
  {
    assert Pruned(Pruned(t, early), late) == Pruned(t, late);
    assert Pruned(Pruned(u, early), late) == Pruned(u, late);
  }

  lemma PrunedTwice(t: Table, instant: real)
    ensures Pruned(Pruned(t, instant), instant) == Pruned(t, instant)
  {
  }

  /** Only what is still held matters to the next request. */
  lemma ConsumedAlike(rate: Rate, t: Table, u: Table, c: Client, instant: real)
    requires rate.Valid() && Pruned(t, instant) == Pruned(u, instant)
    ensures Consumed(rate, t, c, instant) == Consumed(rate, u, c, instant)
  {
  }

  predicate LaterInstant(last: Option<real>, instant: real) { last.None? || last.value <= instant }

  /** One more request keeps the table faithful. */
  lemma FaithfulConsumed(rate: Rate, table: Table, r: Record, last: Option<real>, c: Client, instant: real)
    requires rate.Valid() && Faithful(rate, table, r, last) && LaterInstant(last, instant)
    ensures var (t, d) := Consumed(rate, table, c, instant);
      Faithful(rate, t, Record(r.requests + [Request(c, instant)], r.decisions + [d]), Some(instant))
  {
    hide Consumed, Pruned, Decisions, TableAfter;
    RunExtends(rate, map[], r.requests, Request(c, instant));
    var u := TableAfter(rate, map[], r.requests);
    if last.Some? {
      PrunedEarly(table, u, last.value, instant);
    } else {
      assert u == map[] by { Started(rate); }
    }
    ConsumedAlike(rate, table, u, c, instant);
  }

  lemma Started(rate: Rate)
    requires rate.Valid()
    ensures TableAfter(rate, map[], []) == map[] && Decisions(rate, map[], []) == []
  {
  }

  /** Time passing, with or without pruning, keeps the table faithful. */
  lemma FaithfulLater(rate: Rate, table: Table, r: Record, last: Option<real>, instant: real)
    requires rate.Valid() && Faithful(rate, table, r, last) && LaterInstant(last, instant)
    ensures Faithful(rate, table, r, Some(instant)) && Faithful(rate, Pruned(table, instant), r, Some(instant))
  {
    hide Pruned, Decisions, TableAfter;
    var u := TableAfter(rate, map[], r.requests);
    PrunedTwice(table, instant);
    if last.Some? {
      PrunedEarly(table, u, last.value, instant);
    } else {
      Started(rate);
    }
  }

  /** Eviction is unobservable through the controller: everything it has ever answered is what the
      limiter that never forgets would have answered, except where the table was full. */
  lemma AnswersAreUnpruned(rate: Rate, table: Table, r: Record, last: Option<real>)
    requires rate.Valid() && Faithful(rate, table, r, last)
    ensures |r.decisions| == |r.requests| && UnprunedDecisions(rate, map[], r.requests, r.decisions) == r.decisions
  {
    hide Pruned, Decisions, TableAfter, UnprunedDecisions;
    if r.requests != [] {
      EvictionUnobservable(rate, map[], map[], r.requests, r.requests[0].instant);
    } else {
      NothingAsked(rate);
    }
  }

  lemma NothingAsked(rate: Rate)
    requires rate.Valid()
    ensures Decisions(rate, map[], []) == [] && UnprunedDecisions(rate, map[], [], []) == []
  {
  }

  /** A run and its continuation. */
  lemma {:induction false} RunContinues(rate: Rate, table: Table, a: seq<Request>, b: seq<Request>)
    requires rate.Valid()
    ensures Decisions(rate, table, a + b)
         == Decisions(rate, table, a) + Decisions(rate, TableAfter(rate, table, a), b)
    decreases |a|
  {
    hide Consumed;
    if a == [] {
      assert a + b == b;
    } else {
      assert (a + b)[0] == a[0] && (a + b)[1..] == a[1..] + b;
      RunContinues(rate, Consumed(rate, table, a[0].client, a[0].instant).0, a[1..], b);
    }
  }

  /** The table stays sound over a run. */
  lemma {:induction false} TableStaysSound(rate: Rate, table: Table, requests: seq<Request>, now: real, end: real)
    requires rate.Valid() && SoundTable(rate, table, now) && InOrder(requests, now) && now <= end
    requires forall i :: 0 <= i < |requests| ==> requests[i].instant <= end
    ensures SoundTable(rate, TableAfter(rate, table, requests), end)
    decreases |requests|
  {
    hide Consumed;
    if requests != [] {
      var q := requests[0];
      ConsumedLevel(rate, table, q.client, q.client, now, q.instant);
      TableStaysSound(rate, Consumed(rate, table, q.client, q.instant).0, requests[1..], q.instant, end);
    }
  }

  /** What a client may be admitted at most in a span of so many seconds. */
  ghost function SpanBound(rate: Rate, span: real): real
    requires rate.Valid()
  {
    rate.capacity as real * (1.0 + span / rate.window)
  }

  lemma SpanBoundRises(rate: Rate, span: real, longer: real)
    requires rate.Valid() && 0.0 <= span <= longer
    ensures 0.0 <= SpanBound(rate, span) <= SpanBound(rate, longer)
  {
    QuotientNonnegative(span, rate.window);
    QuotientNonnegative(longer - span, rate.window);
    var q, more := span / rate.window, (longer - span) / rate.window;
    assert longer / rate.window == q + more;
    assert rate.capacity as real * (1.0 + q) >= 0.0;
    assert rate.capacity as real * more >= 0.0;
    assert rate.capacity as real * (1.0 + q + more) == rate.capacity as real * (1.0 + q) + rate.capacity as real * more;
  }

  /** A stretch of a record, asked between two instants. */
  ghost predicate StretchWithin(r: Record, i: nat, j: nat, start: real, end: real) {
    i <= j <= |r.requests| && start <= end && forall k :: i <= k < j ==> start <= r.requests[k].instant <= end
  }

  /** In every stretch of everything ever asked and answered, a client is admitted at most the bound of the span. */
  lemma StretchBounded(rate: Rate, table: Table, r: Record, last: Option<real>, c: Client, i: nat, j: nat,
                       start: real, end: real)
    requires rate.Valid() && Faithful(rate, table, r, last) && StretchWithin(r, i, j, start, end)
    ensures |r.decisions| == |r.requests|
    ensures Admissions(r.requests[i..j], r.decisions[i..j], c) as real <= SpanBound(rate, end - start)
  {
    hide Decisions, TableAfter, Pruned, SoundTable, SpanBound;
    var u := TableAfter(rate, map[], r.requests[..i]);
    StretchDecided(rate, r, i, j);
    SpanBoundRises(rate, 0.0, end - start);
    if i < j {
      var first := r.requests[i].instant;
      StartsSound(rate, r, i);
      assert InOrder(r.requests[i..j], first);
      AdmissionsWithin(rate, u, r.requests[i..j], c, first, end);
      SpanBoundRises(rate, end - first, end - start);
    }
  }

  lemma AdmissionsWithin(rate: Rate, table: Table, requests: seq<Request>, c: Client, start: real, end: real)
    requires rate.Valid() && SoundTable(rate, table, start) && InOrder(requests, start) && start <= end
    requires forall i :: 0 <= i < |requests| ==> requests[i].instant <= end
    ensures Admissions(requests, Decisions(rate, table, requests), c) as real <= SpanBound(rate, end - start)
  {
    hide Decisions, Admissions, SoundTable, InOrder;
    AdmissionsBounded(rate, table, requests, c, start, end);
  }

  lemma StretchDecided(rate: Rate, r: Record, i: nat, j: nat)
    requires rate.Valid() && r.decisions == Decisions(rate, map[], r.requests) && i <= j <= |r.requests|
    ensures r.decisions[i..j] == Decisions(rate, TableAfter(rate, map[], r.requests[..i]), r.requests[i..j])
  {
    hide Decisions, TableAfter;
    assert r.requests[..i] + r.requests[i..] == r.requests;
    assert r.requests[i..j] + r.requests[j..] == r.requests[i..];
    RunContinues(rate, map[], r.requests[..i], r.requests[i..]);
    RunContinues(rate, TableAfter(rate, map[], r.requests[..i]), r.requests[i..j], r.requests[j..]);
  }

  lemma StartsSound(rate: Rate, r: Record, i: nat)
    requires rate.Valid() && i < |r.requests|
    requires forall a, b :: 0 <= a <= b < |r.requests| ==> r.requests[a].instant <= r.requests[b].instant
    ensures SoundTable(rate, TableAfter(rate, map[], r.requests[..i]), r.requests[i].instant)
  {
    TableStaysSound(rate, map[], r.requests[..i], r.requests[0].instant, r.requests[i].instant);
  }

  /** Seconds until the next day, at least one. */
  function SecondsUntilNextDay(now: Wall): int { RetryAfter(SECONDS_PER_DAY - now.second) }

  /** A caller told to come back the next day finds a new day exactly if it waits as long as that: of the whole
      numbers of seconds, those from the advised one on reach the next day, and no other. */
  lemma NextDayAdviceSuffices(now: Wall, wait: nat)
    requires 0.0 <= now.second < 86400.0
    ensures SecondsUntilNextDay(now) >= 1
    ensures now.second + wait as real >= 86400.0 <==> wait >= SecondsUntilNextDay(now)
  {
    CeilingAbove(SECONDS_PER_DAY - now.second);
  }

  /** What the seconds of a rate refusal mean: the decision's own, or until the first place is free, or a window;
      always the least whole number, and at least one. */
  ghost predicate Advises(rate: Rate, table: Table, instant: real, d: Decision, seconds: int) {
    match d
    case Admitted => true
    case Disabled => rate.window <= seconds as real < rate.window + 1.0
    case TableFull =>
      exists e :: Earliest(Pruned(table, instant), e)
        && seconds >= 1 && seconds as real >= e - instant && (seconds == 1 || (seconds - 1) as real < e - instant)
    case Limited(k) => seconds == k
  }

  /** The answer that a decision of the rate turns into. */
  ghost predicate Answers(rate: Rate, table: Table, instant: real, d: Decision, r: Result<(), Refusal>) {
    match r
    case Ok(_) => d == Admitted
    case Err(e) => d != Admitted && e.RateLimited? && Advises(rate, table, instant, d, e.retryAfter)
  }

  /** The earliest expiry in a table that is not empty. */
  method EarliestExpiry(table: Table) returns (e: real)
    requires table != map[]
    ensures Earliest(table, e)
  {
    var clients := table.Keys;
    var first :| first in clients;
    e := table[first].expiresAt;
    ghost var holder := first;
    clients := clients - {first};
    while clients != {}
      invariant clients <= table.Keys && holder in table && table[holder].expiresAt == e
      invariant forall c :: c in table && c !in clients ==> e <= table[c].expiresAt
      decreases |clients|
    {
      var c :| c in clients;
      clients := clients - {c};
      if table[c].expiresAt < e {
        e := table[c].expiresAt;
        holder := c;
      }
    }
  }

  /** One request against one table, as the source carries it out: prune, find or make the bucket, refresh
      it, and take a token. A refusal comes with the seconds to wait. */
  method Consume(rate: Rate, table: Table, c: Client, instant: real) returns (t: Table, d: Decision, retryAfter: int)
    requires rate.Valid()
    ensures (t, d) == Consumed(rate, table, c, instant)
    ensures Advises(rate, table, instant, d, retryAfter)
  {
    hide Earliest;
    t, retryAfter := Pruned(table, instant), 0;
    if rate.capacity == 0 {
      CeilingAbove(rate.window);
      return t, Disabled, Ceiling(rate.window);
    }
    var bucket;
    if c !in t {
      if |t| >= rate.maxClients {
        var e := EarliestExpiry(t);
        return t, TableFull, RetryAfter(e - instant);
      }
      bucket := Bucket(rate.capacity as real, instant, instant + rate.window);
    } else {
      var elapsed := instant - t[c].updatedAt;
      bucket := Bucket(Min(rate.capacity as real, t[c].tokens + Refill(rate, elapsed)), instant, instant + rate.window);
    }
    if bucket.tokens < 1.0 {
      retryAfter := RetryAfter(Shortfall(rate, bucket.tokens));
      return t[c := bucket], Limited(retryAfter), retryAfter;
    }
    bucket := bucket.(tokens := bucket.tokens - 1.0);
    return t[c := bucket], Admitted, 0;
  }

  /** The budget on record: what today has reserved, and no day, past or present, with more admitted solves
      than its count and its accelerator seconds allow. */
  ghost predicate Budgeted(settings: Settings, budgetDay: Option<int>, solvesToday: nat, reservedToday: real,
                           solvesByDay: multiset<int>) {
    && reservedToday == (solvesToday * settings.solveTimeout) as real && WithinBudget(settings, solvesToday)
    && (budgetDay.None? ==> solvesToday == 0 && solvesByDay == multiset{})
    && (budgetDay.Some? ==> solvesByDay[budgetDay.value] == solvesToday)
    && forall day :: day in solvesByDay ==>
      budgetDay.Some? && day <= budgetDay.value && WithinBudget(settings, solvesByDay[day])
  }

  /** One more solve within the budget keeps it. */
  lemma BudgetCharged(settings: Settings, day: int, solvesToday: nat, reservedToday: real, solvesByDay: multiset<int>)
    requires Budgeted(settings, Some(day), solvesToday, reservedToday, solvesByDay)
      && WithinBudget(settings, solvesToday + 1)
    ensures Budgeted(settings, Some(day), solvesToday + 1, reservedToday + settings.solveTimeout as real,
                     solvesByDay + multiset{day})
  {
    hide WithinBudget;
    Reserving(settings, solvesToday);
  }

  /** A later day starts with nothing reserved. */
  lemma BudgetRenewed(settings: Settings, budgetDay: Option<int>, today: int, solvesToday: nat, reservedToday: real,
                      solvesByDay: multiset<int>)
    requires settings.Valid() && Budgeted(settings, budgetDay, solvesToday, reservedToday, solvesByDay)
    requires budgetDay.None? || budgetDay.value < today
    ensures Budgeted(settings, Some(today), 0, 0.0, solvesByDay)
  {
  }

  lemma KeepsBound(rate: Rate, table: Table, r: Record, last: Option<real>, c: Client, i: nat, j: nat, start: real,
                   end: real)
    requires rate.Valid() && Faithful(rate, table, r, last)
    ensures |r.decisions| == |r.requests|
    ensures StretchWithin(r, i, j, start, end) ==>
      Admissions(r.requests[i..j], r.decisions[i..j], c) as real <= SpanBound(rate, end - start)
  {
    hide Decisions, SpanBound, Pruned, TableAfter, Admissions;
    if StretchWithin(r, i, j, start, end) {
      StretchBounded(rate, table, r, last, c, i, j, start, end);
    }
  }

  /** The bounds of the two rates: so many a minute, and so many an hour. */
  lemma BoundsOfRates(settings: Settings, span: real)
    requires settings.Valid()
    ensures SpanBound(settings.PredictionRate(), span) == settings.predictionsPerMinute as real * (1.0 + span / 60.0)
    ensures SpanBound(settings.SolveRate(), span) == settings.solvesPerHour as real * (1.0 + span / 3600.0)
  {
  }

  class AdmissionController {
    const settings: Settings
    var predictions: Table
    var solves: Table
    var budgetDay: Option<int>
    var solvesToday: nat
    var reservedToday: real
    var lastInstant: Option<real>
    /** Everything asked and answered per rate, and the day of every solve admitted. */
    ghost var predictionRecord: Record
    ghost var solveRecord: Record
    ghost var solvesByDay: multiset<int>

    /** The tables stand for everything ever asked, the budget is kept, and the record of days and the record
        of answers agree on how many solves were ever admitted. */
    ghost predicate Valid()
      reads this
    {
      && settings.Valid()
      && Faithful(settings.PredictionRate(), predictions, predictionRecord, lastInstant)
      && Faithful(settings.SolveRate(), solves, solveRecord, lastInstant)
      && Budgeted(settings, budgetDay, solvesToday, reservedToday, solvesByDay)
      && |solvesByDay| == CountAdmitted(solveRecord.decisions)
    }

    /** Whether a solve asked for now would be admitted. */
    ghost predicate Allows(c: Client, wall: Wall, instant: real)
      reads this
      requires settings.Valid()
    {
      && settings.solveEnabled && (budgetDay.None? || budgetDay.value <= wall.day)
      && WithinBudget(settings, (if budgetDay == Some(wall.day) then solvesToday else 0) + 1)
      && LaterInstant(lastInstant, instant) && Consumed(settings.SolveRate(), solves, c, instant).1 == Admitted
    }

    constructor (settings: Settings)
      requires settings.Valid()
      ensures Valid() && this.settings == settings && lastInstant == None && budgetDay == None
        && solvesByDay == multiset{}
    {
      this.settings := settings;
      predictions, solves, budgetDay, solvesToday, reservedToday, lastInstant := map[], map[], None, 0, 0.0, None;
      predictionRecord, solveRecord, solvesByDay := Record([], []), Record([], []), multiset{};
    }

    /** No client ever gets more than its rate: in every stretch of everything asked of this controller, between
        any two instants, its predictions and its solves are each within the bound of the span. */
    lemma RatesKept(c: Client, i: nat, j: nat, start: real, end: real)
      requires Valid()
      ensures |predictionRecord.decisions| == |predictionRecord.requests|
      ensures |solveRecord.decisions| == |solveRecord.requests|
      ensures StretchWithin(predictionRecord, i, j, start, end) ==>
        Admissions(predictionRecord.requests[i..j], predictionRecord.decisions[i..j], c) as real
        <= settings.predictionsPerMinute as real * (1.0 + (end - start) / 60.0)
      ensures StretchWithin(solveRecord, i, j, start, end) ==>
        Admissions(solveRecord.requests[i..j], solveRecord.decisions[i..j], c) as real
        <= settings.solvesPerHour as real * (1.0 + (end - start) / 3600.0)
    {
      hide Budgeted, SpanBound, Faithful, Admissions;
      BoundsOfRates(settings, end - start);
      KeepsBound(settings.PredictionRate(), predictions, predictionRecord, lastInstant, c, i, j, start, end);
      KeepsBound(settings.SolveRate(), solves, solveRecord, lastInstant, c, i, j, start, end);
    }

    /** Read the monotonic clock, which must not go back. */
    method MonotonicNow(instant: real) returns (ok: bool)
      requires Valid()
      modifies this`lastInstant
      ensures Valid() && ok == LaterInstant(old(lastInstant), instant)
      ensures lastInstant == if ok then Some(instant) else old(lastInstant)
    {
      hide Faithful, Budgeted;
      if lastInstant.Some? {
        if instant < lastInstant.value {
          return false;
        }
      }
      FaithfulLater(settings.PredictionRate(), predictions, predictionRecord, lastInstant, instant);
      FaithfulLater(settings.SolveRate(), solves, solveRecord, lastInstant, instant);
      lastInstant := Some(instant);
      return true;
    }

    method AdmitPrediction(c: Client, instant: real) returns (r: Result<(), Refusal>)
      requires Valid()
      modifies this`predictions, this`lastInstant, this`predictionRecord
      ensures Valid()
      ensures var regressed := old(lastInstant).Some? && instant < old(lastInstant).value;
        && (r == Err(ClockRegressed) <==> regressed)
        && (regressed ==> predictions == old(predictions) && lastInstant == old(lastInstant))
        && (!regressed ==> lastInstant == Some(instant))
      ensures LaterInstant(old(lastInstant), instant) ==>
        var d := Consumed(settings.PredictionRate(), old(predictions), c, instant).1;
        && predictions == Consumed(settings.PredictionRate(), old(predictions), c, instant).0
        && predictionRecord == Record(old(predictionRecord).requests + [Request(c, instant)],
                                      old(predictionRecord).decisions + [d])
        && Answers(settings.PredictionRate(), old(predictions), instant, d, r)
    {
      hide Faithful, Budgeted, Consumed, Advises;
      var ok := MonotonicNow(instant);
      if !ok {
        return Err(ClockRegressed);
      }
      FaithfulConsumed(settings.PredictionRate(), predictions, predictionRecord, lastInstant, c, instant);
      var t, d, retryAfter := Consume(settings.PredictionRate(), predictions, c, instant);
      predictions := t;
      predictionRecord := Record(predictionRecord.requests + [Request(c, instant)], predictionRecord.decisions + [d]);
      return if d == Admitted then Ok(()) else Err(RateLimited(retryAfter));
    }

    /** Begin a new day's budget if the day has changed; a day never comes back. */
    method ResetDailyBudget(today: int) returns (ok: bool)
      requires Valid()
      modifies this`budgetDay, this`solvesToday, this`reservedToday
      ensures Valid() && ok == (old(budgetDay).None? || old(budgetDay).value <= today)
      ensures ok ==>
        budgetDay == Some(today) && solvesToday == (if old(budgetDay) == Some(today) then old(solvesToday) else 0)
      ensures !ok ==> budgetDay == old(budgetDay) && solvesToday == old(solvesToday)
    {
      hide Faithful, Budgeted;
      if budgetDay == Some(today) {
        return true;
      }
      if budgetDay.Some? {
        if today < budgetDay.value {
          return false;
        }
      }
      BudgetRenewed(settings, budgetDay, today, solvesToday, reservedToday, solvesByDay);
      budgetDay, solvesToday, reservedToday := Some(today), 0, 0.0;
      return true;
    }

    /** Whether today's count and accelerator seconds leave room for one more solve. */
    method CheckBudget(wall: Wall) returns (r: Result<(), Refusal>)
      requires Valid()
      modifies this`budgetDay, this`solvesToday, this`reservedToday
      ensures Valid()
      ensures old(budgetDay).Some? && wall.day < old(budgetDay).value ==>
        r == Err(DayRegressed) && budgetDay == old(budgetDay) && solvesToday == old(solvesToday)
      ensures !(old(budgetDay).Some? && wall.day < old(budgetDay).value) ==>
        var count := if old(budgetDay) == Some(wall.day) then old(solvesToday) else 0;
        && budgetDay == Some(wall.day) && solvesToday == count
        && r == if WithinBudget(settings, count + 1) then Ok(()) else Err(BudgetExhausted(SecondsUntilNextDay(wall)))
    {
      hide Faithful, SecondsUntilNextDay;
      var sameDay := ResetDailyBudget(wall.day);
      if !sameDay {
        return Err(DayRegressed);
      }
      var retryAfter := SecondsUntilNextDay(wall);
      if solvesToday >= settings.solvesPerDay {
        return Err(BudgetExhausted(retryAfter));
      }
      var reservation := settings.solveTimeout as real;
      Reserving(settings, solvesToday);
      if reservedToday + reservation > settings.gpuSeconds {
        return Err(BudgetExhausted(retryAfter));
      }
      return Ok(());
    }

    /** Ask the solve rate, and charge the budget if it admits. */
    method TakeSolve(c: Client, instant: real) returns (d: Decision, retryAfter: int)
      requires Valid() && budgetDay.Some? && WithinBudget(settings, solvesToday + 1) && lastInstant == Some(instant)
      modifies this`solves, this`solvesToday, this`reservedToday, this`solveRecord, this`solvesByDay
      ensures Valid() && d == Consumed(settings.SolveRate(), old(solves), c, instant).1
      ensures Advises(settings.SolveRate(), old(solves), instant, d, retryAfter)
      ensures solveRecord == Record(old(solveRecord).requests + [Request(c, instant)], old(solveRecord).decisions + [d])
      ensures solvesToday == old(solvesToday) + if d == Admitted then 1 else 0
      ensures solvesByDay == old(solvesByDay) + if d == Admitted then multiset{budgetDay.value} else multiset{}
      ensures CountAdmitted(solveRecord.decisions)
        == CountAdmitted(old(solveRecord).decisions) + if d == Admitted then 1 else 0
    {
      hide Faithful, Consumed, WithinBudget, CountAdmitted, Budgeted, Advises;
      FaithfulConsumed(settings.SolveRate(), solves, solveRecord, lastInstant, c, instant);
      OneMoreDecision(solveRecord.decisions, Consumed(settings.SolveRate(), solves, c, instant).1);
      BudgetCharged(settings, budgetDay.value, solvesToday, reservedToday, solvesByDay);
      solves, d, retryAfter := Consume(settings.SolveRate(), solves, c, instant);
      solveRecord := Record(solveRecord.requests + [Request(c, instant)], solveRecord.decisions + [d]);
      if d == Admitted {
        solvesToday := solvesToday + 1;
        reservedToday := reservedToday + settings.solveTimeout as real;
        solvesByDay := solvesByDay + multiset{budgetDay.value};
      }
    }

    /** Admit one solve: enabled, within today's count and accelerator seconds, and within the client's
        rate, in that order. Only an admission is charged to the budget, and only what gets past the budget
        is asked of the rate. */
    method AdmitSolve(c: Client, wall: Wall, instant: real) returns (r: Result<(), Refusal>)
      requires Valid()
      modifies this
      ensures Valid() && predictionRecord == old(predictionRecord)
      ensures r.Ok? <==> old(Allows(c, wall, instant))
      ensures solvesByDay == old(solvesByDay) + if r.Ok? then multiset{wall.day} else multiset{}
      ensures CountAdmitted(solveRecord.decisions) == CountAdmitted(old(solveRecord).decisions) + if r.Ok? then 1 else 0
      ensures !settings.solveEnabled ==>
        r == Err(SolveDisabled) && budgetDay == old(budgetDay) && solvesToday == old(solvesToday)
      ensures settings.solveEnabled && old(budgetDay).Some? && wall.day < old(budgetDay).value ==>
        r == Err(DayRegressed)
      ensures settings.solveEnabled && !(old(budgetDay).Some? && wall.day < old(budgetDay).value) ==>
        var count := if old(budgetDay) == Some(wall.day) then old(solvesToday) else 0;
        var d := Consumed(settings.SolveRate(), old(solves), c, instant).1;
        && budgetDay == Some(wall.day)
        && (r.Ok? <==> WithinBudget(settings, count + 1) && LaterInstant(old(lastInstant), instant) && d == Admitted)
        && solvesToday == count + (if r.Ok? then 1 else 0)
        && (!WithinBudget(settings, count + 1) <==> r == Err(BudgetExhausted(SecondsUntilNextDay(wall))))
        && (WithinBudget(settings, count + 1) ==>
              if LaterInstant(old(lastInstant), instant) then Answers(settings.SolveRate(), old(solves), instant, d, r)
              else r == Err(ClockRegressed))
        && solveRecord == (if WithinBudget(settings, count + 1) && LaterInstant(old(lastInstant), instant)
                           then Record(old(solveRecord).requests + [Request(c, instant)],
                                       old(solveRecord).decisions + [d])
                           else old(solveRecord))
    {
      hide Faithful, Consumed, SecondsUntilNextDay, CountAdmitted, Budgeted, WithinBudget, Advises;
      if !settings.solveEnabled {
        return Err(SolveDisabled);
      }
      var room := CheckBudget(wall);
      if room.Err? {
        return room;
      }
      var ok := MonotonicNow(instant);
      if !ok {
        return Err(ClockRegressed);
      }
      var d, wait := TakeSolve(c, instant);
      return if d == Admitted then Ok(()) else Err(RateLimited(wait));
    }

    /** Looking prunes both tables, and nothing else shows. */
    method Snapshot(wall: Wall, instant: real) returns (r: Result<(nat, nat, nat, real), Refusal>)
      requires Valid()
      modifies this
      ensures Valid() && predictionRecord == old(predictionRecord) && solveRecord == old(solveRecord)
        && solvesByDay == old(solvesByDay)
      ensures r.Err? <==> r == Err(DayRegressed) || r == Err(ClockRegressed)
      ensures r == Err(DayRegressed) <==> old(budgetDay).Some? && wall.day < old(budgetDay).value
      ensures r == Err(ClockRegressed) ==> old(lastInstant).Some? && instant < old(lastInstant).value
      ensures r.Ok? ==>
        && (old(lastInstant).Some? ==> old(lastInstant).value <= instant) && budgetDay == Some(wall.day)
        && solvesToday == (if old(budgetDay) == Some(wall.day) then old(solvesToday) else 0)
        && reservedToday == (solvesToday * settings.solveTimeout) as real
      ensures r.Ok? ==>
        && r.value == (|predictions|, |solves|, solvesToday, reservedToday)
        && predictions == Pruned(old(predictions), instant) && solves == Pruned(old(solves), instant)
    {
      hide Faithful, Pruned;
      var sameDay := ResetDailyBudget(wall.day);
      if !sameDay {
        return Err(DayRegressed);
      }
      var ok := MonotonicNow(instant);
      if !ok {
        return Err(ClockRegressed);
      }
      FaithfulLater(settings.PredictionRate(), predictions, predictionRecord, lastInstant, instant);
      FaithfulLater(settings.SolveRate(), solves, solveRecord, lastInstant, instant);
      predictions := Pruned(predictions, instant);
      solves := Pruned(solves, instant);
      return Ok((|predictions|, |solves|, solvesToday, reservedToday));
    }
  }

  /** So many solves fit a day's count and, at a full timeout each, its accelerator seconds. */
  ghost predicate WithinBudget(settings: Settings, count: nat) {
    count <= settings.solvesPerDay && (count * settings.solveTimeout) as real <= settings.gpuSeconds
  }

  lemma Reserving(settings: Settings, count: nat)
    ensures ((count + 1) * settings.solveTimeout) as real
      == (count * settings.solveTimeout) as real + settings.solveTimeout as real
  {
  }
}
