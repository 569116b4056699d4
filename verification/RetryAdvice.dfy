/** How far a refused client can rely on the seconds it is told to wait, when other clients ask meanwhile. */
module RetryAdvice {
  import opened Collections
  import opened TokenBuckets
  import opened Wrappers

  /** So many new clients, all asking at one instant. */
  function Newcomers(c: Client, n: nat, instant: real): (r: seq<Request>)
    ensures |r| == n && forall i :: 0 <= i < n ==> r[i] == Request(c + 1 + i, instant)
  {
    if n == 0 then [] else Newcomers(c, n - 1, instant) + [Request(c + n, instant)]
  }

  /** The clients that come. */
  function Crowd(c: Client, n: nat): (r: set<Client>)
    ensures |r| == n && forall x :: x in r ==> c < x <= c + n
  {
    if n == 0 then {} else Crowd(c, n - 1) + {c + n}
  }

  /** A client that asks is held afterwards, unless the table is full of others; and nobody held is dropped at
      the same instant. */
  lemma AskingHolds(rate: Rate, t: Table, c: Client, q: Client, instant: real)
    requires rate.Valid() && rate.capacity > 0 && q != c && c !in Pruned(t, instant)
    ensures var p, p' := Pruned(t, instant), Pruned(Consumed(rate, t, q, instant).0, instant);
      && c !in p' && p.Keys <= p'.Keys && |p| <= |p'| && (q in p' || |p'| >= rate.maxClients)
  {
    hide Refill, Shortfall, RetryAfter;
    var p, p' := Pruned(t, instant), Pruned(Consumed(rate, t, q, instant).0, instant);
    if q !in p && |p| >= rate.maxClients {
      assert p' == p;
    } else {
      assert p'.Keys == p.Keys + {q};
      assert |p| == |p.Keys| && |p'| == |p'.Keys|;
      SubsetCardinality(p.Keys, p'.Keys);
    }
  }

  /** Not held oneself, while these others are all held or the table is full. */
  ghost predicate CrowdedBy(rate: Rate, t: Table, c: Client, n: nat, instant: real) {
    var p := Pruned(t, instant);
    c !in p && (|p| >= rate.maxClients || Crowd(c, n) <= p.Keys)
  }

  lemma OneMoreAsks(rate: Rate, t: Table, c: Client, n: nat, instant: real)
    requires rate.Valid() && rate.capacity > 0 && n > 0 && CrowdedBy(rate, t, c, n - 1, instant)
    ensures CrowdedBy(rate, Consumed(rate, t, c + n, instant).0, c, n, instant)
  {
    hide Consumed, Pruned;
    assert Crowd(c, n) == Crowd(c, n - 1) + {c + n};
    hide Crowd;
    AskingHolds(rate, t, c, c + n, instant);
  }

  lemma NobodyAsks(rate: Rate, t: Table, c: Client, instant: real)
    requires rate.Valid() && c !in Pruned(t, instant)
    ensures CrowdedBy(rate, TableAfter(rate, t, Newcomers(c, 0, instant)), c, 0, instant)
  {
    hide Pruned, Consumed;
  }

  /** After so many new clients have asked, they are all held, or the table is full. */
  lemma {:induction false} Crowded(rate: Rate, t: Table, c: Client, n: nat, instant: real)
    requires rate.Valid() && rate.capacity > 0 && c !in Pruned(t, instant)
    ensures CrowdedBy(rate, TableAfter(rate, t, Newcomers(c, n, instant)), c, n, instant)
    decreases n
  {
    hide Consumed, Pruned, CrowdedBy, TableAfter, Decisions, Crowd;
    if n == 0 {
      NobodyAsks(rate, t, c, instant);
    } else {
      Crowded(rate, t, c, n - 1, instant);
      RunExtends(rate, t, Newcomers(c, n - 1, instant), Request(c + n, instant));
      OneMoreAsks(rate, TableAfter(rate, t, Newcomers(c, n - 1, instant)), c, n, instant);
    }
  }

  /** Whoever is not held at an instant can find the table full then: as many new clients as it holds need
      only ask first. */
  lemma CrowdedOut(rate: Rate, t: Table, c: Client, instant: real)
    requires rate.Valid() && rate.capacity > 0 && c !in Pruned(t, instant)
    ensures Consumed(rate, TableAfter(rate, t, Newcomers(c, rate.maxClients, instant)), c, instant).1 == TableFull
  {
    hide Pruned, Charge, Refreshed;
    Crowded(rate, t, c, rate.maxClients, instant);
    var p := Pruned(TableAfter(rate, t, Newcomers(c, rate.maxClients, instant)), instant);
    assert |p| == |p.Keys|;
    if Crowd(c, rate.maxClients) <= p.Keys {
      SubsetCardinality(Crowd(c, rate.maxClients), p.Keys);
    }
  }

  /** A run of requests by other clients, from one instant up to another. */
  ghost predicate RunOfOthers(others: seq<Request>, c: Client, instant: real, retry: real) {
    InOrder(others, instant) && forall i :: 0 <= i < |others| ==> others[i].client != c && others[i].instant <= retry
  }

  /** When the advice after a rate refusal can be relied on. A client that waits as advised is admitted after
      every run of other clients' requests exactly when it comes back within one window of the refusal. Later its
      bucket may be gone, and others may have taken its place. */
  lemma AdviceReliableExactly(rate: Rate, table: Table, c: Client, now: real, instant: real, retry: real)
    requires rate.Valid() && SoundTable(rate, table, now) && now <= instant
    requires var d := Consumed(rate, table, c, instant).1; d.Limited? && retry >= instant + d.retryAfter as real
    ensures retry < instant + rate.window <==>
      forall others :: RunOfOthers(others, c, instant, retry) ==>
        Consumed(rate, TableAfter(rate, Consumed(rate, table, c, instant).0, others), c, retry).1 == Admitted
  {
    hide RunOfOthers, TableAfter, Refill, Shortfall;
    var t := Consumed(rate, table, c, instant).0;
    RefusedBucket(rate, table, c, instant);
    if retry < instant + rate.window {
      forall others | RunOfOthers(others, c, instant, retry)
        ensures Consumed(rate, TableAfter(rate, t, others), c, retry).1 == Admitted
      {
        WithinWindow(rate, table, c, now, instant, others, retry);
      }
    } else {
      CrowdedOut(rate, t, c, retry);
      NewcomersAreOthers(rate, table, c, instant, retry);
      assert Consumed(rate, TableAfter(rate, t, Newcomers(c, rate.maxClients, retry)), c, retry).1 == TableFull;
    }
  }

  lemma NewcomersAreOthers(rate: Rate, table: Table, c: Client, instant: real, retry: real)
    requires rate.Valid()
    requires var d := Consumed(rate, table, c, instant).1; d.Limited? && retry >= instant + d.retryAfter as real
    ensures RunOfOthers(Newcomers(c, rate.maxClients, retry), c, instant, retry)
  {
    hide Refreshed, Shortfall;
  }

  lemma WithinWindow(rate: Rate, table: Table, c: Client, now: real, instant: real, others: seq<Request>, retry: real)
    requires rate.Valid() && SoundTable(rate, table, now) && now <= instant && RunOfOthers(others, c, instant, retry)
    requires var d := Consumed(rate, table, c, instant).1; d.Limited? && retry >= instant + d.retryAfter as real
    requires retry < instant + rate.window
    ensures Consumed(rate, TableAfter(rate, Consumed(rate, table, c, instant).0, others), c, retry).1 == Admitted
  {
    hide Consumed, TableAfter;
    var t := Consumed(rate, table, c, instant).0;
    RefusedBucket(rate, table, c, instant);
    OthersLeaveBucket(rate, t, others, c, retry);
    LimitedAdviceExactly(rate, table, c, now, instant, others, retry);
  }

  /** A refused client's bucket is held for one window from the refusal. */
  lemma RefusedBucket(rate: Rate, table: Table, c: Client, instant: real)
    requires rate.Valid() && Consumed(rate, table, c, instant).1.Limited?
    ensures rate.capacity > 0
    ensures var t := Consumed(rate, table, c, instant).0; c in t && t[c].expiresAt == instant + rate.window
  {
    hide Refill, Shortfall, RetryAfter;
  }

  /** The advice can fail, with a table of one place and one request a minute. Client 0 spends its token, is
      refused, and is told to wait sixty seconds; client 1 asks first when they are over, and takes the place. */
  lemma AdviceCanFail()
    ensures var rate := Rate(1, 60.0, 1);
      var t0 := Consumed(rate, map[], 0, 0.0).0;
      var (t1, d1) := Consumed(rate, t0, 0, 0.0);
      && d1 == Limited(60)
      && Consumed(rate, Consumed(rate, t1, 1, 60.0).0, 0, 60.0).1 == TableFull
  {
    var rate := Rate(1, 60.0, 1);
    var spent := Bucket(0.0, 0.0, 60.0);
    assert Pruned(map[], 0.0) == map[];
    assert Consumed(rate, map[], 0, 0.0) == (map[0 := spent], Admitted);
    assert Pruned(map[0 := spent], 0.0) == map[0 := spent];
    assert Refreshed(rate, Some(spent), 0.0) == spent;
    assert Shortfall(rate, 0.0) == 60.0 && RetryAfter(60.0) == 60;
    assert map[0 := spent][0 := spent] == map[0 := spent];
    assert Consumed(rate, map[0 := spent], 0, 0.0) == (map[0 := spent], Limited(60));
    assert Pruned(map[0 := spent], 60.0) == map[];
    var taken := Bucket(0.0, 60.0, 120.0);
    assert Consumed(rate, map[0 := spent], 1, 60.0) == (map[1 := taken], Admitted);
    assert Pruned(map[1 := taken], 60.0) == map[1 := taken];
  }

  /** The advice after a full-table refusal can never be relied on: whenever the client comes back, there is a
      run of other clients after which the table is full again. */
  lemma FullAdviceNeverReliable(rate: Rate, table: Table, c: Client, instant: real, retry: real)
    requires rate.Valid() && Consumed(rate, table, c, instant).1 == TableFull && instant <= retry
    ensures exists others ::
      && RunOfOthers(others, c, instant, retry)
      && Consumed(rate, TableAfter(rate, Consumed(rate, table, c, instant).0, others), c, retry).1 == TableFull
  {
    hide Refreshed;
    var others := Newcomers(c, rate.maxClients, retry);
    CrowdedOut(rate, Consumed(rate, table, c, instant).0, c, retry);
    assert RunOfOthers(others, c, instant, retry);
  }
}
