/** The retained jobs of one service process and their idempotency bindings, as values: what expiry,
    trimming, admission and job steps do to them, and the invariants they keep. */
module JobStore {
  import opened Collections
  import opened JobRecords
  import opened Wrappers

  /** A binding: the digest of the bound request, and the job that answers it. */
  datatype Binding = Binding(requestSha: string, jobId: JobId)

  /** `order` lists the retained jobs in the order they were created. */
  datatype Jobs = Jobs(records: map<JobId, JobRecord>, order: seq<JobId>, idempotency: map<Key, Binding>)

  const NoJobs := Jobs(map[], [], map[])

  predicate Live(r: JobRecord) { r.state in {Queued, Running} }

  /** The queued and running jobs. */
  function Active(records: map<JobId, JobRecord>): set<JobId> { set id | id in records && Live(records[id]) }

  ghost predicate Ordered(j: Jobs) {
    && (forall i, k :: 0 <= i < k < |j.order| ==> j.order[i] != j.order[k])
    && forall id :: id in j.order <==> id in j.records
  }

  /** Bindings and keyed, unexpired records correspond exactly. */
  ghost predicate Bound(j: Jobs) {
    && (forall key :: key in j.idempotency ==>
          var b := j.idempotency[key];
          && b.jobId in j.records && j.records[b.jobId].key == Some(key) && j.records[b.jobId].state != Expired
          && j.records[b.jobId].requestSha == b.requestSha)
    && (forall id :: id in j.records && j.records[id].state != Expired && j.records[id].key.Some? ==>
          j.records[id].key.value in j.idempotency
            && j.idempotency[j.records[id].key.value] == Binding(j.records[id].requestSha, id))
  }

  ghost predicate AllRecords(records: map<JobId, JobRecord>) {
    forall id :: id in records ==> RecordSound(records[id]) && records[id].accepted.jobId == id
  }

  /** The invariant of the store. */
  ghost predicate StoreSound(j: Jobs) {
    Ordered(j) && Bound(j) && AllRecords(j.records)
  }

  /** Expire one record if its retention is over; an expired record gives up its binding. */
  function ExpireOne(j: Jobs, id: JobId, now: Time): Jobs
    requires id in j.records
  {
    var r := j.records[id];
    if !RetentionOver(r, now) then j
    else j.(records := j.records[id := ExpiredAt(r, now)],
            idempotency := if r.key.Some? then j.idempotency - {r.key.value} else j.idempotency)
  }

  lemma ExpireOneSound(j: Jobs, id: JobId, now: Time)
    requires StoreSound(j) && id in j.records
    ensures StoreSound(ExpireOne(j, id, now))
    ensures Active(ExpireOne(j, id, now).records) == Active(j.records)
    ensures !RetentionOver(ExpireOne(j, id, now).records[id], now)
  {
    hide RecordSound;
    ExpiredSound(j.records[id], now);
    var j' := ExpireOne(j, id, now);
    if RetentionOver(j.records[id], now) {
      forall key | key in j'.idempotency ensures j'.idempotency[key].jobId != id {
        assert key in j.idempotency;
      }
    }
  }

  /** Expire these records in turn. */
  function ExpireAll(j: Jobs, ids: seq<JobId>, now: Time): (r: Jobs)
    requires forall id :: id in ids ==> id in j.records
    ensures r.records.Keys == j.records.Keys && r.order == j.order
  {
    if ids == [] then j
    else
      var n := |ids| - 1;
      ExpireOne(ExpireAll(j, ids[..n], now), ids[n], now)
  }

  /** Expiring keeps the store sound and the active jobs as they are, and expires exactly the listed
      records whose retention is over. */
  lemma {:induction false} ExpireAllSound(j: Jobs, ids: seq<JobId>, now: Time)
    requires StoreSound(j) && (forall id :: id in ids ==> id in j.records)
    requires forall i, k :: 0 <= i < k < |ids| ==> ids[i] != ids[k]
    ensures var r := ExpireAll(j, ids, now);
      && StoreSound(r) && Active(r.records) == Active(j.records)
      && forall id :: id in j.records ==>
        r.records[id] == if id in ids then ExpiredAt(j.records[id], now) else j.records[id]
    decreases |ids|
  {
    hide StoreSound, ExpiredAt;
    if ids != [] {
      var n := |ids| - 1;
      ExpireAllSound(j, ids[..n], now);
      ExpireOneSound(ExpireAll(j, ids[..n], now), ids[n], now);
      assert ids == ids[..n] + [ids[n]];
      assert ids[n] !in ids[..n];
      ExpireOneRecords(ExpireAll(j, ids[..n], now), ids[n], now);
    }
  }

  lemma ExpireOneRecords(j: Jobs, id: JobId, now: Time)
    requires id in j.records
    ensures ExpireOne(j, id, now).records == j.records[id := ExpiredAt(j.records[id], now)]
  {
    assert j.records[id := j.records[id]] == j.records;
  }

  /** The expired jobs, oldest first. */
  function ExpiredJobs(j: Jobs, ids: seq<JobId>): seq<JobId>
    requires forall id :: id in ids ==> id in j.records
  {
    if ids == [] then []
    else (if j.records[ids[0]].state == Expired then [ids[0]] else []) + ExpiredJobs(j, ids[1..])
  }

  lemma {:induction false} ExpiredJobsMeans(j: Jobs, ids: seq<JobId>)
    requires forall id :: id in ids ==> id in j.records
    requires forall i, k :: 0 <= i < k < |ids| ==> ids[i] != ids[k]
    ensures forall id :: id in ExpiredJobs(j, ids) <==> id in ids && j.records[id].state == Expired
    ensures forall i, k :: 0 <= i < k < |ExpiredJobs(j, ids)| ==> ExpiredJobs(j, ids)[i] != ExpiredJobs(j, ids)[k]
    decreases |ids|
  {
    if ids != [] {
      ExpiredJobsMeans(j, ids[1..]);
      assert ids == [ids[0]] + ids[1..];
      assert ids[0] !in ids[1..];
    }
  }

  function Without(s: seq<JobId>, id: JobId): seq<JobId> {
    if s == [] then [] else if s[0] == id then s[1..] else [s[0]] + Without(s[1..], id)
  }

  lemma {:induction false} WithoutMeans(s: seq<JobId>, id: JobId)
    requires forall i, k :: 0 <= i < k < |s| ==> s[i] != s[k]
    ensures forall x :: x in Without(s, id) <==> x in s && x != id
    ensures forall i, k :: 0 <= i < k < |Without(s, id)| ==> Without(s, id)[i] != Without(s, id)[k]
    decreases |s|
  {
    if s != [] {
      assert s == [s[0]] + s[1..];
      assert s[0] !in s[1..];
      if s[0] != id {
        WithoutMeans(s[1..], id);
      }
    }
  }

  /** Drop one record. */
  function Drop(j: Jobs, id: JobId): Jobs { j.(records := j.records - {id}, order := Without(j.order, id)) }

  lemma DropOrdered(j: Jobs, id: JobId)
    requires Ordered(j)
    ensures Ordered(Drop(j, id))
  {
    hide Without;
    WithoutMeans(j.order, id);
  }

  lemma DropBound(j: Jobs, id: JobId)
    requires Bound(j) && id in j.records && j.records[id].state == Expired
    ensures Bound(Drop(j, id))
  {
    hide Without;
  }

  lemma DropCounts(records: map<JobId, JobRecord>, id: JobId)
    requires id in records && records[id].state == Expired
    ensures |records - {id}| == |records| - 1 && Active(records - {id}) == Active(records)
  {
    var rest := records - {id};
    assert rest.Keys == records.Keys - {id};
    assert |rest.Keys| == |rest| && |records.Keys| == |records|;
  }

  lemma DropSound(j: Jobs, id: JobId)
    requires StoreSound(j) && id in j.records && j.records[id].state == Expired
    ensures StoreSound(Drop(j, id)) && |Drop(j, id).records| == |j.records| - 1
    ensures Active(Drop(j, id).records) == Active(j.records)
  {
    DropOrdered(j, id);
    DropBound(j, id);
    DropCounts(j.records, id);
    hide RecordSound, Bound, Ordered, Active, Without;
  }

  /** Drop expired records, oldest first, while the store is full. */
  function Trim(j: Jobs, expired: seq<JobId>, limit: nat): Jobs
    decreases |expired|
  {
    if |j.records| < limit || expired == [] then j else Trim(Drop(j, expired[0]), expired[1..], limit)
  }

  /** Trimming drops only expired jobs, makes room whenever it can, and never drops one while there is
      room. */
  lemma {:induction false} TrimSound(j: Jobs, expired: seq<JobId>, limit: nat)
    requires StoreSound(j) && (forall id :: id in expired ==> id in j.records && j.records[id].state == Expired)
    requires forall i, k :: 0 <= i < k < |expired| ==> expired[i] != expired[k]
    ensures var r := Trim(j, expired, limit);
      && StoreSound(r) && Active(r.records) == Active(j.records) && |r.records| <= |j.records|
      && (forall id :: id in r.records ==> id in j.records && r.records[id] == j.records[id])
      && (forall id :: id in j.records && id !in r.records ==> j.records[id].state == Expired)
      && r.idempotency == j.idempotency
      && (|r.records| < limit || forall id :: id in expired ==> id !in r.records)
      && (|j.records| < limit ==> r == j) && (|j.records| >= limit ==> |r.records| >= limit - 1)
    decreases |expired|
  {
    hide StoreSound, Without;
    if |j.records| >= limit && expired != [] {
      DropSound(j, expired[0]);
      assert expired == [expired[0]] + expired[1..];
      TrimSound(Drop(j, expired[0]), expired[1..], limit);
    }
  }

  /** Everything `submit` sweeps away before it looks at the request. */
  function Swept(j: Jobs, limit: nat, now: Time): Jobs
    requires forall id :: id in j.order ==> id in j.records
  {
    var e := ExpireAll(j, j.order, now);
    Trim(e, ExpiredJobs(e, e.order), limit)
  }

  /** Sweeping keeps the store sound and touches no active job; no retained record is due for expiry
      afterwards. */
  lemma SweptSound(j: Jobs, limit: nat, now: Time)
    requires StoreSound(j)
    ensures (forall id :: id in j.order ==> id in j.records)
    ensures var r := Swept(j, limit, now);
      && StoreSound(r) && Active(r.records) == Active(j.records) && |r.records| <= |j.records|
      && (forall id :: id in r.records ==> id in j.records && r.records[id] == ExpiredAt(j.records[id], now))
      && (forall id :: id in j.records && id !in r.records ==> ExpiredAt(j.records[id], now).state == Expired)
      && (|r.records| < limit || forall id :: id in r.records ==> r.records[id].state != Expired)
  {
    hide Bound, RecordSound, ExpiredAt, Trim, Active;
    ExpireAllSound(j, j.order, now);
    var e := ExpireAll(j, j.order, now);
    ExpiredJobsMeans(e, e.order);
    TrimSound(e, ExpiredJobs(e, e.order), limit);
    assert |e.records| == |e.records.Keys| == |j.records.Keys| == |j.records|;
  }

  /** The members of a list that a store still holds, in their order. */
  function StillHeld(ids: seq<JobId>, records: map<JobId, JobRecord>): (r: seq<JobId>)
    ensures forall id :: id in r <==> id in ids && id in records
  {
    if ids == [] then []
    else (if ids[0] in records then [ids[0]] else []) + StillHeld(ids[1..], records)
  }

  lemma {:induction false} StillHeldAll(ids: seq<JobId>, records: map<JobId, JobRecord>)
    requires forall id :: id in ids ==> id in records
    ensures StillHeld(ids, records) == ids
  {
    if ids != [] {
      StillHeldAll(ids[1..], records);
    }
  }

  lemma {:induction false} StillHeldWithout(ids: seq<JobId>, records: map<JobId, JobRecord>, id: JobId)
    requires id !in records && forall i, k :: 0 <= i < k < |ids| ==> ids[i] != ids[k]
    ensures StillHeld(Without(ids, id), records) == StillHeld(ids, records)
  {
    if ids != [] {
      if ids[0] != id {
        assert Without(ids, id)[1..] == Without(ids[1..], id);
        StillHeldWithout(ids[1..], records, id);
      }
    }
  }

  /** What trimming leaves is in its old order, and if it leaves an expired job it leaves every later one. */
  lemma TrimOldestFirst(j: Jobs, expired: seq<JobId>, limit: nat)
    requires StoreSound(j) && (forall id :: id in expired ==> id in j.records && j.records[id].state == Expired)
    requires forall i, k :: 0 <= i < k < |expired| ==> expired[i] != expired[k]
    ensures var r := Trim(j, expired, limit);
      && r.order == StillHeld(j.order, r.records)
      && (forall i, k :: 0 <= i < k < |expired| && expired[i] in r.records ==> expired[k] in r.records)
      && (forall id :: id in j.records && id !in expired ==> id in r.records)
  {
    hide StoreSound, Trim, StillHeld;
    TrimKeepsOrder(j, expired, limit);
    TrimDropsPrefix(j, expired, limit);
  }

  lemma {:induction false} TrimKeepsOrder(j: Jobs, expired: seq<JobId>, limit: nat)
    requires StoreSound(j) && (forall id :: id in expired ==> id in j.records && j.records[id].state == Expired)
    requires forall i, k :: 0 <= i < k < |expired| ==> expired[i] != expired[k]
    ensures Trim(j, expired, limit).order == StillHeld(j.order, Trim(j, expired, limit).records)
    decreases |expired|
  {
    hide StoreSound, Without, StillHeld;
    OrderHeld(j);
    if |j.records| < limit || expired == [] {
      StillHeldAll(j.order, j.records);
    } else {
      DropSound(j, expired[0]);
      TrimKeepsOrder(Drop(j, expired[0]), expired[1..], limit);
      TrimSound(Drop(j, expired[0]), expired[1..], limit);
      StillHeldWithout(j.order, Trim(j, expired, limit).records, expired[0]);
    }
  }

  lemma {:induction false} TrimDropsPrefix(j: Jobs, expired: seq<JobId>, limit: nat)
    requires forall i, k :: 0 <= i < k < |expired| ==> expired[i] != expired[k]
    requires forall id :: id in expired ==> id in j.records
    ensures var r := Trim(j, expired, limit).records;
      && (forall i, k :: 0 <= i < k < |expired| && expired[i] in r ==> expired[k] in r)
      && (forall id :: id in j.records && id !in expired ==> id in r)
      && (forall id :: id in r ==> id in j.records)
    decreases |expired|
  {
    hide Without;
    if |j.records| >= limit && expired != [] {
      var rest := expired[1..];
      assert expired == [expired[0]] + rest;
      TrimDropsPrefix(Drop(j, expired[0]), rest, limit);
      var r := Trim(j, expired, limit).records;
      assert expired[0] !in r;
      forall i, k | 0 <= i < k < |expired| && expired[i] in r ensures expired[k] in r {
        assert i > 0 && expired[i] == rest[i - 1] && expired[k] == rest[k - 1];
      }
    }
  }

  lemma OrderHeld(j: Jobs)
    requires StoreSound(j)
    ensures forall id :: id in j.order <==> id in j.records
    ensures forall i, k :: 0 <= i < k < |j.order| ==> j.order[i] != j.order[k]
  {
    hide RecordSound, Bound;
  }

  lemma {:induction false} ExpiredJobsInOrder(j: Jobs, ids: seq<JobId>, i: nat, k: nat) returns (a: nat, b: nat)
    requires (forall id :: id in ids ==> id in j.records) && i < k < |ids|
    requires j.records[ids[i]].state == Expired && j.records[ids[k]].state == Expired
    ensures a < b < |ExpiredJobs(j, ids)| && ExpiredJobs(j, ids)[a] == ids[i] && ExpiredJobs(j, ids)[b] == ids[k]
    decreases |ids|
  {
    var skipped := if j.records[ids[0]].state == Expired then 1 else 0;
    if i == 0 {
      a := 0;
      b := ExpiredJobAt(j, ids[1..], k - 1);
      b := b + 1;
    } else {
      a, b := ExpiredJobsInOrder(j, ids[1..], i - 1, k - 1);
      a, b := a + skipped, b + skipped;
    }
  }

  lemma {:induction false} ExpiredJobAt(j: Jobs, ids: seq<JobId>, k: nat) returns (b: nat)
    requires (forall id :: id in ids ==> id in j.records) && k < |ids| && j.records[ids[k]].state == Expired
    ensures b < |ExpiredJobs(j, ids)| && ExpiredJobs(j, ids)[b] == ids[k]
    decreases |ids|
  {
    if k == 0 {
      b := 0;
    } else {
      b := ExpiredJobAt(j, ids[1..], k - 1);
      b := b + if j.records[ids[0]].state == Expired then 1 else 0;
    }
  }

  /** A sweep keeps every job that has not expired by then and the order of all it keeps, and it drops the oldest of
      the expired ones first. */
  lemma SweptOldestFirst(j: Jobs, limit: nat, now: Time)
    requires StoreSound(j)
    ensures forall id :: id in j.order <==> id in j.records
    ensures var r := Swept(j, limit, now);
      && r.order == StillHeld(j.order, r.records)
      && (forall id :: id in j.records && ExpiredAt(j.records[id], now).state != Expired ==> id in r.records)
      && forall i, k :: 0 <= i < k < |j.order| && ExpiredAt(j.records[j.order[i]], now).state == Expired ==>
        (j.order[i] in r.records ==> j.order[k] in r.records)
  {
    hide StoreSound, ExpiredAt, Trim, Active, RecordSound, Without, ExpiredJobs, StillHeld;
    OrderHeld(j);
    ExpireAllSound(j, j.order, now);
    var e := ExpireAll(j, j.order, now);
    var expired := ExpiredJobs(e, e.order);
    ExpiredJobsMeans(e, e.order);
    TrimOldestFirst(e, expired, limit);
    var r := Swept(j, limit, now);
    forall i, k | 0 <= i < k < |j.order| && j.order[i] in r.records
                  && ExpiredAt(j.records[j.order[i]], now).state == Expired
      ensures j.order[k] in r.records
    {
      if e.records[j.order[k]].state == Expired {
        var a, b := ExpiredJobsInOrder(e, e.order, i, k);
      }
    }
  }

  /** A job that is over stays through every sweep within the hour after its end, its binding with it. */
  lemma SweptRetains(j: Jobs, limit: nat, now: Time, id: JobId)
    requires StoreSound(j) && id in j.records && Over(j.records[id])
    requires now < j.records[id].terminalAt.value + 3_600_000_000
    ensures forall x :: x in j.order ==> x in j.records
    ensures var r, was := Swept(j, limit, now), j.records[id];
      && id in r.records && r.records[id] == was
      && (was.key.Some? ==>
            was.key.value in r.idempotency && r.idempotency[was.key.value] == Binding(was.requestSha, id))
  {
    hide Swept, ExpiredAt, Active, Ordered, RecordSound;
    RetainedExactly(j.records[id], now);
    SweptSound(j, limit, now);
  }

  /** Add a new job. */
  function Add(j: Jobs, r: JobRecord): Jobs {
    var id := r.accepted.jobId;
    Jobs(j.records[id := r], j.order + [id],
         if r.key.Some? then j.idempotency[r.key.value := Binding(r.requestSha, id)] else j.idempotency)
  }

  lemma AddOrdered(j: Jobs, r: JobRecord)
    requires Ordered(j) && r.accepted.jobId !in j.records
    ensures Ordered(Add(j, r))
  {
    hide RecordSound;
    var order := Add(j, r).order;
    forall id ensures id in order <==> id in Add(j, r).records {
      if id in order && id != r.accepted.jobId {
        assert id in j.order;
      }
      if id in j.records {
        assert id in j.order && id in order;
      }
      assert order[|order| - 1] == r.accepted.jobId;
    }
  }

  lemma AddBound(j: Jobs, r: JobRecord)
    requires Bound(j) && r.accepted.jobId !in j.records && r.state != Expired
    requires r.key.Some? ==> r.key.value !in j.idempotency
    ensures Bound(Add(j, r))
  {
  }

  lemma ActiveAdded(j: Jobs, r: JobRecord)
    requires r.state == Queued && r.accepted.jobId !in j.records
    ensures Active(Add(j, r).records) == Active(j.records) + {r.accepted.jobId}
      && r.accepted.jobId !in Active(j.records)
  {
  }

  lemma AddCounts(j: Jobs, r: JobRecord)
    requires r.state == Queued && r.accepted.jobId !in j.records
    ensures |Add(j, r).records| == |j.records| + 1
    ensures Active(Add(j, r).records) == Active(j.records) + {r.accepted.jobId}
    ensures |Active(Add(j, r).records)| == |Active(j.records)| + 1
  {
    ActiveAdded(j, r);
    hide Active;
    assert Add(j, r).records.Keys == j.records.Keys + {r.accepted.jobId};
    assert |Add(j, r).records| == |Add(j, r).records.Keys| && |j.records| == |j.records.Keys|;
  }

  lemma AddRecords(records: map<JobId, JobRecord>, r: JobRecord)
    requires AllRecords(records) && RecordSound(r)
    ensures AllRecords(records[r.accepted.jobId := r])
  {
    hide RecordSound;
  }

  lemma AddSound(j: Jobs, r: JobRecord)
    requires StoreSound(j) && RecordSound(r) && r.state == Queued && r.accepted.jobId !in j.records
    requires r.key.Some? ==> r.key.value !in j.idempotency
    ensures StoreSound(Add(j, r)) && |Add(j, r).records| == |j.records| + 1
    ensures Active(Add(j, r).records) == Active(j.records) + {r.accepted.jobId}
    ensures |Active(Add(j, r).records)| == |Active(j.records)| + 1
    ensures Add(j, r).records == j.records[r.accepted.jobId := r] && Add(j, r).order == j.order + [r.accepted.jobId]
  {
    AddOrdered(j, r);
    AddBound(j, r);
    AddCounts(j, r);
    AddRecords(j.records, r);
    hide RecordSound, Bound, Ordered, Active, AllRecords;
  }

  /** Replace one record by a later one of the same job. */
  function Update(j: Jobs, r: JobRecord): Jobs { j.(records := j.records[r.accepted.jobId := r]) }

  lemma UpdateOrdered(j: Jobs, r: JobRecord)
    requires Ordered(j) && r.accepted.jobId in j.records
    ensures Ordered(Update(j, r)) && |Update(j, r).records| == |j.records|
  {
    assert Update(j, r).records.Keys == j.records.Keys;
    assert |Update(j, r).records| == |Update(j, r).records.Keys| && |j.records| == |j.records.Keys|;
  }

  lemma UpdateBound(j: Jobs, r: JobRecord)
    requires Bound(j) && r.accepted.jobId in j.records && r.state != Expired && Later(j.records[r.accepted.jobId], r)
    ensures Bound(Update(j, r))
  {
  }

  lemma UpdateActive(records: map<JobId, JobRecord>, r: JobRecord)
    requires r.accepted.jobId in records && (Live(r) ==> Live(records[r.accepted.jobId]))
    ensures Active(records[r.accepted.jobId := r]) <= Active(records)
    ensures |Active(records[r.accepted.jobId := r])| <= |Active(records)|
  {
    SubsetCardinality(Active(records[r.accepted.jobId := r]), Active(records));
  }

  lemma UpdateSound(j: Jobs, r: JobRecord)
    requires StoreSound(j) && RecordSound(r) && r.accepted.jobId in j.records && r.state != Expired
    requires Later(j.records[r.accepted.jobId], r) && (Live(r) ==> Live(j.records[r.accepted.jobId]))
    ensures StoreSound(Update(j, r)) && |Update(j, r).records| == |j.records|
    ensures Update(j, r) == Jobs(j.records[r.accepted.jobId := r], j.order, j.idempotency)
    ensures Active(Update(j, r).records) <= Active(j.records)
    ensures |Active(Update(j, r).records)| <= |Active(j.records)|
  {
    UpdateOrdered(j, r);
    UpdateBound(j, r);
    UpdateActive(j.records, r);
    AddRecords(j.records, r);
    hide RecordSound, Ordered, Bound, Active, AllRecords, Later;
  }

  /** The complete event histories: every event ever logged, also after expiry and trimming. */
  type History = map<JobId, seq<SolveEvent>>

  ghost predicate Recorded(j: Jobs, h: History) {
    && (forall id :: id in h ==> WellOrdered(h[id]) && AllValid(h[id]))
    && forall id :: id in j.records ==>
         id in h && |h[id]| == j.records[id].sequence
           && (j.records[id].state != Expired ==> h[id] == j.records[id].events)
  }

  /** No history ever loses or changes an event. */
  ghost predicate Grown(h: History, h': History) {
    forall id :: id in h ==> id in h' && h[id] <= h'[id]
  }

  lemma RecordedAdd(j: Jobs, h: History, r: JobRecord)
    requires Recorded(j, h) && RecordSound(r) && r.state != Expired && r.accepted.jobId !in h
    ensures Recorded(Add(j, r), h[r.accepted.jobId := r.events]) && Grown(h, h[r.accepted.jobId := r.events])
  {
    hide WellOrdered, AllValid;
  }

  lemma RecordedUpdate(j: Jobs, h: History, r: JobRecord)
    requires Recorded(j, h) && RecordSound(r) && r.accepted.jobId in j.records && r.state != Expired
    requires Later(j.records[r.accepted.jobId], r)
    ensures Recorded(Update(j, r), h[r.accepted.jobId := r.events]) && Grown(h, h[r.accepted.jobId := r.events])
  {
    hide WellOrdered, AllValid;
  }

  lemma RecordedExpireOne(j: Jobs, h: History, id: JobId, now: Time)
    requires Recorded(j, h) && id in j.records
    ensures Recorded(ExpireOne(j, id, now), h)
  {
    hide WellOrdered, AllValid;
  }

  lemma RecordedSwept(j: Jobs, h: History, limit: nat, now: Time)
    requires Recorded(j, h) && StoreSound(j)
    ensures (forall id :: id in j.order ==> id in j.records) && Recorded(Swept(j, limit, now), h)
  {
    hide WellOrdered, AllValid, Swept, StoreSound, RetentionOver;
    SweptSound(j, limit, now);
  }
}
