/** The job manager on the schedule of its semaphore: the jobs it creates are the jobs that the schedule admits, so the
    expiry that it promises is kept by its own records. */
module JobPromises {
  import Admission
  import opened Collections
  import opened JobRecords
  import S = JobSchedule
  import opened JobStore
  import opened SolveJobs
  import opened Wrappers

  /** Whether a job still counts against the capacity: it is not over, or it has given up its slot and its failure is
      still to be recorded. */
  ghost predicate Pending(f: S.Floor, k: nat, releasing: set<nat>) {
    k >= |f.ends| || f.ends[k] == None || k in releasing
  }

  /** How the record of job k stands to the schedule. */
  ghost predicate RecordFits(r: JobRecord, f: S.Floor, k: nat, releasing: set<nat>, limits: Limits)
    requires limits.concurrency > 0 && k < |f.admitted| == |f.ahead|
  {
    && r.accepted.expiresAt == Promise(limits, f.ahead[k], f.admitted[k])
    && if k >= |f.ends| then r.state == Queued
       else if Pending(f, k, releasing) then r.state == Running
       else r.state == Expired || (r.state in {Succeeded, Failed} && r.terminalAt == f.ends[k])
  }

  /** Job k of the schedule is the job ids[k] of the store. */
  ghost predicate Coupled(records: map<JobId, JobRecord>, f: S.Floor, ids: seq<JobId>, releasing: set<nat>,
                          limits: Limits)
    requires limits.concurrency > 0
  {
    && |ids| == |f.admitted| == |f.ahead| && |f.ends| == |f.starts| <= |f.admitted| && Distinct(ids)
    && (forall k :: k in releasing ==> k < |f.ends| && f.ends[k] == Some(f.now))
    && (forall k :: 0 <= k < |ids| && Pending(f, k, releasing) ==> ids[k] in records)
    && (forall k :: 0 <= k < |ids| && ids[k] in records ==> RecordFits(records[ids[k]], f, k, releasing, limits))
    && forall id :: id in records ==> id in ids
  }

  /** Different members of one set lie at different places of another. */
  lemma {:induction false} PlacedApart(s: set<nat>, ids: seq<JobId>, target: set<JobId>)
    requires Distinct(ids) && forall k :: k in s ==> k < |ids| && ids[k] in target
    ensures |s| <= |target|
    decreases |s|
  {
    if s != {} {
      var k :| k in s;
      PlacedApart(s - {k}, ids, target - {ids[k]});
      assert s == s - {k} + {k} && target == target - {ids[k]} + {ids[k]};
    }
  }

  /** The manager counts at least the jobs that are not over. */
  lemma UnfinishedActive(records: map<JobId, JobRecord>, f: S.Floor, ids: seq<JobId>, releasing: set<nat>,
                         limits: Limits)
    requires limits.concurrency > 0 && Coupled(records, f, ids, releasing, limits)
    ensures |f.ends| == |f.starts| && |S.Unfinished(f)| <= |Active(records)|
  {
    forall k | k in S.Unfinished(f) ensures k < |ids| && ids[k] in Active(records) {
      assert Pending(f, k, releasing);
      assert RecordFits(records[ids[k]], f, k, releasing, limits);
    }
    PlacedApart(S.Unfinished(f), ids, Active(records));
  }

  /** Expiry fits the schedule, and leaves a job alone that still counts. */
  lemma ExpiredFits(r: JobRecord, f: S.Floor, k: nat, releasing: set<nat>, limits: Limits, now: Time)
    requires limits.concurrency > 0 && k < |f.admitted| == |f.ahead| && RecordFits(r, f, k, releasing, limits)
    ensures RecordFits(ExpiredAt(r, now), f, k, releasing, limits)
    ensures Pending(f, k, releasing) ==> ExpiredAt(r, now) == r && r.state != Expired
  {
    hide Promise;
  }

  /** Expiring and dropping jobs that are over keeps the coupling. */
  lemma SurvivorsCoupled(records: map<JobId, JobRecord>, records': map<JobId, JobRecord>, now: Time, f: S.Floor,
                         ids: seq<JobId>, releasing: set<nat>, limits: Limits)
    requires limits.concurrency > 0 && Coupled(records, f, ids, releasing, limits)
    requires forall id :: id in records' ==> id in records && records'[id] == ExpiredAt(records[id], now)
    requires forall id :: id in records && id !in records' ==> ExpiredAt(records[id], now).state == Expired
    ensures Coupled(records', f, ids, releasing, limits)
  {
    hide RecordFits, Pending, ExpiredAt;
    forall k | 0 <= k < |ids| && ids[k] in records
      ensures Pending(f, k, releasing) ==> ids[k] in records'
      ensures ids[k] in records' ==> RecordFits(records'[ids[k]], f, k, releasing, limits)
    {
      ExpiredFits(records[ids[k]], f, k, releasing, limits, now);
    }
  }

  lemma SweptCoupled(j: Jobs, limit: nat, now: Time, f: S.Floor, ids: seq<JobId>, releasing: set<nat>, limits: Limits)
    requires limits.concurrency > 0 && StoreSound(j) && Coupled(j.records, f, ids, releasing, limits)
    ensures (forall id :: id in j.order ==> id in j.records)
    ensures Coupled(Swept(j, limit, now).records, f, ids, releasing, limits)
  {
    hide StoreSound, Swept, Coupled, ExpiredAt, Active;
    SweptSound(j, limit, now);
    SurvivorsCoupled(j.records, Swept(j, limit, now).records, now, f, ids, releasing, limits);
  }

  lemma AdmittedCoupled(j: Jobs, r: JobRecord, f: S.Floor, ids: seq<JobId>, releasing: set<nat>, limits: Limits,
                        ahead: nat)
    requires limits.concurrency > 0 && Coupled(j.records, f, ids, releasing, limits) && r.accepted.jobId !in ids
    requires r.state == Queued && r.accepted.expiresAt == Promise(limits, ahead, f.now)
    ensures Coupled(Add(j, r).records, S.Step(f, S.Admit(ahead)), ids + [r.accepted.jobId], releasing, limits)
  {
    hide Promise;
  }

  /** One record changes as the schedule does. */
  lemma UpdatedCoupled(j: Jobs, r: JobRecord, f: S.Floor, f': S.Floor, ids: seq<JobId>, releasing: set<nat>,
                       releasing': set<nat>, limits: Limits, k: nat)
    requires limits.concurrency > 0 && Coupled(j.records, f, ids, releasing, limits)
    requires k < |ids| && r.accepted.jobId == ids[k] && ids[k] in j.records
    requires f'.admitted == f.admitted && f'.ahead == f.ahead && f'.now == f.now
    requires |f'.ends| == |f'.starts| <= |f'.admitted|
    requires forall i :: 0 <= i < |ids| && i != k ==>
      && (i < |f'.ends| <==> i < |f.ends|) && (i < |f.ends| ==> f'.ends[i] == f.ends[i])
      && (i in releasing' <==> i in releasing)
    requires forall i :: i in releasing' ==> i < |f'.ends| && f'.ends[i] == Some(f'.now)
    requires RecordFits(r, f', k, releasing', limits)
    ensures Coupled(Update(j, r).records, f', ids, releasing', limits)
  {
    hide Promise;
  }

  /** What the coupling says of a job that is running. */
  lemma RunningJob(records: map<JobId, JobRecord>, f: S.Floor, ids: seq<JobId>, releasing: set<nat>, limits: Limits,
                   k: nat)
    requires limits.concurrency > 0 && Coupled(records, f, ids, releasing, limits)
    requires k < |f.ends| && (f.ends[k] == None || k in releasing)
    ensures k < |ids| && ids[k] in records && records[ids[k]].state == Running && |f.ends| == |f.starts|
  {
    assert Pending(f, k, releasing);
    assert RecordFits(records[ids[k]], f, k, releasing, limits);
  }

  lemma WaitingJob(records: map<JobId, JobRecord>, f: S.Floor, ids: seq<JobId>, releasing: set<nat>, limits: Limits,
                   k: nat)
    requires limits.concurrency > 0 && Coupled(records, f, ids, releasing, limits) && |f.ends| <= k < |f.admitted|
    ensures k < |ids| && ids[k] in records && records[ids[k]].state == Queued
  {
    assert Pending(f, k, releasing);
    assert RecordFits(records[ids[k]], f, k, releasing, limits);
  }

  /** The next job starts, its record with it. */
  lemma StartedCoupled(j: Jobs, r: JobRecord, f: S.Floor, ids: seq<JobId>, releasing: set<nat>, limits: Limits)
    requires limits.concurrency > 0 && Coupled(j.records, f, ids, releasing, limits)
    requires var k := |f.starts|;
      && k < |f.admitted| && k < |ids| && ids[k] in j.records
      && r.accepted == j.records[ids[k]].accepted && r.accepted.jobId == ids[k] && r.state == Running
    ensures Coupled(Update(j, r).records, S.Step(f, S.StartNext), ids, releasing, limits)
  {
    var k := |f.starts|;
    assert RecordFits(j.records[ids[k]], f, k, releasing, limits);
    hide Promise, Coupled;
    UpdatedParts(j, f, ids, releasing, limits);
    UpdatedCoupled(j, r, f, S.Step(f, S.StartNext), ids, releasing, releasing, limits, k);
  }

  /** A running job's record changes without changing its state. */
  lemma SameStateCoupled(j: Jobs, r: JobRecord, f: S.Floor, ids: seq<JobId>, releasing: set<nat>, limits: Limits,
                         k: nat)
    requires limits.concurrency > 0 && Coupled(j.records, f, ids, releasing, limits)
    requires k < |f.ends| && f.ends[k] == None && k < |ids| && ids[k] in j.records
    requires r.accepted == j.records[ids[k]].accepted && r.accepted.jobId == ids[k] && r.state == Running
    ensures Coupled(Update(j, r).records, f, ids, releasing, limits)
  {
    assert RecordFits(j.records[ids[k]], f, k, releasing, limits);
    hide Promise, Coupled;
    UpdatedParts(j, f, ids, releasing, limits);
    UpdatedCoupled(j, r, f, f, ids, releasing, releasing, limits, k);
  }

  lemma PolledCoupled(records: map<JobId, JobRecord>, id: JobId, now: Time, f: S.Floor, ids: seq<JobId>,
                      releasing: set<nat>, limits: Limits)
    requires limits.concurrency > 0 && Coupled(records, f, ids, releasing, limits) && id in records
    ensures Coupled(records[id := ExpiredAt(records[id], now)], f, ids, releasing, limits)
  {
    hide RecordFits, Pending, ExpiredAt;
    var records' := records[id := ExpiredAt(records[id], now)];
    forall k | 0 <= k < |ids| && ids[k] in records
      ensures RecordFits(records'[ids[k]], f, k, releasing, limits)
    {
      ExpiredFits(records[ids[k]], f, k, releasing, limits, now);
    }
  }

  /** A job ends, its record with it. */
  lemma EndedCoupled(j: Jobs, r: JobRecord, f: S.Floor, ids: seq<JobId>, releasing: set<nat>, limits: Limits, k: nat)
    requires limits.concurrency > 0 && Coupled(j.records, f, ids, releasing, limits)
    requires k < |f.ends| && f.ends[k] == None && k < |ids| && ids[k] in j.records
    requires r.accepted == j.records[ids[k]].accepted && r.accepted.jobId == ids[k]
    requires r.state in {Succeeded, Failed} && r.terminalAt == Some(f.now)
    ensures Coupled(Update(j, r).records, S.Step(f, S.Finish(k)), ids, releasing, limits)
  {
    assert RecordFits(j.records[ids[k]], f, k, releasing, limits);
    hide Promise, Coupled;
    UpdatedParts(j, f, ids, releasing, limits);
    UpdatedCoupled(j, r, f, S.Step(f, S.Finish(k)), ids, releasing, releasing, limits, k);
  }

  /** A job gives up its slot, its record still running. */
  lemma ReleasedCoupled(j: Jobs, f: S.Floor, ids: seq<JobId>, releasing: set<nat>, limits: Limits, k: nat)
    requires limits.concurrency > 0 && Coupled(j.records, f, ids, releasing, limits)
    requires k < |f.ends| && f.ends[k] == None && k < |ids| && ids[k] in j.records
    requires j.records[ids[k]].accepted.jobId == ids[k]
    ensures Coupled(j.records, S.Step(f, S.Finish(k)), ids, releasing + {k}, limits)
  {
    assert Pending(f, k, releasing);
    assert RecordFits(j.records[ids[k]], f, k, releasing, limits);
    hide Promise, Coupled;
    UpdatedParts(j, f, ids, releasing, limits);
    UpdatedCoupled(j, j.records[ids[k]], f, S.Step(f, S.Finish(k)), ids, releasing, releasing + {k}, limits, k);
    NoUpdate(j, j.records[ids[k]]);
  }

  /** The shape of a coupled schedule. */
  lemma UpdatedParts(j: Jobs, f: S.Floor, ids: seq<JobId>, releasing: set<nat>, limits: Limits)
    requires limits.concurrency > 0 && Coupled(j.records, f, ids, releasing, limits)
    ensures |ids| == |f.admitted| == |f.ahead| && |f.ends| == |f.starts| <= |f.admitted|
    ensures forall k :: k in releasing ==> k < |f.ends| && f.ends[k] == Some(f.now)
  {
  }

  /** One more move keeps the schedule's invariants. */
  lemma MoveKeepsFloor(f: S.Floor, m: S.Move, limits: Limits)
    requires limits.Valid() && S.FloorSound(f, limits.concurrency, limits.timeout)
    requires |f.ends| == |f.starts| && S.Enabled(f, m, limits.concurrency, limits.timeout)
    ensures S.FloorSound(S.Step(f, m), limits.concurrency, limits.timeout)
  {
    hide S.Conserving, S.Counted, S.Holding, S.Enabled;
    S.TimedStep(f, m, limits.concurrency, limits.timeout);
    S.ConservingStep(f, m, limits.concurrency, limits.timeout);
    S.CountedStep(f, m, limits.concurrency, limits.timeout);
    S.HoldingStep(f, m, limits.concurrency, limits.timeout);
  }

  lemma EmptyFloorSound(now: Time, limits: Limits)
    requires limits.Valid()
    ensures S.FloorSound(S.Empty(now), limits.concurrency, limits.timeout)
    ensures Coupled(map[], S.Empty(now), [], {}, limits)
  {
  }

  lemma StoreKnown(jobs: SolveJobManager)
    requires jobs.Valid()
    ensures StoreSound(jobs.Contents()) && jobs.limits.Valid() && forall id :: id in jobs.records ==> id in jobs.history
  {
    KnownRecords(jobs.Contents(), jobs.history);
  }

  /** What a submission under a new identifier leaves: the swept store with a new job, the swept store, or the store. */
  method SubmitNew(jobs: SolveJobManager, requestSha: string, correlation: nat, key: Option<Key>, id: JobId,
                   guard: Admission.AdmissionController?, visit: Visit, now: Time)
        returns (r: Result<Accepted, SubmitError>)
    requires jobs.Valid() && (guard != null ==> guard.Valid()) && id !in jobs.history
    modifies jobs, guard
    ensures jobs.Valid() && (guard != null ==> guard.Valid())
    ensures forall x :: x in old(jobs.order) ==> x in old(jobs.records)
    ensures id in jobs.records <==> id in jobs.history
    ensures var j := Swept(old(jobs.Contents()), jobs.limits.maxRetained, now);
      if id in jobs.records
      then r.Ok? && r.value.jobId == id
        && jobs.Contents() == Add(j, Created(requestSha, correlation, r.value, key, now))
        && r.value.expiresAt == Promise(jobs.limits, |Active(old(jobs.records))|, now)
        && jobs.history.Keys == old(jobs.history).Keys + {id}
      else jobs.records in {j.records, old(jobs.records)} && jobs.history == old(jobs.history)
  {
    hide StoreSound, Recorded, Swept, Active, Created, Promise, RecordSound, Add, Admission.AdmissionController.Valid,
         Admission.AdmissionController.Allows;
    StoreKnown(jobs);
    SweptSound(jobs.Contents(), jobs.limits.maxRetained, now);
    r := jobs.Submit(requestSha, correlation, key, id, guard, visit, now);
    StoreKnown(jobs);
    if r.Ok? {
      CreatedSound(requestSha, correlation, r.value, key, now);
      AddedRecord(Swept(old(jobs.Contents()), jobs.limits.maxRetained, now),
                  Created(requestSha, correlation, r.value, key, now));
    }
  }

  lemma AddedRecord(j: Jobs, r: JobRecord)
    ensures Add(j, r).records == j.records[r.accepted.jobId := r]
  {
  }

  /** A manager whose jobs run in the slots of its semaphore. Every job it creates is admitted behind the jobs it
      counts; jobs start in order as slots are free; a job that fails gives up its slot first and has its failure
      recorded before time goes on. */
  class SlottedManager {
    const jobs: SolveJobManager
    var floor: S.Floor
    var ids: seq<JobId>
    var releasing: set<nat>

    ghost predicate Valid()
      reads this, jobs
    {
      && jobs.Valid() && Coupled(jobs.records, floor, ids, releasing, jobs.limits)
      && S.FloorSound(floor, jobs.limits.concurrency, jobs.limits.timeout)
      && forall k :: 0 <= k < |ids| ==> ids[k] in jobs.history
    }

    constructor (limits: Limits, now: Time)
      requires limits.Valid()
      ensures Valid() && fresh(jobs) && jobs.limits == limits && floor == S.Empty(now) && ids == []
    {
      jobs := new SolveJobManager(limits);
      floor, ids, releasing := S.Empty(now), [], {};
      new;
      EmptyFloorSound(now, limits);
    }

    /** Submit a request at the present time. A created job is admitted to the schedule behind the jobs counted. */
    method Submit(requestSha: string, correlation: nat, key: Option<Key>, id: JobId,
                  guard: Admission.AdmissionController?, visit: Visit) returns (r: Result<Accepted, SubmitError>)
      requires Valid() && (guard != null ==> guard.Valid()) && id !in jobs.history
      modifies this`floor, this`ids, jobs, guard
      ensures Valid() && (guard != null ==> guard.Valid())
      ensures if id in jobs.history
              then var ahead := |Active(old(jobs.records))|;
                && floor == S.Step(old(floor), S.Admit(ahead)) && ids == old(ids) + [id]
                && r.Ok? && r.value.expiresAt == Promise(jobs.limits, ahead, floor.now)
              else floor == old(floor) && ids == old(ids)
    {
      hide SolveJobManager.Valid, Swept, Active, Coupled, S.FloorSound, S.Unfinished, Created, Promise, Add,
           StoreSound, Admission.AdmissionController.Valid;
      var ahead := |Active(jobs.records)|;
      ghost var j := jobs.Contents();
      StoreKnown(jobs);
      UnfinishedActive(jobs.records, floor, ids, releasing, jobs.limits);
      SweptCoupled(j, jobs.limits.maxRetained, floor.now, floor, ids, releasing, jobs.limits);
      r := SubmitNew(jobs, requestSha, correlation, key, id, guard, visit, floor.now);
      if id in jobs.records {
        CreatedSound(requestSha, correlation, r.value, key, floor.now);
        AdmittedCoupled(Swept(j, jobs.limits.maxRetained, floor.now),
                        Created(requestSha, correlation, r.value, key, floor.now),
                        floor, ids, releasing, jobs.limits, ahead);
        MoveKeepsFloor(floor, S.Admit(ahead), jobs.limits);
        floor := S.Step(floor, S.Admit(ahead));
        ids := ids + [id];
      }
    }

    /** The next job in line takes a free slot. */
    method StartNext() returns (r: Result<(), JobError>)
      requires Valid() && S.Enabled(floor, S.StartNext, jobs.limits.concurrency, jobs.limits.timeout)
      modifies this`floor, jobs
      ensures Valid() && r.Ok? && floor == S.Step(old(floor), S.StartNext)
      ensures var id := ids[|old(floor).starts|];
        id in old(jobs.records)
        && Stepped(old(jobs.Contents()), jobs.Contents(), Started(old(jobs.records)[id], floor.now), r)
    {
      hide StoreSound, Recorded, S.FloorSound, Coupled, Append, Active;
      UpdatedParts(jobs.Contents(), floor, ids, releasing, jobs.limits);
      var k := |floor.starts|;
      WaitingJob(jobs.records, floor, ids, releasing, jobs.limits, k);
      RecordNamed(jobs.Contents(), ids[k]);
      ghost var j := jobs.Contents();
      r := jobs.Start(ids[k], floor.now);
      AppendKeeps(j.records[ids[k]].(state := Running), RunningEvent, floor.now);
      StartedCoupled(j, Started(j.records[ids[k]], floor.now).value, floor, ids, releasing, jobs.limits);
      MoveKeepsFloor(floor, S.StartNext, jobs.limits);
      floor := S.Step(floor, S.StartNext);
    }

    /** A running job reports progress. */
    method RecordProgress(k: nat, value: real) returns (r: Result<(), JobError>)
      requires Valid() && k < |floor.ends| && floor.ends[k] == None
      modifies jobs
      ensures Valid() && jobs.history.Keys == old(jobs.history).Keys
      ensures ids[k] in old(jobs.records)
        && Stepped(old(jobs.Contents()), jobs.Contents(), Progressed(old(jobs.records)[ids[k]], value, floor.now), r)
    {
      hide StoreSound, Recorded, S.FloorSound, Coupled, Append, Active;
      RunningJob(jobs.records, floor, ids, releasing, jobs.limits, k);
      RecordNamed(jobs.Contents(), ids[k]);
      ghost var j := jobs.Contents();
      r := jobs.RecordProgress(ids[k], value, floor.now);
      if r.Ok? {
        ghost var record := j.records[ids[k]];
        AppendKeeps(record.(progress := value, progressEvents := record.progressEvents + 1), ProgressEvent, floor.now);
        SameStateCoupled(j, Progressed(record, value, floor.now).value, floor, ids, releasing, jobs.limits, k);
      }
    }

    /** Anyone may poll any job at the present time; a record may expire by it. */
    method Status(id: JobId) returns (r: Result<JobRecord, JobError>)
      requires Valid()
      modifies jobs
      ensures Valid() && jobs.history == old(jobs.history) && (r.Ok? ==> ValidStatus(r.value))
      ensures r == if id in old(jobs.records) then Ok(ExpiredAt(old(jobs.records)[id], floor.now)) else Err(NotFound)
    {
      hide StoreSound, Recorded, S.FloorSound, Coupled, Active, ExpiredAt, ExpireOne, ValidStatus;
      ghost var j := jobs.Contents();
      r := jobs.Status(id, floor.now);
      if id in j.records {
        ExpireOneRecords(j, id, floor.now);
        PolledCoupled(j.records, id, floor.now, floor, ids, releasing, jobs.limits);
      }
    }

    /** The executor returns a result for a running job. If the job takes it, it is over; if not, its slot is free and a
        failure is still to be recorded. */
    method Complete(k: nat, result: SolveResult) returns (r: Result<(), JobError>)
      requires Valid() && k < |floor.ends| && floor.ends[k] == None
      modifies this`floor, this`releasing, jobs
      ensures Valid() && floor == S.Step(old(floor), S.Finish(k))
      ensures releasing == if r.Ok? then old(releasing) else old(releasing) + {k}
      ensures ids[k] in old(jobs.records)
        && Stepped(old(jobs.Contents()), jobs.Contents(), Completed(old(jobs.records)[ids[k]], result, floor.now), r)
    {
      hide StoreSound, Recorded, S.FloorSound, Coupled, Append, Active;
      RunningJob(jobs.records, floor, ids, releasing, jobs.limits, k);
      RecordNamed(jobs.Contents(), ids[k]);
      ghost var j := jobs.Contents();
      MoveKeepsFloor(floor, S.Finish(k), jobs.limits);
      r := jobs.Complete(ids[k], result, floor.now);
      if r.Ok? {
        AppendKeeps(j.records[ids[k]].(state := Succeeded, progress := 1.0, result := Some(result),
                                       terminalAt := Some(floor.now)), CompletedEvent, floor.now);
        EndedCoupled(j, Completed(j.records[ids[k]], result, floor.now).value, floor, ids, releasing, jobs.limits, k);
      } else {
        ReleasedCoupled(j, floor, ids, releasing, jobs.limits, k);
        releasing := releasing + {k};
      }
      floor := S.Step(floor, S.Finish(k));
    }

    /** A running job fails or times out: its slot is free at once. */
    method GiveUp(k: nat)
      requires Valid() && k < |floor.ends| && floor.ends[k] == None
      modifies this`floor, this`releasing
      ensures Valid() && floor == S.Step(old(floor), S.Finish(k)) && releasing == old(releasing) + {k}
    {
      hide StoreSound, Recorded, S.FloorSound, Coupled, Active;
      RunningJob(jobs.records, floor, ids, releasing, jobs.limits, k);
      RecordNamed(jobs.Contents(), ids[k]);
      MoveKeepsFloor(floor, S.Finish(k), jobs.limits);
      ReleasedCoupled(jobs.Contents(), floor, ids, releasing, jobs.limits, k);
      releasing := releasing + {k};
      floor := S.Step(floor, S.Finish(k));
    }

    /** The failure of a job that has given up its slot is recorded. */
    method RecordFailure(k: nat, code: string, retryable: bool)
      requires Valid() && k in releasing
      modifies this`releasing, jobs
      ensures Valid() && releasing == old(releasing) - {k}
      ensures ids[k] in old(jobs.records)
        && Stepped(old(jobs.Contents()), jobs.Contents(),
                   FailedWith(old(jobs.records)[ids[k]], code, retryable, floor.now), Ok(()))
    {
      hide StoreSound, Recorded, S.FloorSound, Promise, Append, Active;
      assert Pending(floor, k, releasing);
      assert RecordFits(jobs.records[ids[k]], floor, k, releasing, jobs.limits);
      RecordNamed(jobs.Contents(), ids[k]);
      ghost var j := jobs.Contents();
      var r := jobs.Fail(ids[k], code, retryable, floor.now);
      var error := PublicError(code, retryable, j.records[ids[k]].correlation);
      AppendKeeps(j.records[ids[k]].(state := Failed, error := Some(error), terminalAt := Some(floor.now)),
                  FailedEvent, floor.now);
      UpdatedCoupled(j, FailedWith(j.records[ids[k]], code, retryable, floor.now).value, floor, floor, ids, releasing,
                     releasing - {k}, jobs.limits, k);
      releasing := releasing - {k};
    }

    /** Time goes on, once nothing can start, no timeout is overdue and every failure has been recorded. */
    method Tick(to: Time)
      requires Valid() && S.Enabled(floor, S.Tick(to), jobs.limits.concurrency, jobs.limits.timeout) && releasing == {}
      modifies this`floor
      ensures Valid() && floor == S.Step(old(floor), S.Tick(to))
    {
      hide StoreSound, Recorded, S.FloorSound, Promise, Active;
      MoveKeepsFloor(floor, S.Tick(to), jobs.limits);
      floor := S.Step(floor, S.Tick(to));
    }

    /** The promises are kept in the records themselves: the retention of every finished job ends by the expiry that was
        promised when it was created, and no job still queued or running is late for it. */
    lemma PromisesKept(id: JobId)
      requires Valid() && id in jobs.records
      ensures var r := jobs.records[id];
        && (r.state in {Succeeded, Failed} ==> r.terminalAt.value + TERMINAL_RETENTION <= r.accepted.expiresAt)
        && (r.state in {Queued, Running} ==> floor.now + TERMINAL_RETENTION <= r.accepted.expiresAt)
    {
      hide StoreSound, Recorded, S.FloorSound, S.StartsBy, Active, Coupled;
      var k := PlaceOf(jobs.records, floor, ids, releasing, jobs.limits, id);
      S.PromiseKept(floor, jobs.limits, k);
    }
  }

  lemma PlaceOf(records: map<JobId, JobRecord>, f: S.Floor, ids: seq<JobId>, releasing: set<nat>, limits: Limits,
                id: JobId)
      returns (k: nat)
    requires limits.concurrency > 0 && Coupled(records, f, ids, releasing, limits) && id in records
    ensures k < |f.admitted| == |f.ahead| && RecordFits(records[id], f, k, releasing, limits)
    ensures forall i :: i in releasing ==> i < |f.ends| && f.ends[i] == Some(f.now)
  {
    k :| 0 <= k < |ids| && ids[k] == id;
    assert RecordFits(records[ids[k]], f, k, releasing, limits);
  }

  lemma KnownRecords(j: Jobs, h: History)
    requires Recorded(j, h)
    ensures forall id :: id in j.records ==> id in h
  {
  }

  lemma RecordNamed(j: Jobs, id: JobId)
    requires StoreSound(j) && id in j.records
    ensures j.records[id].accepted.jobId == id
  {
  }

  lemma AppendKeeps(r: JobRecord, name: EventName, now: Time)
    ensures var s := Append(r, name, now);
      s.accepted == r.accepted && s.state == r.state && s.terminalAt == r.terminalAt
  {
  }
}
