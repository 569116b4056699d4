/** Replayable event streams: a reader that resumes at a cursor while submissions, job steps, expiry and
    shutdown happen between any two of its own steps. Resuming at a cursor serves the Last-Event-ID
    reconnection of section 9.2 of the WHATWG HTML Standard. */
module JobStreams {
  import Admission
  import opened JobRecords
  import opened JobStore
  import opened SolveJobs
  import TokenBuckets
  import opened Wrappers

  datatype StreamError = NegativeCursor | NoSuchJob | HistoryExpired | CursorAhead

  /** Why a stream ended: the job is over, the manager has closed, the history has expired, the job is
      gone, or the reader has gone away. */
  datatype Ending = JobOver | ManagerClosed | HistoryGone | JobGone | ReaderGone

  /** Something that happens between two steps of a reader. */
  datatype Happening =
    | Submits(requestSha: string, correlation: nat, key: Option<Key>, id: JobId, visit: Visit, now: Time)
    | Starts(id: JobId, now: Time)
    | Progresses(id: JobId, value: real, now: Time)
    | Completes(id: JobId, result: SolveResult, now: Time)
    | Fails(id: JobId, code: string, retryable: bool, now: Time)
    | Polls(id: JobId, now: Time)
    | Closes
    | Predicts(client: TokenBuckets.Client, instant: real)
    | Measures(wall: Admission.Wall, instant: real)

  /** A turn of the reader, or of anybody else. */
  datatype Turn = Reader(now: Time) | Other(happening: Happening)

  ghost function Issued(h: Happening): set<JobId> { if h.Submits? then {h.id} else {} }

  /** Whether something happens early enough to find a job retained. */
  ghost predicate Before(h: Happening, deadline: Time) {
    match h
    case Submits(_, _, _, _, _, now) => now < deadline
    case Polls(_, now) => now < deadline
    case _ => true
  }

  /** Every job that is over and still retained is as it was; one no longer retained is as it was, or has expired, or
      is gone; and the only new record is that of a job submitted. */
  ghost predicate Spared(records: map<JobId, JobRecord>, records': map<JobId, JobRecord>, h: Happening) {
    && (forall id :: id in records && Over(records[id]) && Before(h, records[id].terminalAt.value + 3_600_000_000) ==>
          id in records' && records'[id] == records[id])
    && (forall id :: id in records && (Over(records[id]) || records[id].state == Expired) && id in records' ==>
          records'[id] == records[id] || records'[id].state == Expired)
    && forall id :: id in records' ==> id in records || id in Issued(h)
  }

  lemma NothingChanged(records: map<JobId, JobRecord>, h: Happening)
    ensures Spared(records, records, h)
  {
  }

  /** A step on one job spares every job that is over, that job included. */
  lemma StepSpares(j: Jobs, j': Jobs, id: JobId, step: Result<JobRecord, JobError>, r: Result<(), JobError>,
                   h: Happening)
    requires StoreSound(j) && Stepped(j, j', step, r)
    requires step.Ok? ==> id in j.records && step.value.accepted == j.records[id].accepted
    requires step.Ok? && (Over(j.records[id]) || j.records[id].state == Expired) ==> step.value == j.records[id]
    ensures Spared(j.records, j'.records, h)
  {
    hide RecordSound;
  }

  lemma AddSpares(j: Jobs, r: JobRecord, records: map<JobId, JobRecord>, h: Happening)
    requires r.accepted.jobId !in records && Spared(records, j.records, h) && r.accepted.jobId in Issued(h)
    ensures Spared(records, Add(j, r).records, h)
  {
  }

  lemma SweepSpares(j: Jobs, limit: nat, now: Time, h: Happening)
    requires StoreSound(j) && h.Submits? && h.now == now
    ensures (forall x :: x in j.order ==> x in j.records) && Spared(j.records, Swept(j, limit, now).records, h)
  {
    hide StoreSound, Swept, RecordSound;
    SweptSound(j, limit, now);
    forall id | id in j.records && Over(j.records[id]) && now < j.records[id].terminalAt.value + 3_600_000_000
      ensures id in Swept(j, limit, now).records && Swept(j, limit, now).records[id] == j.records[id]
    {
      SweptRetains(j, limit, now, id);
    }
  }

  lemma PollSpares(j: Jobs, id: JobId, now: Time, h: Happening)
    requires StoreSound(j) && id in j.records && h.Polls? && h.now == now
    ensures Spared(j.records, ExpireOne(j, id, now).records, h)
  {
    hide RecordSound;
  }

  /** The identifier factory gives each new submission an identifier never given before. */
  ghost predicate FreshIds(schedule: seq<Turn>, known: set<JobId>)
    decreases |schedule|
  {
    schedule != [] ==>
      if schedule[0].Reader? then FreshIds(schedule[1..], known)
      else Issued(schedule[0].happening) !! known && FreshIds(schedule[1..], known + Issued(schedule[0].happening))
  }

  lemma {:induction false} FreshIdsAntitone(schedule: seq<Turn>, known: set<JobId>, fewer: set<JobId>)
    requires FreshIds(schedule, known) && fewer <= known
    ensures FreshIds(schedule, fewer)
    decreases |schedule|
  {
    if schedule != [] {
      if schedule[0].Reader? {
        FreshIdsAntitone(schedule[1..], known, fewer);
      } else {
        FreshIdsAntitone(schedule[1..], known + Issued(schedule[0].happening), fewer + Issued(schedule[0].happening));
      }
    }
  }

  /** Jobs and admissions agree: every job ever created was counted once, on the day of its check, and
      nothing else was. */
  ghost predicate Reconciled(m: SolveJobManager, guard: Admission.AdmissionController)
    reads m, guard
  {
    guard.solvesByDay == m.checkedOn && |m.checkedOn| == |m.history|
  }

  /** A submission under a new identifier keeps jobs and admissions reconciled, and retained jobs as they are. */
  method SubmitNew(m: SolveJobManager, guard: Admission.AdmissionController, h: Happening)
    requires m.Valid() && guard.Valid() && h.Submits? && h.id !in m.history
    modifies m, guard
    ensures m.Valid() && Grown(old(m.history), m.history) && m.history.Keys <= old(m.history).Keys + {h.id}
    ensures guard.Valid() && (old(Reconciled(m, guard)) ==> Reconciled(m, guard))
    ensures Spared(old(m.records), m.records, h) && m.closed == old(m.closed)
  {
    hide StoreSound, Recorded, Grown, Swept, Active, Answer, Creatable, Add, Created, SolveJobManager.Valid, Spared,
         Admission.AdmissionController.Valid, Admission.AdmissionController.Allows;
    SelfGrown(m.history);
    ManagerSound(m);
    NothingChanged(m.records, h);
    SweepSpares(m.Contents(), m.limits.maxRetained, h.now, h);
    var r := m.Submit(h.requestSha, h.correlation, h.key, h.id, guard, h.visit, h.now);
    assert |m.history| == |m.history.Keys| && |old(m.history)| == |old(m.history).Keys|;
    if r.Ok? && h.id in m.history {
      CreatedSound(h.requestSha, h.correlation, r.value, h.key, h.now);
      CreatesOwnJob(m.limits, Swept(old(m.Contents()), m.limits.maxRetained, h.now), h);
      AddSpares(Swept(old(m.Contents()), m.limits.maxRetained, h.now),
                Created(h.requestSha, h.correlation, r.value, h.key, h.now), old(m.records), h);
    }
  }

  lemma CreatesOwnJob(limits: Limits, j: Jobs, h: Happening)
    requires limits.Valid() && h.Submits? && Creatable(limits, j, h.key, h.id)
    ensures var answer := Answer(limits, j, h.requestSha, h.key, h.id, h.now); answer.Ok? && answer.value.jobId == h.id
  {
    hide Active;
  }

  lemma ManagerSound(m: SolveJobManager)
    requires m.Valid()
    ensures StoreSound(m.Contents()) && m.limits.Valid() && forall id :: id in m.records ==> id in m.history
  {
    hide StoreSound;
  }

  /** Let something happen, if the job's coroutine could do it now: a job starts once, while queued, and
      reports progress only afterwards. A job that is over and retained is as it was afterwards. */
  method Happen(m: SolveJobManager, guard: Admission.AdmissionController, h: Happening)
    requires m.Valid() && guard.Valid() && Issued(h) !! m.history.Keys
    modifies m, guard
    ensures m.Valid() && Grown(old(m.history), m.history) && m.history.Keys <= old(m.history).Keys + Issued(h)
    ensures guard.Valid() && (old(Reconciled(m, guard)) ==> Reconciled(m, guard))
    ensures Spared(old(m.records), m.records, h) && (m.closed ==> old(m.closed) || h == Closes)
  {
    hide StoreSound, Recorded, Grown, Swept, Active, Answer, Creatable, Stepped, SolveJobManager.Valid, Spared, Started,
         Progressed, Completed, FailedWith, KeepsRest, Logs,
         Admission.AdmissionController.Valid, Admission.AdmissionController.Allows;
    SelfGrown(m.history);
    ManagerSound(m);
    NothingChanged(m.records, h);
    ghost var j := m.Contents();
    match h {
      case Submits(_, _, _, _, _, _) =>
        SubmitNew(m, guard, h);
      case Starts(id, now) =>
        if id in m.records && m.records[id].state == Queued {
          var r := m.Start(id, now);
          StartSpares(j, m.Contents(), id, now, r, h);
        }
      case Progresses(id, value, now) =>
        if id in m.records && m.records[id].state != Queued {
          var r := m.RecordProgress(id, value, now);
          ProgressSpares(j, m.Contents(), id, value, now, r, h);
        }
      case Completes(id, result, now) =>
        var r := m.Complete(id, result, now);
        CompleteSpares(j, m.Contents(), id, result, now, r, h);
      case Fails(id, code, retryable, now) =>
        var r := m.Fail(id, code, retryable, now);
        FailSpares(j, m.Contents(), id, code, retryable, now, r, h);
      case Polls(id, now) =>
        var r := m.Status(id, now);
        if id in j.records {
          PollSpares(j, id, now, h);
        }
      case Closes =>
        m.Close();
      case Predicts(client, instant) =>
        var _ := guard.AdmitPrediction(client, instant);
      case Measures(wall, instant) =>
        var _ := guard.Snapshot(wall, instant);
    }
  }

  lemma StartSpares(j: Jobs, j': Jobs, id: JobId, now: Time, r: Result<(), JobError>, h: Happening)
    requires StoreSound(j) && id in j.records && j.records[id].state == Queued
    requires Stepped(j, j', Started(j.records[id], now), r)
    ensures Spared(j.records, j'.records, h)
  {
    hide StoreSound, Stepped, Spared;
    StepSpares(j, j', id, Started(j.records[id], now), r, h);
  }

  lemma ProgressSpares(j: Jobs, j': Jobs, id: JobId, value: real, now: Time, r: Result<(), JobError>, h: Happening)
    requires StoreSound(j) && id in j.records
    requires Stepped(j, j', if value < 0.0 || value >= 1.0 then Err(BadProgress)
                            else Progressed(j.records[id], value, now), r)
    ensures Spared(j.records, j'.records, h)
  {
    hide StoreSound, Stepped, Spared;
    StepSpares(j, j', id, Progressed(j.records[id], value, now), r, h);
  }

  lemma CompleteSpares(j: Jobs, j': Jobs, id: JobId, result: SolveResult, now: Time, r: Result<(), JobError>,
                       h: Happening)
    requires StoreSound(j)
    requires Stepped(j, j', if id in j.records then Completed(j.records[id], result, now) else Err(NotFound), r)
    ensures Spared(j.records, j'.records, h)
  {
    hide StoreSound, Stepped, Spared;
    StepSpares(j, j', id, if id in j.records then Completed(j.records[id], result, now) else Err(NotFound), r, h);
  }

  lemma FailSpares(j: Jobs, j': Jobs, id: JobId, code: string, retryable: bool, now: Time, r: Result<(), JobError>,
                   h: Happening)
    requires StoreSound(j)
    requires Stepped(j, j', if id in j.records then FailedWith(j.records[id], code, retryable, now)
                            else Err(NotFound), r)
    ensures Spared(j.records, j'.records, h)
  {
    hide StoreSound, Stepped, Spared;
    StepSpares(j, j', id, if id in j.records then FailedWith(j.records[id], code, retryable, now) else Err(NotFound),
               r, h);
  }

  /** Check a cursor before streaming from it. */
  method OpenEvents(m: SolveJobManager, id: JobId, after: int, now: Time) returns (r: Result<nat, StreamError>)
    requires m.Valid()
    modifies m`records, m`idempotency
    ensures m.Valid()
    ensures after < 0 ==> r == Err(NegativeCursor)
    ensures after >= 0 && id !in old(m.records) ==> r == Err(NoSuchJob)
    ensures after >= 0 && id in old(m.records) ==>
      r == if ExpiredAt(old(m.records)[id], now).state == Expired then Err(HistoryExpired)
           else if after > old(m.records)[id].sequence then Err(CursorAhead) else Ok(after)
    ensures r.Ok? ==> id in m.history && r.value <= |m.history[id]|
  {
    hide StoreSound, Recorded, ExpireOne, Active;
    if after < 0 {
      return Err(NegativeCursor);
    }
    if id !in m.records {
      return Err(NoSuchJob);
    }
    ExpireOneRecords(m.Contents(), id, now);
    m.ExpireValid(id, now);
    HistoryKnows(m.Contents(), m.history, id);
    if m.records[id].state == Expired {
      return Err(HistoryExpired);
    }
    if after > m.records[id].sequence {
      return Err(CursorAhead);
    }
    return Ok(after);
  }

  /** The first event past a cursor, if there is one. */
  method NextEvent(events: seq<SolveEvent>, cursor: nat) returns (next: Option<SolveEvent>)
    requires forall i :: 0 <= i < |events| ==> events[i].sequence == i + 1
    ensures next == if cursor < |events| then Some(events[cursor]) else None
  {
    for i := 0 to |events|
      invariant i <= cursor
    {
      if events[i].sequence > cursor {
        return Some(events[i]);
      }
    }
    return None;
  }

  /** What an ended stream says about its job, having delivered everything up to `cursor`. */
  ghost predicate Explains(m: SolveJobManager, id: JobId, cursor: nat, ending: Ending)
    reads m
  {
    id in m.history && match ending
      case JobOver => id in m.records && m.records[id].state in {Succeeded, Failed} && cursor == |m.history[id]|
      case ManagerClosed => m.closed && cursor == |m.history[id]|
      case HistoryGone => id in m.records && m.records[id].state == Expired
      case JobGone => id !in m.records
      case ReaderGone => true
  }

  /** One step of the reader: deliver the next event, end the stream, or wait. */
  method ReaderStep(m: SolveJobManager, id: JobId, cursor: nat, now: Time)
      returns (event: Option<SolveEvent>, ending: Option<Ending>)
    requires m.Valid() && id in m.history && cursor <= |m.history[id]|
    modifies m`records, m`idempotency
    ensures m.Valid() && (event == None || ending == None)
    ensures event.Some? ==>
      cursor < |m.history[id]| && event.value == m.history[id][cursor] && event.value.sequence == cursor + 1
    ensures ending.Some? ==> ending.value != ReaderGone && Explains(m, id, cursor, ending.value)
    ensures event == None && ending == None ==>
      cursor == |m.history[id]| && id in m.records && m.records[id].state in {Queued, Running} && !m.closed
  {
    hide StoreSound, Recorded, ExpireOne, Active, RecordSound;
    if id !in m.records {
      return None, Some(JobGone);
    }
    ExpireOneRecords(m.Contents(), id, now);
    m.ExpireValid(id, now);
    if m.records[id].state == Expired {
      return None, Some(HistoryGone);
    }
    HistoryKnows(m.Contents(), m.history, id);
    LogNumbered(m.Contents(), m.history, id);
    var available := NextEvent(m.records[id].events, cursor);
    if available.Some? {
      return available, None;
    }
    if m.records[id].state in {Succeeded, Failed} {
      return None, Some(JobOver);
    }
    if m.closed {
      return None, Some(ManagerClosed);
    }
    return None, None;
  }

  lemma LogNumbered(j: Jobs, h: History, id: JobId)
    requires Recorded(j, h) && id in h
    ensures forall i :: 0 <= i < |h[id]| ==> h[id][i].sequence == i + 1
  {
  }

  /** What has been delivered stays a part of a log that only grows. */
  lemma DeliveredStays(first: History, h: History, h': History, id: JobId, after: nat, cursor: nat)
    requires Grown(first, h) && Grown(h, h') && id in h && after <= cursor <= |h[id]|
    ensures Grown(first, h') && id in h' && cursor <= |h'[id]| && h'[id][after..cursor] == h[id][after..cursor]
  {
  }

  lemma FreshIdsStep(schedule: seq<Turn>, k: nat, known: set<JobId>)
    requires k < |schedule| && FreshIds(schedule[k..], known)
    ensures schedule[k].Reader? ==> FreshIds(schedule[k + 1..], known)
    ensures schedule[k].Other? ==>
      Issued(schedule[k].happening) !! known && FreshIds(schedule[k + 1..], known + Issued(schedule[k].happening))
  {
    assert schedule[k..][1..] == schedule[k + 1..];
  }

  /** A stream opened at a cursor. Whatever happens in between, it delivers exactly the events after the
      cursor, in order, with none left out and none twice; unless the reader leaves, it stops only once the
      job is over or the manager closed and every event has been delivered, or when the history has expired. */
  method EventStream(m: SolveJobManager, guard: Admission.AdmissionController, id: JobId, after: nat,
                     schedule: seq<Turn>)
      returns (delivered: seq<SolveEvent>, ending: Ending)
    requires m.Valid() && guard.Valid() && id in m.history && after <= |m.history[id]|
      && FreshIds(schedule, m.history.Keys)
    modifies m, guard
    ensures m.Valid() && Grown(old(m.history), m.history) && id in m.history
    ensures guard.Valid() && (old(Reconciled(m, guard)) ==> Reconciled(m, guard))
    ensures after + |delivered| <= |m.history[id]| && delivered == m.history[id][after..after + |delivered|]
    ensures forall i :: 0 <= i < |delivered| ==> delivered[i].sequence == after + i + 1
    ensures Explains(m, id, after + |delivered|, ending)
  {
    hide StoreSound, Recorded, Active, Admission.AdmissionController.Valid, SolveJobManager.Valid, Grown, FreshIds,
         Issued, Spared;
    SelfGrown(m.history);
    delivered, ending := [], ReaderGone;
    var cursor, k := after, 0;
    assert schedule[0..] == schedule;
    while k < |schedule|
      invariant 0 <= k <= |schedule| && cursor == after + |delivered| && ending == ReaderGone
      invariant guard.Valid() && (old(Reconciled(m, guard)) ==> Reconciled(m, guard))
      invariant m.Valid() && Grown(old(m.history), m.history) && id in m.history
        && FreshIds(schedule[k..], m.history.Keys)
      invariant cursor <= |m.history[id]| && delivered == m.history[id][after..cursor]
      invariant forall i :: 0 <= i < |delivered| ==> delivered[i].sequence == after + i + 1
    {
      var turn := schedule[k];
      FreshIdsStep(schedule, k, m.history.Keys);
      k := k + 1;
      match turn {
        case Other(happening) =>
          ghost var h := m.history;
          Happen(m, guard, happening);
          FreshIdsAntitone(schedule[k..], h.Keys + Issued(happening), m.history.Keys);
          DeliveredStays(old(m.history), h, m.history, id, after, cursor);
        case Reader(now) =>
          var event, ended := ReaderStep(m, id, cursor, now);
          if ended.Some? {
            return delivered, ended.value;
          }
          if event.Some? {
            delivered := delivered + [event.value];
            cursor := event.value.sequence;
          }
      }
    }
  }
}
