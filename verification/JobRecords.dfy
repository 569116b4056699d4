/** One solve job: its record, the contract of its status and events, and the steps that change it. */
module JobRecords {
  import opened Wrappers

  /** Microseconds since some origin. */
  type Time = int

  type JobId = nat
  type CaseId = string
  type Key = string

  const MAX_PROGRESS_EVENTS := 2048
  const TERMINAL_RETENTION: Time := 60 * 60 * 1_000_000

  datatype JobState = Queued | Running | Succeeded | Failed | Expired

  datatype EventName = QueuedEvent | RunningEvent | ProgressEvent | CompletedEvent | FailedEvent

  datatype SolveResult = SolveResult(correlation: nat, jobId: JobId, caseId: CaseId)

  datatype PublicError = PublicError(code: string, retryable: bool, correlation: nat)

  datatype EventData = EventData(caseId: CaseId, state: JobState, progress: real, result: Option<SolveResult>,
    error: Option<PublicError>)

  datatype SolveEvent = SolveEvent(sequence: nat, jobId: JobId, timestamp: Time, name: EventName, data: EventData)

  datatype Accepted = Accepted(jobId: JobId, caseId: CaseId, expiresAt: Time)

  datatype JobRecord = JobRecord(
    requestSha: string, correlation: nat, accepted: Accepted, key: Option<Key>,
    state: JobState, progress: real, result: Option<SolveResult>, error: Option<PublicError>,
    sequence: nat, events: seq<SolveEvent>, terminalAt: Option<Time>, progressEvents: nat)

  datatype JobError = IllegalTransition | BadProgress | TooManyProgressEvents | WrongIdentity | NotFound

  /** The phases a job may move between. */
  predicate LegalTransition(a: JobState, b: JobState) {
    || (a == Queued && b in {Running, Failed})
    || (a == Running && b in {Running, Succeeded, Failed})
    || (a in {Succeeded, Failed} && b == Expired)
  }

  /** The contract between a phase and the payload shown with it. */
  predicate ValidPayload(state: JobState, progress: real, result: Option<SolveResult>, error: Option<PublicError>) {
    && 0.0 <= progress <= 1.0
    && match state
       case Queued => progress == 0.0 && result == None && error == None
       case Running => progress < 1.0 && result == None && error == None
       case Succeeded => progress == 1.0 && result.Some? && error == None
       case Failed => result == None && error.Some?
       case Expired => result == None && error == None
  }

  function StateOf(name: EventName): JobState {
    match name
    case QueuedEvent => Queued
    case RunningEvent => Running
    case ProgressEvent => Running
    case CompletedEvent => Succeeded
    case FailedEvent => Failed
  }

  /** The contract of one event. */
  predicate ValidEvent(e: SolveEvent) {
    && e.sequence >= 1
    && ValidPayload(e.data.state, e.data.progress, e.data.result, e.data.error)
    && e.data.state == StateOf(e.name)
    && (e.data.result.Some? ==> e.data.result.value.jobId == e.jobId)
  }

  /** The contract of a polled status. */
  predicate ValidStatus(r: JobRecord) {
    && r.sequence >= 1
    && ValidPayload(r.state, r.progress, r.result, r.error)
    && (r.result.Some? ==> r.result.value.jobId == r.accepted.jobId && r.result.value.caseId == r.accepted.caseId)
  }

  /** What the two contracts ask, kind by kind: a queued job shows nothing, a running one its progress short of the end,
      a completed one everything done and its own result, a failed one an error and no result. */
  lemma ContractsExactly(e: SolveEvent, r: JobRecord)
    ensures ValidEvent(e) <==>
      && e.sequence > 0
      && match e.name
         case QueuedEvent =>
           e.data.state == Queued && e.data.progress == 0.0 && e.data.result == None && e.data.error == None
         case RunningEvent =>
           e.data.state == Running && 0.0 <= e.data.progress < 1.0 && e.data.result == None && e.data.error == None
         case ProgressEvent =>
           e.data.state == Running && 0.0 <= e.data.progress < 1.0 && e.data.result == None && e.data.error == None
         case CompletedEvent =>
           e.data.state == Succeeded && e.data.progress == 1.0 && e.data.error == None
           && e.data.result.Some? && e.data.result.value.jobId == e.jobId
         case FailedEvent =>
           e.data.state == Failed && 0.0 <= e.data.progress <= 1.0 && e.data.result == None && e.data.error.Some?
    ensures ValidStatus(r) <==>
      && r.sequence > 0
      && match r.state
         case Queued => r.progress == 0.0 && r.result == None && r.error == None
         case Running => 0.0 <= r.progress < 1.0 && r.result == None && r.error == None
         case Succeeded =>
           r.progress == 1.0 && r.error == None
           && r.result.Some? && r.result.value.jobId == r.accepted.jobId && r.result.value.caseId == r.accepted.caseId
         case Failed => 0.0 <= r.progress <= 1.0 && r.result == None && r.error.Some?
         case Expired => 0.0 <= r.progress <= 1.0 && r.result == None && r.error == None
  {
  }

  /** The order of a job's events: numbered from 1; queued, then running or failed, then strictly
      increasing progress, then at most one terminal event, which is last. */
  ghost predicate WellOrdered(events: seq<SolveEvent>) {
    && events != []
    && (forall i :: 0 <= i < |events| ==> events[i].sequence == i + 1)
    && (forall i :: 0 <= i < |events| ==> (events[i].name == QueuedEvent <==> i == 0))
    && (forall i :: 1 <= i < |events| ==> (events[i].name == RunningEvent ==> i == 1))
    && (|events| > 1 ==> events[1].name in {RunningEvent, FailedEvent})
    && (forall i :: 1 <= i < |events| && events[i].name == ProgressEvent ==>
      events[i - 1].data.progress < events[i].data.progress)
    && (forall i :: 0 <= i < |events| - 1 ==> events[i].name !in {CompletedEvent, FailedEvent})
  }

  ghost predicate AllValid(events: seq<SolveEvent>) {
    forall i :: 0 <= i < |events| ==> ValidEvent(events[i])
  }

  /** How many events a record in this phase has. */
  ghost predicate Counted(r: JobRecord, n: nat) {
    && r.progressEvents <= MAX_PROGRESS_EVENTS
    && match r.state
       case Queued => n == 1 && r.progressEvents == 0
       case Running => n == 2 + r.progressEvents
       case Succeeded => n == 3 + r.progressEvents
       case Failed => n == 3 + r.progressEvents || (n == 2 && r.progressEvents == 0)
       case Expired => n >= 2
  }

  /** The invariant of a retained record. */
  ghost predicate RecordSound(r: JobRecord) {
    && ValidStatus(r) && Counted(r, r.sequence)
    && (r.terminalAt.Some? <==> r.state in {Succeeded, Failed, Expired})
    && if r.state == Expired then r.events == []
       else
         && |r.events| == r.sequence && WellOrdered(r.events) && AllValid(r.events)
         && r.events[|r.events| - 1].data.progress == r.progress
         && r.events[|r.events| - 1].data.state == r.state
  }

  /** Append one event built from the record as it stands. */
  function Append(r: JobRecord, name: EventName, now: Time): JobRecord {
    r.(sequence := r.sequence + 1,
       events := r.events + [SolveEvent(r.sequence + 1, r.accepted.jobId, now, name,
                                        EventData(r.accepted.caseId, r.state, r.progress, r.result, r.error))])
  }

  function Created(requestSha: string, correlation: nat, accepted: Accepted, key: Option<Key>, now: Time): JobRecord {
    Append(JobRecord(requestSha, correlation, accepted, key, Queued, 0.0, None, None, 0, [], None, 0), QueuedEvent, now)
  }

  function Started(r: JobRecord, now: Time): Result<JobRecord, JobError> {
    if !LegalTransition(r.state, Running) then Err(IllegalTransition)
    else Ok(Append(r.(state := Running), RunningEvent, now))
  }

  function Progressed(r: JobRecord, value: real, now: Time): Result<JobRecord, JobError> {
    if value < 0.0 || value >= 1.0 then Err(BadProgress)
    else if !LegalTransition(r.state, Running) then Err(IllegalTransition)
    else if value < r.progress then Err(BadProgress)
    else if value == r.progress then Ok(r)
    else if r.progressEvents >= MAX_PROGRESS_EVENTS then Err(TooManyProgressEvents)
    else Ok(Append(r.(progress := value, progressEvents := r.progressEvents + 1), ProgressEvent, now))
  }

  function Completed(r: JobRecord, result: SolveResult, now: Time): Result<JobRecord, JobError> {
    if result.jobId != r.accepted.jobId || result.caseId != r.accepted.caseId || result.correlation != r.correlation
      then Err(WrongIdentity)
    else if !LegalTransition(r.state, Succeeded) then Err(IllegalTransition)
    else Ok(Append(r.(state := Succeeded, progress := 1.0, result := Some(result), terminalAt := Some(now)),
                   CompletedEvent, now))
  }

  /** A failure reported on a job that is already over changes nothing. */
  function FailedWith(r: JobRecord, code: string, retryable: bool, now: Time): Result<JobRecord, JobError> {
    if r.state in {Succeeded, Failed, Expired} then Ok(r)
    else if !LegalTransition(r.state, Failed) then Err(IllegalTransition)
    else
      var error := PublicError(code, retryable, r.correlation);
      Ok(Append(r.(state := Failed, error := Some(error), terminalAt := Some(now)), FailedEvent, now))
  }

  predicate RetentionOver(r: JobRecord, now: Time) {
    r.state in {Succeeded, Failed} && r.terminalAt.Some? && now >= r.terminalAt.value + TERMINAL_RETENTION
  }

  function ExpiredAt(r: JobRecord, now: Time): JobRecord {
    if !RetentionOver(r, now) then r
    else r.(state := Expired, progress := 1.0, result := None, error := None, events := [])
  }

  /** A later record of the same job: its identity is kept, and its events, unless expiry has dropped
      them, extend the earlier ones. */
  ghost predicate Later(r: JobRecord, s: JobRecord) {
    && s.accepted == r.accepted && s.requestSha == r.requestSha && s.correlation == r.correlation && s.key == r.key
    && s.sequence >= r.sequence
    && (r.state == Expired ==> s == r)
    && (s.state != Expired ==> r.events <= s.events)
    && (r.state in {Succeeded, Failed} ==> s.state in {r.state, Expired} && s.sequence == r.sequence)
  }

  lemma CreatedSound(requestSha: string, correlation: nat, accepted: Accepted, key: Option<Key>, now: Time)
    ensures var r := Created(requestSha, correlation, accepted, key, now);
      RecordSound(r) && r.state == Queued && r.accepted == accepted && r.key == key && r.requestSha == requestSha
  {
  }

  /** Appending the right event to a sound log gives a sound log. */
  lemma AppendOrdered(events: seq<SolveEvent>, e: SolveEvent)
    requires WellOrdered(events) && AllValid(events) && ValidEvent(e) && e.sequence == |events| + 1
    requires e.name != QueuedEvent && (e.name == RunningEvent ==> |events| == 1)
    requires |events| == 1 ==> e.name in {RunningEvent, FailedEvent}
    requires e.name == ProgressEvent ==> events[|events| - 1].data.progress < e.data.progress
    requires events[|events| - 1].name !in {CompletedEvent, FailedEvent}
    ensures WellOrdered(events + [e]) && AllValid(events + [e])
  {
    var all := events + [e];
    forall i | 0 <= i < |all| ensures ValidEvent(all[i]) && all[i].sequence == i + 1 {
    }
    forall i | 1 <= i < |all| && all[i].name == ProgressEvent ensures all[i - 1].data.progress < all[i].data.progress {
      if i < |events| {
        assert events[i - 1].data.progress < events[i].data.progress;
      }
    }
  }

  /** The last event of a live record carries its phase, so it is not terminal. */
  lemma LastEventLive(r: JobRecord)
    requires RecordSound(r) && r.state in {Queued, Running}
    ensures |r.events| >= 1 && r.events[|r.events| - 1].name !in {CompletedEvent, FailedEvent}
    ensures |r.events| == 1 <==> r.state == Queued
  {
    assert ValidEvent(r.events[|r.events| - 1]);
  }

  /** Starting a job keeps its record sound exactly when it is still queued. The transition table alone
      would also let a running job start again, and log a second running event. */
  lemma StartedExactly(r: JobRecord, now: Time)
    requires RecordSound(r) && Started(r, now).Ok?
    ensures RecordSound(Started(r, now).value) && Later(r, Started(r, now).value) <==> r.state == Queued
  {
    LastEventLive(r);
    var s := Started(r, now).value;
    var e := s.events[|s.events| - 1];
    assert s.events == r.events + [e];
    if r.state == Queued {
      AppendOrdered(r.events, e);
    } else {
      assert s.events[|r.events|].name == RunningEvent && |r.events| >= 2;
    }
  }

  /** Progress keeps a record sound exactly when the job has started: reported on a queued job it would
      log an event that breaks the event contract. */
  lemma ProgressedExactly(r: JobRecord, value: real, now: Time)
    requires RecordSound(r) && Progressed(r, value, now).Ok?
    ensures RecordSound(Progressed(r, value, now).value) && Later(r, Progressed(r, value, now).value)
       <==> r.state == Running || value == r.progress
  {
    LastEventLive(r);
    var s := Progressed(r, value, now).value;
    if value != r.progress {
      var e := s.events[|s.events| - 1];
      assert s.events == r.events + [e];
      if r.state == Running {
        AppendOrdered(r.events, e);
      } else {
        assert !ValidEvent(s.events[|r.events|]);
      }
    }
  }

  lemma CompletedSound(r: JobRecord, result: SolveResult, now: Time)
    requires RecordSound(r) && Completed(r, result, now).Ok?
    ensures RecordSound(Completed(r, result, now).value) && Later(r, Completed(r, result, now).value)
    ensures Completed(r, result, now).value.state == Succeeded
  {
    LastEventLive(r);
    var s := Completed(r, result, now).value;
    var e := s.events[|s.events| - 1];
    assert s.events == r.events + [e];
    AppendOrdered(r.events, e);
  }

  lemma FailedSound(r: JobRecord, code: string, retryable: bool, now: Time)
    requires RecordSound(r)
    ensures FailedWith(r, code, retryable, now).Ok?
    ensures var s := FailedWith(r, code, retryable, now).value;
      RecordSound(s) && Later(r, s) && s.state in {Succeeded, Failed, Expired}
  {
    if r.state in {Queued, Running} {
      LastEventLive(r);
      var s := FailedWith(r, code, retryable, now).value;
      var e := s.events[|s.events| - 1];
      assert s.events == r.events + [e];
      AppendOrdered(r.events, e);
    }
  }

  lemma ExpiredSound(r: JobRecord, now: Time)
    requires RecordSound(r)
    ensures var s := ExpiredAt(r, now);
      RecordSound(s) && Later(r, s) && (s == r || s.state == Expired)
  {
  }

  /** The event that a step logs: the next number, the job and its case, the time, and the record as the step leaves
      it. */
  ghost predicate Logs(r: JobRecord, s: JobRecord, name: EventName, now: Time) {
    && s.sequence == r.sequence + 1 && |s.events| == |r.events| + 1 && s.events[..|r.events|] == r.events
    && var e := s.events[|r.events|];
       && e.sequence == s.sequence && e.jobId == s.accepted.jobId && e.timestamp == now && e.name == name
       && e.data == EventData(s.accepted.caseId, s.state, s.progress, s.result, s.error)
  }

  /** Nothing of the job's identity or of its other bookkeeping changes. */
  ghost predicate KeepsRest(r: JobRecord, s: JobRecord) {
    && s.requestSha == r.requestSha && s.correlation == r.correlation && s.accepted == r.accepted && s.key == r.key
  }

  /** A new job is queued, with nothing to show and one event. */
  lemma CreatedRecord(requestSha: string, correlation: nat, accepted: Accepted, key: Option<Key>, now: Time)
    ensures var r := Created(requestSha, correlation, accepted, key, now);
      && r.requestSha == requestSha && r.correlation == correlation && r.accepted == accepted && r.key == key
      && r.state == Queued && r.progress == 0.0 && r.result == None && r.error == None && r.terminalAt == None
      && r.progressEvents == 0 && r.sequence == |r.events| == 1
      && r.events[0]
         == SolveEvent(1, accepted.jobId, now, QueuedEvent, EventData(accepted.caseId, Queued, 0.0, None, None))
  {
  }

  /** A job that has not ended can be started, and nothing else can. */
  lemma StartedRecord(r: JobRecord, now: Time)
    ensures Started(r, now).Ok? <==> r.state == Queued || r.state == Running
    ensures Started(r, now).Ok? ==>
      var s := Started(r, now).value;
      && KeepsRest(r, s) && Logs(r, s, RunningEvent, now) && s.state == Running && s.progress == r.progress
      && s.result == r.result && s.error == r.error && s.terminalAt == r.terminalAt
      && s.progressEvents == r.progressEvents
    ensures Started(r, now).Err? ==> Started(r, now).error == IllegalTransition
  {
  }

  /** Progress is accepted up to the event limit while it does not go back, and logged when it moves. */
  lemma ProgressedRecord(r: JobRecord, value: real, now: Time)
    ensures var step := Progressed(r, value, now);
      && (step.Ok? <==>
            && 0.0 <= value < 1.0 && (r.state == Queued || r.state == Running)
            && (value == r.progress || (value > r.progress && r.progressEvents < 2048)))
      && (step.Ok? ==>
            if value == r.progress then step.value == r
            else
              var s := step.value;
              && KeepsRest(r, s) && Logs(r, s, ProgressEvent, now) && s.state == r.state && s.progress == value
              && s.result == r.result && s.error == r.error && s.terminalAt == r.terminalAt
              && s.progressEvents == r.progressEvents + 1)
      && (step == Err(TooManyProgressEvents) <==>
            && 0.0 <= value < 1.0 && (r.state == Queued || r.state == Running) && value > r.progress
            && r.progressEvents >= 2048)
      && (step == Err(IllegalTransition) <==> 0.0 <= value < 1.0 && r.state != Queued && r.state != Running)
      && (step.Err? ==> step.error in {BadProgress, IllegalTransition, TooManyProgressEvents})
  {
  }

  /** Exactly a running job completes, with a result made out to it. */
  lemma CompletedRecord(r: JobRecord, result: SolveResult, now: Time)
    ensures var step := Completed(r, result, now);
      && (step == Err(WrongIdentity) <==> result != SolveResult(r.correlation, r.accepted.jobId, r.accepted.caseId))
      && (step == Err(IllegalTransition) <==>
            result == SolveResult(r.correlation, r.accepted.jobId, r.accepted.caseId) && r.state != Running)
      && (step.Err? ==> step.error in {WrongIdentity, IllegalTransition})
      && (step.Ok? ==>
            var s := step.value;
            && KeepsRest(r, s) && Logs(r, s, CompletedEvent, now) && s.state == Succeeded && s.progress == 1.0
            && s.result == Some(result) && s.error == r.error && s.terminalAt == Some(now)
            && s.progressEvents == r.progressEvents)
  {
  }

  /** A queued or running job fails with the error reported, made out to its request; a job that is over is left as
      it is. */
  lemma FailedRecord(r: JobRecord, code: string, retryable: bool, now: Time)
    ensures var step := FailedWith(r, code, retryable, now);
      && step.Ok?
      && if r.state == Queued || r.state == Running then
           var s := step.value;
           && KeepsRest(r, s) && Logs(r, s, FailedEvent, now) && s.state == Failed && s.progress == r.progress
           && s.result == r.result && s.error == Some(PublicError(code, retryable, r.correlation))
           && s.terminalAt == Some(now) && s.progressEvents == r.progressEvents
         else step.value == r
  {
  }

  /** A job that has ended and not expired. */
  ghost predicate Over(r: JobRecord) { (r.state == Succeeded || r.state == Failed) && r.terminalAt.Some? }

  /** No step on a job that is over changes its record. */
  lemma OverStays(r: JobRecord, value: real, result: SolveResult, code: string, retryable: bool, now: Time)
    requires Over(r)
    ensures Started(r, now).Err? && Completed(r, result, now).Err?
    ensures Progressed(r, value, now).Err? && FailedWith(r, code, retryable, now) == Ok(r)
  {
  }

  /** A job that is over is retained for an hour: until then it is as it was, and from then on it has expired, with
      its identity and nothing to show. No other job expires. */
  lemma RetainedExactly(r: JobRecord, now: Time)
    requires RecordSound(r)
    ensures var s := ExpiredAt(r, now);
      if (r.state == Succeeded || r.state == Failed) && now >= r.terminalAt.value + 3_600_000_000 then
        && KeepsRest(r, s) && s.state == Expired && s.result == None && s.error == None && s.events == []
        && s.progress == 1.0 && s.sequence == r.sequence && s.terminalAt == r.terminalAt
        && s.progressEvents == r.progressEvents
      else s == r
  {
  }
}
