/** The in-process solve job manager: bounded admission, job steps, and replayable event streams. */
module SolveJobs {
  import Admission
  import opened JobRecords
  import opened JobStore
  import TokenBuckets
  import opened Wrappers

  /** Who asks for admission, and what the two clocks read when the check is made. */
  datatype Visit = Visit(client: TokenBuckets.Client, wall: Admission.Wall, instant: real)

  datatype SubmitError = BadKey | Closed | Conflict | Full | DuplicateId | Refused(refusal: Admission.Refusal) | Unknown

  predicate KeyChar(c: char, extra: set<char>) {
    'a' <= c <= 'z' || 'A' <= c <= 'Z' || '0' <= c <= '9' || c in extra
  }

  predicate ValidKey(k: Key) {
    1 <= |k| <= 64 && KeyChar(k[0], {}) && forall i :: 1 <= i < |k| ==> KeyChar(k[i], {'.', '_', ':', '-'})
  }

  /** A key is a letter or a digit and at most sixty-three characters after it, each of which may also punctuate. */
  lemma KeyPattern(k: Key)
    ensures ValidKey(k) <==>
      && 0 < |k| < 65
      && k[0] !in "._:-"
      && forall c :: c in k ==> ('a' <= c <= 'z') || ('A' <= c <= 'Z') || ('0' <= c <= '9') || c in "._:-"
  {
    assert forall c :: c in "._:-" <==> c in {'.', '_', ':', '-'};
    assert forall i :: 0 <= i < |k| ==> k[i] in k;
  }

  /** The configured bounds. */
  datatype Limits = Limits(concurrency: nat, queueCapacity: nat, maxRetained: nat, timeout: Time) {
    ghost predicate Valid() {
      concurrency > 0 && timeout > 0 && concurrency + queueCapacity <= maxRetained
    }

    function Capacity(): nat { concurrency + queueCapacity }
  }

  /** The first twenty characters of a request digest. */
  function CaseIdOf(requestSha: string): CaseId { if |requestSha| >= 20 then requestSha[..20] else requestSha }

  /** The promised expiry of a job admitted behind `ahead` unfinished jobs. */
  function Promise(limits: Limits, ahead: nat, now: Time): Time
    requires limits.concurrency > 0
  {
    now + (ahead / limits.concurrency + 1) * limits.timeout + TERMINAL_RETENTION
  }

  /** The batches that the promise counts: the one that is full of jobs ahead, and no more; then an hour. */
  lemma PromiseExactly(limits: Limits, ahead: nat, now: Time, batches: nat)
    requires limits.Valid()
    ensures Promise(limits, ahead, now) == now + batches * limits.timeout + 3_600_000_000
       <==> (batches - 1) * limits.concurrency <= ahead < batches * limits.concurrency
  {
    var q := ahead / limits.concurrency;
    assert ahead == q * limits.concurrency + ahead % limits.concurrency;
    if batches > q + 1 {
      Larger(q + 1, batches, limits.timeout);
      Larger(q + 1, batches, limits.concurrency);
      Larger(q + 1, batches - 1, limits.concurrency);
    }
    if batches < q + 1 {
      Larger(batches, q + 1, limits.timeout);
      Larger(batches, q, limits.concurrency);
    }
  }

  lemma Larger(x: int, y: int, k: int)
    requires x <= y && k > 0
    ensures x * k <= y * k && (x < y ==> x * k < y * k)
  {
  }

  /** The answer to a request on the swept store, as far as it does not depend on the admission check. */
  ghost function Answer(limits: Limits, j: Jobs, requestSha: string, key: Option<Key>, id: JobId,
                        now: Time): Result<Accepted, SubmitError>
    requires limits.concurrency > 0
  {
    if key.Some? && key.value in j.idempotency then
      var b := j.idempotency[key.value];
      if b.requestSha != requestSha then Err(Conflict)
      else if b.jobId in j.records then Ok(j.records[b.jobId].accepted) else Err(Unknown)
    else if |Active(j.records)| >= limits.Capacity() || |j.records| >= limits.maxRetained then Err(Full)
    else if id in j.records then Err(DuplicateId)
    else Ok(Accepted(id, CaseIdOf(requestSha), Promise(limits, |Active(j.records)|, now)))
  }

  /** What a request is answered, by the facts of the store: its own job again or a conflict under a key in use; full
      exactly when the queued and running jobs fill the slots and the queue, or the records fill the store; and
      otherwise a job of its own, unless the identifier is taken. */
  lemma AnswerExactly(limits: Limits, j: Jobs, requestSha: string, key: Option<Key>, id: JobId, now: Time)
    requires limits.Valid() && Bound(j)
    ensures var answer := Answer(limits, j, requestSha, key, id, now);
      var live := set x | x in j.records && (j.records[x].state == Queued || j.records[x].state == Running);
      if key.Some? && key.value in j.idempotency then
        var b := j.idempotency[key.value];
        && b.jobId in j.records && !Creatable(limits, j, key, id)
        && answer == if b.requestSha == requestSha then Ok(j.records[b.jobId].accepted) else Err(Conflict)
      else if |live| >= limits.concurrency + limits.queueCapacity || |j.records| >= limits.maxRetained then
        answer == Err(Full) && !Creatable(limits, j, key, id)
      else if id in j.records then answer == Err(DuplicateId) && !Creatable(limits, j, key, id)
      else
        && answer.Ok? && Creatable(limits, j, key, id)
        && answer.value.jobId == id
        && answer.value.caseId == (if |requestSha| >= 20 then requestSha[..20] else requestSha)
        && forall batches: nat :: (batches - 1) * limits.concurrency <= |live| < batches * limits.concurrency ==>
             answer.value.expiresAt == now + batches * limits.timeout + 3_600_000_000
  {
    hide RecordSound, Promise;
    var live := set x | x in j.records && (j.records[x].state == Queued || j.records[x].state == Running);
    assert live == Active(j.records);
    hide Active;
    forall batches: nat | (batches - 1) * limits.concurrency <= |live| < batches * limits.concurrency
      ensures Promise(limits, |live|, now) == now + batches * limits.timeout + 3_600_000_000
    {
      PromiseExactly(limits, |live|, now, batches);
    }
  }

  /** Whether a request gets as far as the admission check: no replay, no conflict, room, a new identifier. */
  ghost predicate Creatable(limits: Limits, j: Jobs, key: Option<Key>, id: JobId) {
    && (key.None? || key.value !in j.idempotency)
    && |Active(j.records)| < limits.Capacity() && |j.records| < limits.maxRetained && id !in j.records
  }

  /** What an admission check does to the controller behind it: asked exactly when `asked`, it answers as it
      would have, and it counts one more solve on that day exactly when it admits. */
  twostate predicate CheckedBy(guard: Admission.AdmissionController, visit: Visit, asked: bool, admitted: bool)
    reads guard
    requires guard.settings.Valid()
  {
    if asked then
      && (admitted <==> old(guard.Allows(visit.client, visit.wall, visit.instant)))
      && guard.solvesByDay == old(guard.solvesByDay) + (if admitted then multiset{visit.wall.day} else multiset{})
    else !admitted && unchanged(guard)
  }

  /** What a step on one job leaves: the changed record and nothing else, or nothing at all. */
  ghost predicate Stepped(j: Jobs, j': Jobs, step: Result<JobRecord, JobError>, r: Result<(), JobError>) {
    match step
    case Ok(record) => r == Ok(()) && j' == Update(j, record)
    case Err(e) => r == Err(e) && j' == j
  }

  /** The admission check of one visit. */
  method Check(guard: Admission.AdmissionController, visit: Visit) returns (r: Result<(), Admission.Refusal>)
    requires guard.Valid()
    modifies guard
    ensures guard.Valid() && CheckedBy(guard, visit, true, r.Ok?)
  {
    r := guard.AdmitSolve(visit.client, visit.wall, visit.instant);
  }

  class SolveJobManager {
    const limits: Limits
    var records: map<JobId, JobRecord>
    var order: seq<JobId>
    var idempotency: map<Key, Binding>
    var closed: bool
    /** Every event ever logged, per job, and the day of every job created behind an admission check. */
    ghost var history: History
    ghost var checkedOn: multiset<int>

    ghost function Contents(): Jobs
      reads this
    {
      Jobs(records, order, idempotency)
    }

    /** The store is sound, within both caps, and its history is complete. */
    ghost predicate Valid()
      reads this
    {
      && StoreSound(Contents()) && Recorded(Contents(), history)
      && |Active(records)| <= limits.Capacity() && |records| <= limits.maxRetained && limits.Valid()
    }

    constructor (limits: Limits)
      requires limits.Valid()
      ensures Valid() && Contents() == NoJobs && history == map[] && checkedOn == multiset{} && !closed
        && this.limits == limits
    {
      this.limits := limits;
      records, order, idempotency, closed := map[], [], map[], false;
      history, checkedOn := map[], multiset{};
    }

    /** Expire one record in place. */
    method ExpireRecord(id: JobId, now: Time)
      requires id in records
      modifies this`records, this`idempotency
      ensures Contents() == ExpireOne(old(Contents()), id, now)
    {
      var r := records[id];
      if r.state !in {Succeeded, Failed} || r.terminalAt == None {
        return;
      }
      if now < r.terminalAt.value + TERMINAL_RETENTION {
        return;
      }
      records := records[id := r.(state := Expired, progress := 1.0, result := None, error := None, events := [])];
      if r.key.Some? {
        idempotency := idempotency - {r.key.value};
      }
    }

    /** Expire what is due, then drop expired jobs while the store is full. */
    method ExpireAndTrim(now: Time)
      requires forall id :: id in order ==> id in records
      modifies this`records, this`idempotency, this`order
      ensures Contents() == Swept(old(Contents()), limits.maxRetained, now)
    {
      hide ExpireOne, StoreSound, Recorded;
      ghost var j := Contents();
      for k := 0 to |order|
        invariant Contents() == ExpireAll(j, j.order[..k], now)
      {
        assert j.order[..k + 1][..k] == j.order[..k];
        ExpireRecord(order[k], now);
      }
      assert j.order[..|order|] == j.order;
      var expired := ExpiredJobs(Jobs(records, order, idempotency), order);
      ghost var target := Trim(Contents(), expired, limits.maxRetained);
      while |records| >= limits.maxRetained && expired != []
        invariant Trim(Contents(), expired, limits.maxRetained) == target
        decreases |expired|
      {
        var id := expired[0];
        expired := expired[1..];
        records := records - {id};
        order := Without(order, id);
      }
    }

    /** Sweeping keeps every invariant. */
    lemma SweptValid(now: Time)
      requires Valid()
      ensures (forall id :: id in order ==> id in records)
      ensures var j := Swept(Contents(), limits.maxRetained, now);
        StoreSound(j) && Recorded(j, history) && Active(j.records) == Active(records) && |j.records| <= |records|
    {
      hide StoreSound, Recorded, Swept;
      SweptSound(Contents(), limits.maxRetained, now);
      RecordedSwept(Contents(), history, limits.maxRetained, now);
    }

    /** Look a request up in the swept store: replay its binding, or check capacity, identity and, last of
        all, admission. */
    method Decide(requestSha: string, key: Option<Key>, id: JobId, guard: Admission.AdmissionController?,
                  visit: Visit, now: Time)
        returns (r: Result<Accepted, SubmitError>)
      requires limits.Valid() && StoreSound(Contents()) && (guard != null ==> guard.Valid())
      modifies guard
      ensures guard != null ==> guard.Valid()
      ensures guard != null ==>
        CheckedBy(guard, visit, Creatable(limits, Contents(), key, id), r.Ok? && Creatable(limits, Contents(), key, id))
      ensures Answer(limits, Contents(), requestSha, key, id, now) != Err(Unknown)
      ensures Creatable(limits, Contents(), key, id) ==> Answer(limits, Contents(), requestSha, key, id, now).Ok?
      ensures r == Answer(limits, Contents(), requestSha, key, id, now)
        || (Creatable(limits, Contents(), key, id) && guard != null && r.Err? && r.error.Refused?)
      ensures r.Ok? && !(key.Some? && key.value in idempotency) <==> r.Ok? && Creatable(limits, Contents(), key, id)
      ensures r.Ok? && Creatable(limits, Contents(), key, id) ==> r.value.jobId == id
    {
      hide RecordSound, Ordered, Active, Admission.AdmissionController.Valid, Admission.AdmissionController.Allows;
      if key.Some? && key.value in idempotency {
        var bound := idempotency[key.value];
        if bound.requestSha != requestSha {
          return Err(Conflict);
        }
        return Ok(records[bound.jobId].accepted);
      }
      var activeOrQueued := |Active(records)|;
      if activeOrQueued >= limits.concurrency + limits.queueCapacity || |records| >= limits.maxRetained {
        return Err(Full);
      }
      if id in records {
        return Err(DuplicateId);
      }
      var batches := activeOrQueued / limits.concurrency + 1;
      var accepted := Accepted(id, CaseIdOf(requestSha), now + batches * limits.timeout + TERMINAL_RETENTION);
      if guard != null {
        var check := Check(guard, visit);
        if check.Err? {
          return Err(Refused(check.error));
        }
      }
      return Ok(accepted);
    }

    /** Admit one request. A bad key, a closed manager, a replay, a conflict, a full store and a repeated
        identifier leave the admission controller untouched. Otherwise it is asked, once, and the job is
        created, queued and bound to its key exactly when it admits; only then does it count a solve. */
    method Submit(requestSha: string, correlation: nat, key: Option<Key>, id: JobId,
                  guard: Admission.AdmissionController?, visit: Visit, now: Time)
          returns (r: Result<Accepted, SubmitError>)
      requires Valid() && (guard != null ==> guard.Valid())
      // The identifier factory never repeats the identifier of a job that has been dropped.
      requires id in history ==> id in Swept(Contents(), limits.maxRetained, now).records
      modifies this, guard
      ensures Valid() && (guard != null ==> guard.Valid()) && closed == old(closed)
      ensures key.Some? && !ValidKey(key.value) ==> r == Err(BadKey)
      ensures !(key.Some? && !ValidKey(key.value)) && closed ==> r == Err(Closed)
      ensures (key.Some? && !ValidKey(key.value)) || closed ==>
        unchanged(this) && (guard != null ==> unchanged(guard))
      ensures forall x :: x in old(order) ==> x in old(records)
      ensures !(key.Some? && !ValidKey(key.value)) && !closed ==>
        var j := Swept(old(Contents()), limits.maxRetained, now);
        var creatable, answer := Creatable(limits, j, key, id), Answer(limits, j, requestSha, key, id, now);
        && (guard != null ==> CheckedBy(guard, visit, creatable, r.Ok? && creatable)) && answer != Err(Unknown)
        && (creatable ==> id !in old(history))
        && if creatable && r.Ok?
           then r == answer && Contents() == Add(j, Created(requestSha, correlation, r.value, key, now))
                && Grown(old(history), history) && history.Keys == old(history).Keys + {id}
                && checkedOn == old(checkedOn) + (if guard != null then multiset{visit.wall.day} else multiset{})
           else (r == answer || (creatable && guard != null && r.error.Refused?)) && Contents() == j
                && history == old(history) && checkedOn == old(checkedOn)
    {
      hide StoreSound, Recorded, Swept, Created, Add, RecordSound, Active, Answer, WellOrdered, AllValid, Grown,
           Promise, Admission.AdmissionController.Valid, Admission.AdmissionController.Allows;
      SweptValid(now);
      if key.Some? {
        if !ValidKey(key.value) {
          return Err(BadKey);
        }
      }
      if closed {
        return Err(Closed);
      }
      ExpireAndTrim(now);
      r := Decide(requestSha, key, id, guard, visit, now);
      if r.Ok? && !(key.Some? && key.value in idempotency) {
        var record := Created(requestSha, correlation, r.value, key, now);
        AddingValid(Contents(), history, requestSha, correlation, r.value, key, now);
        records := records[id := record];
        order := order + [id];
        if key.Some? {
          idempotency := idempotency[key.value := Binding(requestSha, id)];
        }
        history := history[id := record.events];
        checkedOn := checkedOn + if guard != null then multiset{visit.wall.day} else multiset{};
      }
    }

    /** Write a changed record back, with whatever events it has gained. */
    method Put(r: JobRecord)
      requires Valid() && r.accepted.jobId in records && RecordSound(r) && r.state != Expired
      requires Later(records[r.accepted.jobId], r) && (Live(r) ==> Live(records[r.accepted.jobId]))
      modifies this`records, this`history
      ensures Valid() && Grown(old(history), history) && history.Keys == old(history).Keys
        && Contents() == Update(old(Contents()), r)
    {
      hide StoreSound, Recorded, RecordSound, Active, Grown, Later;
      UpdateSound(Contents(), r);
      RecordedUpdate(Contents(), history, r);
      HistoryKnows(Contents(), history, r.accepted.jobId);
      records := records[r.accepted.jobId := r];
      history := history[r.accepted.jobId := r.events];
    }

    /** The job's coroutine starts it, once, when a slot is free. */
    method Start(id: JobId, now: Time) returns (r: Result<(), JobError>)
      requires Valid() && (id in records ==> records[id].state == Queued)
      modifies this
      ensures Valid() && Grown(old(history), history) && history.Keys == old(history).Keys
      ensures closed == old(closed) && checkedOn == old(checkedOn)
      ensures Stepped(old(Contents()), Contents(),
                      if id in old(records) then Started(old(records)[id], now) else Err(NotFound), r)
    {
      hide StoreSound, Recorded, RecordSound, Active, Grown, Later, Update, ValidStatus;
      SelfGrown(history);
      if id !in records {
        return Err(NotFound);
      }
      RecordOf(Contents(), id);
      StartedExactly(records[id], now);
      var record := records[id];
      if !LegalTransition(record.state, Running) {
        return Err(IllegalTransition);
      }
      record := record.(state := Running);
      record := Append(record, RunningEvent, now);
      Put(record);
      return Ok(());
    }

    /** The executor reports progress; it gets the callback only once its job has started. */
    method RecordProgress(id: JobId, value: real, now: Time) returns (r: Result<(), JobError>)
      requires Valid() && (id in records ==> records[id].state != Queued)
      modifies this
      ensures Valid() && Grown(old(history), history) && history.Keys == old(history).Keys
      ensures closed == old(closed) && checkedOn == old(checkedOn)
      ensures Stepped(old(Contents()), Contents(),
                      if value < 0.0 || value >= 1.0 then Err(BadProgress)
                      else if id in old(records) then Progressed(old(records)[id], value, now)
                      else Err(NotFound), r)
    {
      hide StoreSound, Recorded, RecordSound, Active, Grown, Later, Update, ValidStatus;
      SelfGrown(history);
      if value < 0.0 || value >= 1.0 {
        return Err(BadProgress);
      }
      if id !in records {
        return Err(NotFound);
      }
      RecordOf(Contents(), id);
      var record := records[id];
      if Progressed(record, value, now).Ok? {
        ProgressedExactly(record, value, now);
      }
      if !LegalTransition(record.state, Running) {
        return Err(IllegalTransition);
      }
      if value < record.progress {
        return Err(BadProgress);
      }
      if value == record.progress {
        NoUpdate(Contents(), record);
        return Ok(());
      }
      if record.progressEvents >= MAX_PROGRESS_EVENTS {
        return Err(TooManyProgressEvents);
      }
      record := record.(progress := value, progressEvents := record.progressEvents + 1);
      record := Append(record, ProgressEvent, now);
      Put(record);
      return Ok(());
    }

    method Complete(id: JobId, result: SolveResult, now: Time) returns (r: Result<(), JobError>)
      requires Valid()
      modifies this
      ensures Valid() && Grown(old(history), history) && history.Keys == old(history).Keys
      ensures closed == old(closed) && checkedOn == old(checkedOn)
      ensures Stepped(old(Contents()), Contents(),
                      if id in old(records) then Completed(old(records)[id], result, now) else Err(NotFound), r)
    {
      hide StoreSound, Recorded, RecordSound, Active, Grown, Later, Update, ValidStatus;
      SelfGrown(history);
      if id !in records {
        return Err(NotFound);
      }
      RecordOf(Contents(), id);
      var record := records[id];
      if Completed(record, result, now).Ok? {
        CompletedSound(record, result, now);
      }
      if result.jobId != record.accepted.jobId || result.caseId != record.accepted.caseId
        || result.correlation != record.correlation {
        return Err(WrongIdentity);
      }
      if !LegalTransition(record.state, Succeeded) {
        return Err(IllegalTransition);
      }
      record := record.(state := Succeeded, progress := 1.0, result := Some(result), terminalAt := Some(now));
      record := Append(record, CompletedEvent, now);
      Put(record);
      return Ok(());
    }

    method Fail(id: JobId, code: string, retryable: bool, now: Time) returns (r: Result<(), JobError>)
      requires Valid()
      modifies this
      ensures Valid() && Grown(old(history), history) && history.Keys == old(history).Keys
      ensures closed == old(closed) && checkedOn == old(checkedOn)
      ensures Stepped(old(Contents()), Contents(),
                      if id in old(records) then FailedWith(old(records)[id], code, retryable, now)
                      else Err(NotFound), r)
    {
      hide StoreSound, Recorded, RecordSound, Active, Grown, Later, Update, ValidStatus;
      SelfGrown(history);
      if id !in records {
        return Err(NotFound);
      }
      RecordOf(Contents(), id);
      var record := records[id];
      FailedSound(record, code, retryable, now);
      if record.state in {Succeeded, Failed, Expired} {
        NoUpdate(Contents(), record);
        return Ok(());
      }
      if !LegalTransition(record.state, Failed) {
        return Err(IllegalTransition);
      }
      var error := PublicError(code, retryable, record.correlation);
      record := record.(state := Failed, error := Some(error), terminalAt := Some(now));
      record := Append(record, FailedEvent, now);
      Put(record);
      return Ok(());
    }

    /** Expire one record if it is due, keeping every invariant. */
    method ExpireValid(id: JobId, now: Time)
      requires Valid() && id in records
      modifies this`records, this`idempotency
      ensures Valid() && Contents() == ExpireOne(old(Contents()), id, now)
    {
      hide StoreSound, Recorded, ExpireOne, Active;
      ExpireOneSound(Contents(), id, now);
      RecordedExpireOne(Contents(), history, id, now);
      ExpireOneRecords(Contents(), id, now);
      ExpireRecord(id, now);
      assert records.Keys == old(records).Keys;
      assert |records| == |records.Keys| && |old(records)| == |old(records).Keys|;
    }

    /** A polled status always meets the status contract. */
    method Status(id: JobId, now: Time) returns (r: Result<JobRecord, JobError>)
      requires Valid()
      modifies this`records, this`idempotency
      ensures Valid()
      ensures id !in old(records) ==> r == Err(NotFound) && Contents() == old(Contents())
      ensures id in old(records) ==>
        r == Ok(ExpiredAt(old(records)[id], now)) && ValidStatus(r.value)
          && Contents() == ExpireOne(old(Contents()), id, now)
      ensures id in old(records) && Over(old(records)[id]) ==>
        if now < old(records)[id].terminalAt.value + 3_600_000_000 then
          r == Ok(old(records)[id]) && Contents() == old(Contents())
        else
          && r.Ok? && r.value.state == Expired && r.value.result == None && r.value.error == None
          && r.value.events == []
    {
      hide StoreSound, Recorded, RecordSound, Active, ExpireOne, ExpiredAt;
      if id !in records {
        return Err(NotFound);
      }
      RecordOf(Contents(), id);
      RetainedExactly(records[id], now);
      if Over(records[id]) && now < records[id].terminalAt.value + 3_600_000_000 {
        NotYetDue(Contents(), id, now);
      }
      ExpireOneRecords(Contents(), id, now);
      ExpireValid(id, now);
      RecordOf(Contents(), id);
      return Ok(records[id]);
    }

    method Close()
      requires Valid()
      modifies this`closed
      ensures Valid() && closed
    {
      closed := true;
    }
  }

  lemma NotYetDue(j: Jobs, id: JobId, now: Time)
    requires id in j.records && Over(j.records[id]) && now < j.records[id].terminalAt.value + 3_600_000_000
    ensures ExpireOne(j, id, now) == j
  {
  }

  lemma HistoryKnows(j: Jobs, h: History, id: JobId)
    requires Recorded(j, h) && id in j.records
    ensures id in h && |h[id]| == j.records[id].sequence
      && (j.records[id].state != Expired ==> h[id] == j.records[id].events)
  {
  }

  lemma NoUpdate(j: Jobs, r: JobRecord)
    requires r.accepted.jobId in j.records && j.records[r.accepted.jobId] == r
    ensures Update(j, r) == j
  {
    assert j.records[r.accepted.jobId := r] == j.records;
  }

  lemma RecordOf(j: Jobs, id: JobId)
    requires StoreSound(j) && id in j.records
    ensures RecordSound(j.records[id]) && j.records[id].accepted.jobId == id && ValidStatus(j.records[id])
  {
    hide Ordered, Bound;
  }

  lemma AddingValid(j: Jobs, h: History, requestSha: string, correlation: nat, accepted: Accepted, key: Option<Key>,
                    now: Time)
    requires StoreSound(j) && Recorded(j, h) && accepted.jobId !in j.records && accepted.jobId !in h
    requires key.Some? ==> key.value !in j.idempotency
    ensures var r := Created(requestSha, correlation, accepted, key, now);
      && r.accepted == accepted && r.key == key && r.requestSha == requestSha
      && StoreSound(Add(j, r)) && Recorded(Add(j, r), h[accepted.jobId := r.events])
      && Grown(h, h[accepted.jobId := r.events])
      && |Add(j, r).records| == |j.records| + 1 && |Active(Add(j, r).records)| == |Active(j.records)| + 1
      && Add(j, r).records == j.records[accepted.jobId := r]
      && Add(j, r) == Jobs(j.records[accepted.jobId := r], j.order + [accepted.jobId],
                           if key.Some? then j.idempotency[key.value := Binding(requestSha, accepted.jobId)]
                             else j.idempotency)
  {
    hide StoreSound, Recorded, Created, RecordSound, Active, Grown;
    CreatedSound(requestSha, correlation, accepted, key, now);
    var r := Created(requestSha, correlation, accepted, key, now);
    AddSound(j, r);
    RecordedAdd(j, h, r);
  }

  lemma SelfGrown(h: History)
    ensures Grown(h, h)
  {
  }
}
