/** Durable per-case sweep records with an attempt-token lease fence: the record, its coherence rules,
    and the store whose operations read, check and replace one record at a time. */
module SweepState {
  import opened Wrappers

  /** Microseconds since some origin. */
  type Time = int

  type CaseId = string
  type AttemptId = string
  type Owner = string

  /** Content digest of a run. The digest covers the case and the payload, so equal digests mean equal
      cases; hashing itself is not modelled. */
  datatype Digest = Digest(caseId: CaseId, payload: nat)

  const LEASE_DURATION: Time := 10 * 60 * 1_000_000
  const MAX_SWEEP_ATTEMPTS := 3

  datatype RunState = Pending | Running | Succeeded | Failed

  /** The stable error codes a worker can report, and the code of an expired lease. */
  datatype ErrorCode =
    | LeaseExpired | SoufflerieFailure | ConfigInvalid | CaseOutOfDomain | SolverUnstable | SolverNotConverged
    | ArtifactIntegrity | SchemaUnsupported | DependencyUnavailable | DeviceUnavailable | CapacityExhausted
    | RateLimited | BudgetExhausted | SolveDisabled | JobNotFound | EventCursorInvalid | IdempotencyConflict
    | RemoteExecution | ValidationRed | InternalInvariant

  /** A typed failure: its code, and whether this instance claims to be retryable. */
  datatype Failure = Failure(code: ErrorCode, retryable: bool)

  predicate RetryableSweepFailure(e: Failure) {
    e.retryable && e.code in {CapacityExhausted, RemoteExecution}
  }

  datatype CaseState = CaseState(
    caseId: CaseId,
    state: RunState,
    revision: nat,
    attempt: nat,
    attemptId: Option<AttemptId>,
    leaseOwner: Option<Owner>,
    leaseExpiresAt: Option<Time>,
    runDigest: Option<Digest>,
    errorCode: Option<ErrorCode>,
    failureCodes: seq<ErrorCode>,
    updatedAt: Time)

  datatype StoreError =
    | InvalidIdentity | MissingState | ClockRegression | IncoherentState
    | NotLeaseHolder | AttemptBoundElsewhere | AttemptReused
    | DivergentDigest | ArtifactUnverified | DivergentFailure

  /** The coherence validator of a record. */
  predicate Coherent(s: CaseState) {
    && s.attempt <= MAX_SWEEP_ATTEMPTS
    && |s.failureCodes| <= s.attempt
    && (s.failureCodes != [] && s.errorCode.Some? ==> s.failureCodes[|s.failureCodes| - 1] == s.errorCode.value)
    && (if s.state == Running then
          && s.attempt >= 1 && s.attemptId.Some? && s.leaseOwner.Some? && s.leaseExpiresAt.Some?
          && s.leaseExpiresAt.value > s.updatedAt
          && s.runDigest == None && s.errorCode == None
        else
          && s.leaseOwner == None && s.leaseExpiresAt == None
          && if s.state == Pending then
               && s.runDigest == None
               && if s.attempt == 0 then s.attemptId == None && s.errorCode == None
                  else s.attempt < MAX_SWEEP_ATTEMPTS && s.attemptId.Some? && s.errorCode.Some?
             else
               && s.attempt >= 1 && s.attemptId.Some?
               && if s.state == Succeeded then s.runDigest.Some? && s.errorCode == None
                  else s.errorCode.Some? && s.runDigest == None)
  }

  /** What every reachable record satisfies beyond the validator: one failure code per attempt that
      ended in failure, and no other. */
  ghost predicate Sound(s: CaseState) {
    && Coherent(s)
    && |s.failureCodes| == s.attempt - (if s.state == Running || s.state == Succeeded then 1 else 0)
  }

  /** A revision: the changed record stamped with the next revision number and the time of the change. */
  function Transition(current: CaseState, now: Time, changed: CaseState): Result<CaseState, StoreError> {
    if now < current.updatedAt then Err(ClockRegression)
    else
      var next := changed.(revision := current.revision + 1, updatedAt := now);
      if Coherent(next) then Ok(next) else Err(IncoherentState)
  }

  /** The record an operation leaves behind, and its answer. */
  datatype Outcome<+T> = Outcome(record: CaseState, answer: Result<T, StoreError>)

  function Settle(current: CaseState, r: Result<CaseState, StoreError>): Outcome<CaseState> {
    match r
    case Ok(next) => Outcome(next, r)
    case Err(_) => Outcome(current, r)
  }

  predicate HoldsLease(s: CaseState, attemptId: AttemptId, owner: Owner, now: Time) {
    && s.state == Running && s.attemptId == Some(attemptId) && s.leaseOwner == Some(owner)
    && s.leaseExpiresAt.Some? && s.leaseExpiresAt.value > now
  }

  function LeaseFault(s: CaseState, attemptId: AttemptId, owner: Owner, now: Time): Option<StoreError> {
    if now < s.updatedAt then Some(ClockRegression)
    else if !HoldsLease(s, attemptId, owner, now) then Some(NotLeaseHolder)
    else None
  }

  predicate LeaseOver(s: CaseState, now: Time) {
    s.state == Running && s.leaseExpiresAt.Some? && s.leaseExpiresAt.value <= now
  }

  function Reaped(s: CaseState, now: Time): Outcome<CaseState> {
    if !LeaseOver(s, now) then Outcome(s, Ok(s))
    else
      Settle(s, Transition(s, now, s.(state := if s.attempt >= MAX_SWEEP_ATTEMPTS then Failed else Pending,
                                      leaseOwner := None, leaseExpiresAt := None,
                                      errorCode := Some(LeaseExpired),
                                      failureCodes := s.failureCodes + [LeaseExpired])))
  }

  function Claimed(s: CaseState, attemptId: AttemptId, owner: Owner, now: Time): Outcome<Option<CaseState>> {
    if s.state == Running && s.leaseExpiresAt.Some? && s.leaseExpiresAt.value > now then
      if s.attemptId == Some(attemptId) then
        Outcome(s, if s.leaseOwner == Some(owner) then Ok(Some(s)) else Err(AttemptBoundElsewhere))
      else Outcome(s, Ok(None))
    else
      var reaped := Reaped(s, now);
      if reaped.answer.Err? then Outcome(s, Err(reaped.answer.error))
      else
        var p := reaped.record;
        if p.state != Pending then Outcome(p, Ok(None))
        else if p.attemptId == Some(attemptId) then Outcome(p, Err(AttemptReused))
        else
          match Transition(p, now, p.(state := Running, attempt := p.attempt + 1, attemptId := Some(attemptId),
                                      leaseOwner := Some(owner), leaseExpiresAt := Some(now + LEASE_DURATION),
                                      runDigest := None, errorCode := None))
          case Ok(c) => Outcome(c, Ok(Some(c)))
          case Err(e) => Outcome(p, Err(e))
  }

  function Renewed(s: CaseState, attemptId: AttemptId, owner: Owner, now: Time): Outcome<CaseState> {
    match LeaseFault(s, attemptId, owner, now)
    case Some(e) => Outcome(s, Err(e))
    case None =>
      if s.leaseExpiresAt == Some(now + LEASE_DURATION) then Outcome(s, Ok(s))
      else Settle(s, Transition(s, now, s.(leaseExpiresAt := Some(now + LEASE_DURATION))))
  }

  /** `verified` says whether the run root at the case and digest opens and verifies. */
  function Succeed(s: CaseState, attemptId: AttemptId, owner: Owner, d: Digest, verified: bool,
                   now: Time): Outcome<CaseState> {
    if s.state == Succeeded then
      if s.runDigest != Some(d) then Outcome(s, Err(DivergentDigest))
      else if !verified then Outcome(s, Err(ArtifactUnverified))
      else Outcome(s, Ok(s))
    else
      match LeaseFault(s, attemptId, owner, now)
      case Some(e) => Outcome(s, Err(e))
      case None =>
        if !verified then Outcome(s, Err(ArtifactUnverified))
        else
          Settle(s, Transition(s, now, s.(state := Succeeded, leaseOwner := None, leaseExpiresAt := None,
                                          runDigest := Some(d), errorCode := None)))
  }

  function AfterFailure(s: CaseState, e: Failure): RunState {
    if RetryableSweepFailure(e) && s.attempt < MAX_SWEEP_ATTEMPTS then Pending else Failed
  }

  function Fail(s: CaseState, attemptId: AttemptId, owner: Owner, e: Failure, now: Time): Outcome<CaseState> {
    if s.state in {Pending, Failed} && s.attemptId == Some(attemptId) then
      Outcome(s, if s.errorCode == Some(e.code) && s.state == AfterFailure(s, e) then Ok(s) else Err(DivergentFailure))
    else
      match LeaseFault(s, attemptId, owner, now)
      case Some(fault) => Outcome(s, Err(fault))
      case None =>
        Settle(s, Transition(s, now, s.(state := AfterFailure(s, e), leaseOwner := None, leaseExpiresAt := None,
                                        runDigest := None, errorCode := Some(e.code),
                                        failureCodes := s.failureCodes + [e.code])))
  }

  function Initial(caseId: CaseId, now: Time): CaseState {
    CaseState(caseId, Pending, 0, 0, None, None, None, None, None, [], now)
  }

  predicate TokenChar(c: char, extra: set<char>) {
    'a' <= c <= 'z' || '0' <= c <= '9' || c in extra
  }

  predicate Token(t: string, extra: set<char>, limit: nat) {
    && 1 <= |t| <= limit && TokenChar(t[0], {})
    && forall i :: 1 <= i < |t| ==> TokenChar(t[i], extra)
  }

  predicate ValidCaseId(t: CaseId) {
    |t| == 20 && forall i :: 0 <= i < 20 ==> '0' <= t[i] <= '9' || 'a' <= t[i] <= 'f'
  }

  predicate ValidAttemptId(t: AttemptId) { Token(t, {'-'}, 64) }

  predicate ValidOwner(t: Owner) { Token(t, {'.', '_', '-'}, 128) }

  /** The three patterns, character by character: twenty lower-case hexadecimal digits, and tokens of at most 64 and
      128 characters. */
  lemma IdentityPatterns(t: string)
    ensures ValidCaseId(t) <==> |t| == 20 && forall c :: c in t ==> '0' <= c <= '9' || 'a' <= c <= 'f'
    ensures ValidAttemptId(t) <==>
      && 1 <= |t| <= 64 && t[0] != '-'
      && forall c :: c in t ==> 'a' <= c <= 'z' || '0' <= c <= '9' || c == '-'
    ensures ValidOwner(t) <==>
      && 1 <= |t| <= 128 && t[0] !in {'.', '_', '-'}
      && forall c :: c in t ==> 'a' <= c <= 'z' || '0' <= c <= '9' || c in {'.', '_', '-'}
  {
    assert forall i :: 0 <= i < |t| ==> t[i] in t;
  }

  /** The record stored for a case, which must name that case. */
  function Read(cases: map<CaseId, CaseState>, caseId: CaseId): Result<CaseState, StoreError> {
    if !ValidCaseId(caseId) then Err(InvalidIdentity)
    else if caseId !in cases then Err(MissingState)
    else if cases[caseId].caseId != caseId then Err(InvalidIdentity)
    else Ok(cases[caseId])
  }

  /** One directory of case records. Each method takes the case lock, reads the record, and replaces it
      atomically or leaves it alone; the lock and the rename are why one method is one step. */
  class LocalSweepStateStore {
    var cases: map<CaseId, CaseState>

    constructor ()
      ensures cases == map[]
    {
      cases := map[];
    }

    /** What a method leaves: the outcome's record for its case, every other case untouched. */
    twostate predicate Replaced<T>(caseId: CaseId, o: Outcome<T>)
      reads this
    {
      cases == old(cases)[caseId := o.record]
    }

    method InitializeCase(caseId: CaseId, now: Time) returns (r: Result<CaseState, StoreError>)
      modifies this
      ensures !ValidCaseId(caseId) ==> r == Err(InvalidIdentity) && cases == old(cases)
      ensures ValidCaseId(caseId) && caseId in old(cases) ==> r == Read(old(cases), caseId) && cases == old(cases)
      ensures ValidCaseId(caseId) && caseId !in old(cases) ==>
        r == Ok(Initial(caseId, now)) && cases == old(cases)[caseId := Initial(caseId, now)]
      ensures ValidCaseId(caseId) && caseId !in old(cases) ==>
        var s := cases[caseId];
        s.caseId == caseId && s.state == Pending && s.attempt == s.revision == 0 && s.updatedAt == now
    {
      if !ValidCaseId(caseId) {
        return Err(InvalidIdentity);
      }
      if caseId in cases {
        r := ReadCase(caseId);
        return;
      }
      var state := Initial(caseId, now);
      cases := cases[caseId := state];
      return Ok(state);
    }

    method ReadCase(caseId: CaseId) returns (r: Result<CaseState, StoreError>)
      ensures r == Read(cases, caseId)
    {
      if !ValidCaseId(caseId) {
        return Err(InvalidIdentity);
      }
      if caseId !in cases {
        return Err(MissingState);
      }
      if cases[caseId].caseId != caseId {
        return Err(InvalidIdentity);
      }
      return Ok(cases[caseId]);
    }

    /** Persist the consequence of an expired lease. */
    method ExpireUnlocked(state: CaseState, now: Time) returns (r: Result<CaseState, StoreError>)
      requires state.caseId in cases && cases[state.caseId] == state
      modifies this
      ensures Replaced(state.caseId, Reaped(state, now)) && r == Reaped(state, now).answer
    {
      if state.state != Running || state.leaseExpiresAt == None {
        return Ok(state);
      }
      if state.leaseExpiresAt.value > now {
        return Ok(state);
      }
      var expired;
      if state.attempt >= MAX_SWEEP_ATTEMPTS {
        expired := Transition(state, now, state.(state := Failed, leaseOwner := None, leaseExpiresAt := None,
                                                 errorCode := Some(LeaseExpired),
                                                 failureCodes := state.failureCodes + [LeaseExpired]));
      } else {
        expired := Transition(state, now, state.(state := Pending, leaseOwner := None, leaseExpiresAt := None,
                                                 errorCode := Some(LeaseExpired),
                                                 failureCodes := state.failureCodes + [LeaseExpired]));
      }
      if expired.Ok? {
        cases := cases[state.caseId := expired.value];
      }
      return expired;
    }

    method ClaimCase(caseId: CaseId, attemptId: AttemptId, owner: Owner, now: Time)
        returns (r: Result<Option<CaseState>, StoreError>)
      modifies this
      ensures if !ValidCaseId(caseId) || !ValidAttemptId(attemptId) || !ValidOwner(owner)
              then r == Err(InvalidIdentity) && cases == old(cases)
              else if Read(old(cases), caseId).Err? then r == Err(Read(old(cases), caseId).error) && cases == old(cases)
              else var o := Claimed(Read(old(cases), caseId).value, attemptId, owner, now);
                   r == o.answer && Replaced(caseId, o)
    {
      if !ValidCaseId(caseId) || !ValidAttemptId(attemptId) || !ValidOwner(owner) {
        return Err(InvalidIdentity);
      }
      var read := ReadCase(caseId);
      if read.Err? {
        return Err(read.error);
      }
      var state := read.value;
      if state.state == Running && state.leaseExpiresAt.Some? {
        if state.leaseExpiresAt.value > now {
          if state.attemptId == Some(attemptId) && state.leaseOwner == Some(owner) {
            return Ok(Some(state));
          }
          if state.attemptId == Some(attemptId) {
            return Err(AttemptBoundElsewhere);
          }
          return Ok(None);
        }
        var expired := ExpireUnlocked(state, now);
        if expired.Err? {
          return Err(expired.error);
        }
        state := expired.value;
      }
      if state.state != Pending {
        return Ok(None);
      }
      if state.attemptId == Some(attemptId) {
        return Err(AttemptReused);
      }
      var claimed := Transition(state, now, state.(state := Running, attempt := state.attempt + 1,
                                                   attemptId := Some(attemptId), leaseOwner := Some(owner),
                                                   leaseExpiresAt := Some(now + LEASE_DURATION),
                                                   runDigest := None, errorCode := None));
      if claimed.Err? {
        return Err(claimed.error);
      }
      cases := cases[caseId := claimed.value];
      return Ok(Some(claimed.value));
    }

    method RenewLease(caseId: CaseId, attemptId: AttemptId, owner: Owner, now: Time)
        returns (r: Result<CaseState, StoreError>)
      modifies this
      ensures if !ValidCaseId(caseId) || !ValidAttemptId(attemptId) || !ValidOwner(owner)
              then r == Err(InvalidIdentity) && cases == old(cases)
              else if Read(old(cases), caseId).Err? then r == Err(Read(old(cases), caseId).error) && cases == old(cases)
              else var o := Renewed(Read(old(cases), caseId).value, attemptId, owner, now);
                   r == o.answer && Replaced(caseId, o)
    {
      if !ValidCaseId(caseId) || !ValidAttemptId(attemptId) || !ValidOwner(owner) {
        return Err(InvalidIdentity);
      }
      var read := ReadCase(caseId);
      if read.Err? {
        return Err(read.error);
      }
      var state := read.value;
      var fault := LeaseFault(state, attemptId, owner, now);
      if fault.Some? {
        return Err(fault.value);
      }
      var deadline := now + LEASE_DURATION;
      if state.leaseExpiresAt == Some(deadline) {
        return Ok(state);
      }
      r := Transition(state, now, state.(leaseExpiresAt := Some(deadline)));
      if r.Ok? {
        cases := cases[caseId := r.value];
      }
    }

    method SucceedCase(caseId: CaseId, attemptId: AttemptId, owner: Owner, d: Digest, artifacts: set<Digest>,
                       now: Time)
        returns (r: Result<CaseState, StoreError>)
      modifies this
      ensures if !ValidCaseId(caseId) || !ValidAttemptId(attemptId) || !ValidOwner(owner)
              then r == Err(InvalidIdentity) && cases == old(cases)
              else if Read(old(cases), caseId).Err? then r == Err(Read(old(cases), caseId).error) && cases == old(cases)
              else var o := Succeed(Read(old(cases), caseId).value, attemptId, owner, d,
                                    Verifies(artifacts, caseId, d), now);
                   r == o.answer && Replaced(caseId, o)
    {
      if !ValidCaseId(caseId) || !ValidAttemptId(attemptId) || !ValidOwner(owner) {
        return Err(InvalidIdentity);
      }
      var read := ReadCase(caseId);
      if read.Err? {
        return Err(read.error);
      }
      var state := read.value;
      if state.state == Succeeded {
        if state.runDigest != Some(d) {
          return Err(DivergentDigest);
        }
        if !Verifies(artifacts, caseId, d) {
          return Err(ArtifactUnverified);
        }
        return Ok(state);
      }
      var fault := LeaseFault(state, attemptId, owner, now);
      if fault.Some? {
        return Err(fault.value);
      }
      if !Verifies(artifacts, caseId, d) {
        return Err(ArtifactUnverified);
      }
      r := Transition(state, now, state.(state := Succeeded, leaseOwner := None, leaseExpiresAt := None,
                                         runDigest := Some(d), errorCode := None));
      if r.Ok? {
        cases := cases[caseId := r.value];
      }
    }

    method FailCase(caseId: CaseId, attemptId: AttemptId, owner: Owner, e: Failure, now: Time)
        returns (r: Result<CaseState, StoreError>)
      modifies this
      ensures if !ValidCaseId(caseId) || !ValidAttemptId(attemptId) || !ValidOwner(owner)
              then r == Err(InvalidIdentity) && cases == old(cases)
              else if Read(old(cases), caseId).Err? then r == Err(Read(old(cases), caseId).error) && cases == old(cases)
              else var o := Fail(Read(old(cases), caseId).value, attemptId, owner, e, now);
                   r == o.answer && Replaced(caseId, o)
    {
      if !ValidCaseId(caseId) || !ValidAttemptId(attemptId) || !ValidOwner(owner) {
        return Err(InvalidIdentity);
      }
      var read := ReadCase(caseId);
      if read.Err? {
        return Err(read.error);
      }
      var state := read.value;
      var retryable := RetryableSweepFailure(e);
      if state.state in {Pending, Failed} && state.attemptId == Some(attemptId) {
        var expected := if retryable && state.attempt < MAX_SWEEP_ATTEMPTS then Pending else Failed;
        if state.errorCode == Some(e.code) && state.state == expected {
          return Ok(state);
        }
        return Err(DivergentFailure);
      }
      var fault := LeaseFault(state, attemptId, owner, now);
      if fault.Some? {
        return Err(fault.value);
      }
      var next := if retryable && state.attempt < MAX_SWEEP_ATTEMPTS then Pending else Failed;
      r := Transition(state, now, state.(state := next, leaseOwner := None, leaseExpiresAt := None,
                                         runDigest := None, errorCode := Some(e.code),
                                         failureCodes := state.failureCodes + [e.code]));
      if r.Ok? {
        cases := cases[caseId := r.value];
      }
    }

    method ReapExpired(caseId: CaseId, now: Time) returns (r: Result<CaseState, StoreError>)
      modifies this
      ensures if Read(old(cases), caseId).Err? then r == Err(Read(old(cases), caseId).error) && cases == old(cases)
              else var o := Reaped(Read(old(cases), caseId).value, now);
                   r == o.answer && Replaced(caseId, o)
    {
      var read := ReadCase(caseId);
      if read.Err? {
        return read;
      }
      r := ExpireUnlocked(read.value, now);
    }
  }

  /** A run root verifies when its content was published under the case that the digest covers. */
  predicate Verifies(artifacts: set<Digest>, caseId: CaseId, d: Digest) {
    d in artifacts && d.caseId == caseId
  }
}
