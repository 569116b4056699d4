/** The transaction a remote worker runs for one case: initialize, claim, solve, publish, and record
    success or failure, against a volume that other workers change between any two of its steps. */
module SolveTransaction {
  import opened SweepFencing
  import opened SweepRuns
  import opened SweepState
  import opened Wrappers

  datatype SolveRequest = SolveRequest(caseId: CaseId, attemptId: AttemptId, forceRetryableFailure: bool)

  /** What the solver does: a result, a typed failure, or any other exception. */
  datatype SolverOutcome = Solved(payload: nat) | SolverFailed(failure: Failure) | SolverRaised

  /** Why a worker raises: a request that does not fit, a store refusal, or a failure it reports. */
  datatype Raised = Mismatch | BadOwner | Refused(error: StoreError) | Reported(failure: Failure)

  const Forced := Failure(RemoteExecution, true)
  const Unexpected := Failure(InternalInvariant, false)

  /** The typed error behind a store refusal; every one of them is final. */
  function RefusalFailure(e: StoreError): Failure {
    match e
    case InvalidIdentity => Failure(ArtifactIntegrity, false)
    case MissingState => Failure(ArtifactIntegrity, false)
    case DivergentDigest => Failure(ArtifactIntegrity, false)
    case ArtifactUnverified => Failure(ArtifactIntegrity, false)
    case _ => Failure(InternalInvariant, false)
  }

  /** A stored case always reads back. */
  lemma StoredCaseReads(w: World, caseId: CaseId)
    requires AllSound(w)
    ensures caseId in w.cases ==> ValidCaseId(caseId) && Read(w.cases, caseId) == Ok(w.cases[caseId])
  {
  }

  /** The shared volume: sweep records and published runs. The ghost log holds every operation since the
      ghost origin, so the contents are always the run of that log. */
  class Volume {
    const store: LocalSweepStateStore
    var artifacts: set<Digest>
    ghost const origin: World
    ghost var log: seq<Op>

    constructor (store: LocalSweepStateStore, artifacts: set<Digest>)
      requires AllSound(World(store.cases, artifacts))
      ensures Valid() && this.store == store && log == [] && Contents() == World(store.cases, artifacts)
    {
      this.store := store;
      this.artifacts := artifacts;
      origin := World(store.cases, artifacts);
      log := [];
    }

    ghost function Contents(): World
      reads this, store
    {
      World(store.cases, artifacts)
    }

    ghost predicate Valid()
      reads this, store
    {
      AllSound(Contents()) && Contents() == Run(origin, log)
    }

    /** Extend the log by operations that have just been carried out. */
    ghost method Record(ops: seq<Op>)
      requires AllSound(Run(origin, log)) && Contents() == Run(Run(origin, log), ops)
      modifies this`log
      ensures Valid() && log == old(log) + ops
    {
      RunAppend(origin, log, ops);
      RunIsSound(Run(origin, log), ops);
      log := log + ops;
    }

    /** A stretch of other workers' operations. */
    method Interference(ops: seq<Op>)
      requires Valid()
      modifies this, store
      ensures Valid() && Contents() == Run(old(Contents()), ops) && log == old(log) + ops
    {
      hide AllSound;
      var w := Run(World(store.cases, artifacts), ops);
      store.cases := w.cases;
      artifacts := w.artifacts;
      Record(ops);
    }

    method Initialize(caseId: CaseId, now: Time) returns (r: Result<CaseState, StoreError>)
      requires Valid()
      modifies this, store
      ensures Valid() && log == old(log) + [InitializeOp(caseId, now)]
      ensures Contents() == Apply(old(Contents()), InitializeOp(caseId, now))
      ensures r.Ok? <==> ValidCaseId(caseId)
      ensures r.Err? ==> r == Err(InvalidIdentity)
      ensures r.Ok? ==> caseId in store.cases
    {
      hide Run, AllSound;
      r := store.InitializeCase(caseId, now);
      assert caseId in old(store.cases) ==> old(store.cases)[caseId := old(store.cases)[caseId]] == old(store.cases);
      assert r.Ok? <==> ValidCaseId(caseId) by {
        assert old(AllSound(Contents()));
        StoredCaseReads(old(Contents()), caseId);
      }
      RunOne(old(Contents()), InitializeOp(caseId, now));
      Record([InitializeOp(caseId, now)]);
    }

    method Claim(q: SolveRequest, owner: Owner, now: Time) returns (r: Result<Option<CaseState>, StoreError>)
      requires Valid() && q.caseId in store.cases
      modifies this, store
      ensures Valid() && log == old(log) + [ClaimOp(q.caseId, q.attemptId, owner, now)]
      ensures Contents() == Apply(old(Contents()), ClaimOp(q.caseId, q.attemptId, owner, now))
      ensures r == if ValidAttemptId(q.attemptId) && ValidOwner(owner)
                   then Claimed(old(store.cases)[q.caseId], q.attemptId, owner, now).answer else Err(InvalidIdentity)
    {
      hide Claimed, Run, AllSound;
      StoredCaseReads(Contents(), q.caseId);
      r := store.ClaimCase(q.caseId, q.attemptId, owner, now);
      RunOne(old(Contents()), ClaimOp(q.caseId, q.attemptId, owner, now));
      Record([ClaimOp(q.caseId, q.attemptId, owner, now)]);
    }

    method Complete(q: SolveRequest, owner: Owner, d: Digest, now: Time) returns (r: Result<CaseState, StoreError>)
      requires Valid() && q.caseId in store.cases
      modifies this, store
      ensures Valid() && log == old(log) + [SucceedOp(q.caseId, q.attemptId, owner, d, now)]
      ensures Contents() == Apply(old(Contents()), SucceedOp(q.caseId, q.attemptId, owner, d, now))
      ensures r == if ValidAttemptId(q.attemptId) && ValidOwner(owner)
                   then Succeed(old(store.cases)[q.caseId], q.attemptId, owner, d, Verifies(artifacts, q.caseId, d),
                                now).answer
                   else Err(InvalidIdentity)
    {
      hide Succeed, Run, AllSound;
      StoredCaseReads(Contents(), q.caseId);
      r := store.SucceedCase(q.caseId, q.attemptId, owner, d, artifacts, now);
      RunOne(old(Contents()), SucceedOp(q.caseId, q.attemptId, owner, d, now));
      Record([SucceedOp(q.caseId, q.attemptId, owner, d, now)]);
    }

    /** Record a failure under the worker's own token. */
    method FailOwnedAttempt(q: SolveRequest, owner: Owner, e: Failure, now: Time)
        returns (r: Result<CaseState, StoreError>)
      requires Valid() && q.caseId in store.cases
      modifies this, store
      ensures Valid() && log == old(log) + [FailOp(q.caseId, q.attemptId, owner, e, now)]
      ensures Contents() == Apply(old(Contents()), FailOp(q.caseId, q.attemptId, owner, e, now))
      ensures r == if ValidAttemptId(q.attemptId) && ValidOwner(owner)
                   then Fail(old(store.cases)[q.caseId], q.attemptId, owner, e, now).answer else Err(InvalidIdentity)
    {
      hide Fail, Run, AllSound;
      StoredCaseReads(Contents(), q.caseId);
      r := store.FailCase(q.caseId, q.attemptId, owner, e, now);
      RunOne(old(Contents()), FailOp(q.caseId, q.attemptId, owner, e, now));
      Record([FailOp(q.caseId, q.attemptId, owner, e, now)]);
    }

    /** Persist the consequence of an expired lease; on a sound volume this always succeeds. */
    method Reap(caseId: CaseId, now: Time) returns (r: Result<CaseState, StoreError>)
      requires Valid() && caseId in store.cases
      modifies this, store
      ensures Valid() && log == old(log) + [ReapOp(caseId, now)]
      ensures artifacts == old(artifacts)
      ensures store.cases == old(store.cases)[caseId := Reaped(old(store.cases)[caseId], now).record]
      ensures r == Ok(store.cases[caseId])
    {
      hide Reaped, Run;
      StoredCaseReads(Contents(), caseId);
      ReapedIsSound(store.cases[caseId], now);
      r := store.ReapExpired(caseId, now);
      RunOne(old(Contents()), ReapOp(caseId, now));
      Record([ReapOp(caseId, now)]);
    }

    method Publish(caseId: CaseId, payload: nat) returns (d: Digest)
      requires Valid() && ValidCaseId(caseId)
      modifies this
      ensures Valid() && log == old(log) + [PublishOp(caseId, payload)]
      ensures Contents() == Apply(old(Contents()), PublishOp(caseId, payload))
      ensures d == Digest(caseId, payload) && Verifies(artifacts, caseId, d)
    {
      hide Run, AllSound;
      d := Digest(caseId, payload);
      artifacts := artifacts + {d};
      RunOne(old(Contents()), PublishOp(caseId, payload));
      Record([PublishOp(caseId, payload)]);
    }
  }

  /** What other workers do between the steps of this one. */
  datatype Environment = Environment(
    beforeClaim: seq<Op>, beforeWork: seq<Op>, beforePublish: seq<Op>, beforeVerdict: seq<Op>, beforeFailure: seq<Op>,
    afterwards: seq<Op>)

  /** How an undisturbed attempt ends: with a failure, or with a run. */
  function Ending(q: SolveRequest, attempt: nat, outcome: SolverOutcome): Option<Failure> {
    if q.forceRetryableFailure && attempt == 1 then Some(Forced)
    else match outcome
      case Solved(_) => None
      case SolverFailed(e) => Some(e)
      case SolverRaised => Some(Unexpected)
  }

  ghost predicate Elsewhere(ops: seq<Op>, c: CaseId) { forall op :: op in ops ==> op.caseId != c }

  /** Nobody else touches this case; whatever happens to others does not matter. */
  ghost predicate LeavesAlone(env: Environment, c: CaseId) {
    && Elsewhere(env.beforeClaim, c) && Elsewhere(env.beforeWork, c) && Elsewhere(env.beforePublish, c)
    && Elsewhere(env.beforeVerdict, c) && Elsewhere(env.beforeFailure, c) && Elsewhere(env.afterwards, c)
  }

  lemma {:induction false} NoneOnCase(ops: seq<Op>, c: CaseId)
    requires Elsewhere(ops, c)
    ensures OnCase(ops, c) == []
    decreases |ops|
  {
    if ops != [] {
      NoneOnCase(ops[..|ops| - 1], c);
    }
  }

  /** Operations elsewhere change nothing of a case and leave no trace on it. */
  lemma ElsewhereKeeps(w: World, log: seq<Op>, ops: seq<Op>, c: CaseId)
    requires Elsewhere(ops, c)
    ensures (c in Run(w, ops).cases <==> c in w.cases) && (c in w.cases ==> Run(w, ops).cases[c] == w.cases[c])
    ensures OnCase(log + ops, c) == OnCase(log, c)
  {
    hide Run;
    NoneOnCase(ops, c);
    CaseRunsAlone(w, w, ops, c);
    NoOperations(w);
    OnCaseAppend(log, ops, c);
  }

  /** The operations of a worker whose claim is granted as this attempt: its verdict, and all of them. */
  function VerdictOps(q: SolveRequest, owner: Owner, attempt: nat, outcome: SolverOutcome, now: Time): seq<Op> {
    match Ending(q, attempt, outcome)
    case None =>
      var d := Digest(q.caseId, outcome.payload);
      [PublishOp(q.caseId, outcome.payload), SucceedOp(q.caseId, q.attemptId, owner, d, now)]
    case Some(e) => [FailOp(q.caseId, q.attemptId, owner, e, now)]
  }

  function WorkerOps(q: SolveRequest, owner: Owner, attempt: nat, outcome: SolverOutcome, started: Time, ended: Time):
      seq<Op>
  {
    [InitializeOp(q.caseId, started), ClaimOp(q.caseId, q.attemptId, owner, started)]
    + VerdictOps(q, owner, attempt, outcome, ended)
  }

  /** A world in which the case has succeeded with this verified run. */
  ghost predicate Durable(w: World, c: CaseId, d: Digest) {
    c in w.cases && w.cases[c].state == Succeeded && w.cases[c].runDigest == Some(d) && Verifies(w.artifacts, c, d)
  }

  /** A durable success survives every further operation of every worker. */
  lemma DurableForever(w: World, ops: seq<Op>, c: CaseId, d: Digest)
    requires AllSound(w) && Durable(w, c, d)
    ensures Durable(Run(w, ops), c, d)
  {
    RunContinues(w, ops, c);
  }

  /** A world in which a claimed attempt has ended in this failure. */
  ghost predicate EndedIn(s: CaseState, t: CaseState, q: SolveRequest, e: Failure) {
    && t.attempt == s.attempt + 1 && t.attemptId == Some(q.attemptId) && t.errorCode == Some(e.code)
    && t.state == (if e.retryable && (e.code == CapacityExhausted || e.code == RemoteExecution) && t.attempt < 3
                   then Pending else Failed)
    && t.failureCodes == s.failureCodes + (if s.state == Running then [LeaseExpired] else []) + [e.code]
  }

  /** What a granted claim leaves. */
  ghost predicate Granted(s: CaseState, t: CaseState, q: SolveRequest, owner: Owner, now: Time) {
    && t.state == Running && t.caseId == s.caseId && t.attempt == s.attempt + 1 && t.attemptId == Some(q.attemptId)
    && t.leaseOwner == Some(owner) && t.leaseExpiresAt == Some(now + LEASE_DURATION) && t.updatedAt == now
    && t.failureCodes == s.failureCodes + (if s.state == Running then [LeaseExpired] else [])
    && Sound(t)
  }

  lemma ClaimGrants(s: CaseState, q: SolveRequest, owner: Owner, now: Time)
    requires Sound(s) && Claimable(s, now) && s.attemptId != Some(q.attemptId)
    ensures var o := Claimed(s, q.attemptId, owner, now);
      o.answer == Ok(Some(o.record)) && Granted(s, o.record, q, owner, now)
  {
  }

  lemma GrantedFails(s: CaseState, t: CaseState, q: SolveRequest, owner: Owner, e: Failure, now: Time, later: Time)
    requires Granted(s, t, q, owner, now) && now <= later < now + LEASE_DURATION
    ensures var o := Fail(t, q.attemptId, owner, e, later);
      o.answer == Ok(o.record) && EndedIn(s, o.record, q, e)
  {
  }

  lemma GrantedSucceeds(s: CaseState, t: CaseState, q: SolveRequest, owner: Owner, d: Digest, now: Time, later: Time)
    requires Granted(s, t, q, owner, now) && now <= later < now + LEASE_DURATION
    ensures var o := Succeed(t, q.attemptId, owner, d, true, later);
      && o.answer == Ok(o.record) && o.record.state == Succeeded && o.record.runDigest == Some(d)
      && o.record.attempt == s.attempt + 1
  {
  }

  /** An attempt whose lease is over. */
  ghost predicate LeaseGone(t: CaseState, now: Time) {
    t.state == Running && t.leaseExpiresAt.Some? && t.leaseExpiresAt.value <= now && t.updatedAt <= now
  }

  /** A verdict that comes too late is refused and changes nothing. */
  lemma LateVerdict(t: CaseState, q: SolveRequest, owner: Owner, d: Digest, verified: bool, e: Failure, now: Time)
    requires LeaseGone(t, now)
    ensures Succeed(t, q.attemptId, owner, d, verified, now) == Outcome(t, Err(NotLeaseHolder))
    ensures Fail(t, q.attemptId, owner, e, now) == Outcome(t, Err(NotLeaseHolder))
  {
  }

  /** No store refusal is worth another attempt. */
  lemma RefusalsAreFinal(e: StoreError)
    ensures var f := RefusalFailure(e);
      && !f.retryable
      && (f.code == ArtifactIntegrity <==> e in {InvalidIdentity, MissingState, DivergentDigest, ArtifactUnverified})
      && (f.code == InternalInvariant <==>
            e in {ClockRegression, IncoherentState, NotLeaseHolder, AttemptBoundElsewhere, AttemptReused,
                  DivergentFailure})
  {
  }

  /** A verdict of success, whoever records it, leaves the case durable at that run. */
  lemma SuccessIsDurable(w: World, q: SolveRequest, owner: Owner, d: Digest, now: Time)
    requires AllSound(w) && q.caseId in w.cases && WellNamed(SucceedOp(q.caseId, q.attemptId, owner, d, now))
    requires Succeed(w.cases[q.caseId], q.attemptId, owner, d, Verifies(w.artifacts, q.caseId, d), now).answer.Ok?
    ensures Durable(Apply(w, SucceedOp(q.caseId, q.attemptId, owner, d, now)), q.caseId, d)
  {
  }

  /** The record a worker starts from. */
  ghost function Before(w: World, c: CaseId, now: Time): CaseState {
    if c in w.cases then w.cases[c] else Initial(c, now)
  }

  /** Nobody interferes with the case, and it can be claimed under this token. */
  ghost predicate Uncontested(w: World, q: SolveRequest, owner: Owner, env: Environment, started: Time) {
    && LeavesAlone(env, q.caseId) && WellNamed(ClaimOp(q.caseId, q.attemptId, owner, started))
    && Claimable(Before(w, q.caseId, started), started) && Before(w, q.caseId, started).attemptId != Some(q.attemptId)
  }

  /** And the work ends within the lease. */
  ghost predicate Undisturbed(w: World, q: SolveRequest, owner: Owner, env: Environment, started: Time, ended: Time) {
    Uncontested(w, q, owner, env, started) && started <= ended < started + LEASE_DURATION
  }

  /** Record a failure of the claimed attempt and say what is raised. */
  method Report(v: Volume, q: SolveRequest, owner: Owner, e: Failure, others: seq<Op>, now: Time)
      returns (raised: Raised)
    requires v.Valid() && q.caseId in v.store.cases
    modifies v, v.store
    ensures v.Valid() && old(v.log) <= v.log
    ensures var s := old(v.store.cases)[q.caseId];
      Elsewhere(others, q.caseId) && WellNamed(FailOp(q.caseId, q.attemptId, owner, e, now))
        && Fail(s, q.attemptId, owner, e, now).answer.Ok? ==>
        raised == Reported(e) && q.caseId in v.store.cases
          && v.store.cases[q.caseId] == Fail(s, q.attemptId, owner, e, now).record
          && OnCase(v.log, q.caseId) == OnCase(old(v.log), q.caseId) + [FailOp(q.caseId, q.attemptId, owner, e, now)]
    ensures var s := old(v.store.cases)[q.caseId];
      Elsewhere(others, q.caseId) && WellNamed(FailOp(q.caseId, q.attemptId, owner, e, now)) && LeaseGone(s, now) ==>
        raised == Refused(NotLeaseHolder) && q.caseId in v.store.cases && v.store.cases[q.caseId] == s
  {
    hide Fail, AllSound, Run, OnCase;
    if LeaseGone(v.store.cases[q.caseId], now) {
      LateVerdict(v.store.cases[q.caseId], q, owner, Digest(q.caseId, 0), true, e, now);
    }
    RunContinues(v.Contents(), others, q.caseId);
    ghost var w := v.Contents();
    if Elsewhere(others, q.caseId) {
      ElsewhereKeeps(w, v.log, others, q.caseId);
    }
    OnCaseOne(v.log + others, FailOp(q.caseId, q.attemptId, owner, e, now), q.caseId);
    v.Interference(others);
    var r := v.FailOwnedAttempt(q, owner, e, now);
    return if r.Ok? then Reported(e) else Refused(r.error);
  }

  /** Publish a result, others acting first. */
  method PublishAmid(v: Volume, q: SolveRequest, payload: nat, others: seq<Op>) returns (d: Digest)
    requires v.Valid() && q.caseId in v.store.cases && ValidCaseId(q.caseId)
    modifies v, v.store
    ensures v.Valid() && old(v.log) <= v.log && q.caseId in v.store.cases
    ensures d == Digest(q.caseId, payload) && Verifies(v.artifacts, q.caseId, d)
    ensures Elsewhere(others, q.caseId) ==>
      v.store.cases[q.caseId] == old(v.store.cases)[q.caseId]
      && OnCase(v.log, q.caseId) == OnCase(old(v.log), q.caseId) + [PublishOp(q.caseId, payload)]
  {
    hide AllSound, Run, OnCase, Elsewhere;
    if Elsewhere(others, q.caseId) {
      ElsewhereKeeps(v.Contents(), v.log, others, q.caseId);
    }
    OnCaseOne(v.log + others, PublishOp(q.caseId, payload), q.caseId);
    RunContinues(v.Contents(), others, q.caseId);
    v.Interference(others);
    d := v.Publish(q.caseId, payload);
  }

  /** Publish a result and have it recorded; a refused record is reported under the same token. */
  method PublishAndComplete(v: Volume, q: SolveRequest, owner: Owner, payload: nat, env: Environment, now: Time)
      returns (r: Result<Digest, Raised>)
    requires v.Valid() && q.caseId in v.store.cases && WellNamed(ClaimOp(q.caseId, q.attemptId, owner, now))
    modifies v, v.store
    ensures v.Valid() && old(v.log) <= v.log
    ensures r.Ok? ==> Durable(v.Contents(), q.caseId, r.value)
    ensures r.Err? ==> r.error.Refused?
    ensures var t := old(v.store.cases)[q.caseId]; var d := Digest(q.caseId, payload);
      LeavesAlone(env, q.caseId) && Succeed(t, q.attemptId, owner, d, true, now).answer.Ok? ==>
        r == Ok(d) && q.caseId in v.store.cases
          && v.store.cases[q.caseId] == Succeed(t, q.attemptId, owner, d, true, now).record
          && OnCase(v.log, q.caseId) == OnCase(old(v.log), q.caseId)
            + [PublishOp(q.caseId, payload), SucceedOp(q.caseId, q.attemptId, owner, d, now)]
    ensures LeavesAlone(env, q.caseId) && LeaseGone(old(v.store.cases)[q.caseId], now) ==>
      r == Err(Refused(NotLeaseHolder)) && q.caseId in v.store.cases
        && v.store.cases[q.caseId] == old(v.store.cases)[q.caseId]
  {
    hide Succeed, Fail, AllSound, Run, Durable, OnCase, Elsewhere;
    if LeaseGone(v.store.cases[q.caseId], now) {
      LateVerdict(v.store.cases[q.caseId], q, owner, Digest(q.caseId, payload), true, Unexpected, now);
    }
    var d := PublishAmid(v, q, payload, env.beforePublish);
    ghost var w1 := v.Contents();
    if LeavesAlone(env, q.caseId) {
      ElsewhereKeeps(w1, v.log, env.beforeVerdict, q.caseId);
    }
    OnCaseOne(v.log + env.beforeVerdict, SucceedOp(q.caseId, q.attemptId, owner, d, now), q.caseId);
    RunContinues(w1, env.beforeVerdict, q.caseId);
    v.Interference(env.beforeVerdict);
    ghost var w2 := v.Contents();
    var recorded := v.Complete(q, owner, d, now);
    if recorded.Err? {
      var raised := Report(v, q, owner, RefusalFailure(recorded.error), env.beforeFailure, now);
      return Err(if raised.Refused? then raised else Refused(recorded.error));
    }
    SuccessIsDurable(w2, q, owner, d, now);
    return Ok(d);
  }

  /** The work of a granted claim: the forced smoke failure, or solve, publish and complete. */
  method Work(v: Volume, q: SolveRequest, owner: Owner, attempt: nat, outcome: SolverOutcome, env: Environment,
              now: Time)
      returns (r: Result<Digest, Raised>)
    requires v.Valid() && q.caseId in v.store.cases && WellNamed(ClaimOp(q.caseId, q.attemptId, owner, now))
    modifies v, v.store
    ensures v.Valid() && old(v.log) <= v.log
    ensures r.Ok? ==> Durable(v.Contents(), q.caseId, r.value)
    ensures var t := old(v.store.cases)[q.caseId];
      LeavesAlone(env, q.caseId) && Ending(q, attempt, outcome) == None
        && Succeed(t, q.attemptId, owner, Digest(q.caseId, outcome.payload), true, now).answer.Ok? ==>
        r == Ok(Digest(q.caseId, outcome.payload)) && q.caseId in v.store.cases
        && v.store.cases[q.caseId]
          == Succeed(t, q.attemptId, owner, Digest(q.caseId, outcome.payload), true, now).record
        && OnCase(v.log, q.caseId) == OnCase(old(v.log), q.caseId) + VerdictOps(q, owner, attempt, outcome, now)
    ensures var t := old(v.store.cases)[q.caseId];
      LeavesAlone(env, q.caseId) && Ending(q, attempt, outcome).Some?
        && Fail(t, q.attemptId, owner, Ending(q, attempt, outcome).value, now).answer.Ok? ==>
        r == Err(Reported(Ending(q, attempt, outcome).value)) && q.caseId in v.store.cases
        && v.store.cases[q.caseId] == Fail(t, q.attemptId, owner, Ending(q, attempt, outcome).value, now).record
        && OnCase(v.log, q.caseId) == OnCase(old(v.log), q.caseId) + VerdictOps(q, owner, attempt, outcome, now)
    ensures LeavesAlone(env, q.caseId) && LeaseGone(old(v.store.cases)[q.caseId], now) ==>
      r == Err(Refused(NotLeaseHolder)) && q.caseId in v.store.cases
        && v.store.cases[q.caseId] == old(v.store.cases)[q.caseId]
  {
    hide Succeed, Fail, AllSound, Run, Durable, OnCase, Elsewhere;
    var raised;
    if q.forceRetryableFailure && attempt == 1 {
      raised := Report(v, q, owner, Forced, env.beforeFailure, now);
      return Err(raised);
    }
    match outcome {
      case Solved(payload) =>
        r := PublishAndComplete(v, q, owner, payload, env, now);
      case SolverFailed(e) =>
        raised := Report(v, q, owner, e, env.beforeFailure, now);
        return Err(raised);
      case SolverRaised =>
        raised := Report(v, q, owner, Unexpected, env.beforeFailure, now);
        return Err(raised);
    }
  }

  /** What initializing a case leaves stored. */
  lemma InitializedRecord(w: World, c: CaseId, now: Time)
    requires AllSound(w) && ValidCaseId(c)
    ensures var w' := Apply(w, InitializeOp(c, now));
      c in w'.cases && w'.cases[c] == Before(w, c, now) && Sound(Before(w, c, now))
  {
  }

  /** How an undisturbed attempt on a record is answered and what it leaves. */
  ghost predicate Ended(s: CaseState, t: CaseState, q: SolveRequest, outcome: SolverOutcome,
                        r: Result<Digest, Raised>) {
    if q.forceRetryableFailure && s.attempt == 0 then
      r == Err(Reported(Failure(RemoteExecution, true))) && EndedIn(s, t, q, Failure(RemoteExecution, true))
    else match outcome
      case Solved(payload) =>
        r == Ok(Digest(q.caseId, payload)) && t.state == Succeeded && t.runDigest == Some(Digest(q.caseId, payload))
        && t.attempt == s.attempt + 1
      case SolverFailed(e) => r == Err(Reported(e)) && EndedIn(s, t, q, e)
      case SolverRaised =>
        r == Err(Reported(Failure(InternalInvariant, false))) && EndedIn(s, t, q, Failure(InternalInvariant, false))
  }

  /** Within the lease of a granted claim either verdict is accepted. */
  lemma UndisturbedEnding(s: CaseState, t: CaseState, q: SolveRequest, owner: Owner, outcome: SolverOutcome,
                          started: Time, ended: Time)
    requires Granted(s, t, q, owner, started) && started <= ended < started + LEASE_DURATION
    ensures match Ending(q, t.attempt, outcome)
      case None =>
        var o := Succeed(t, q.attemptId, owner, Digest(q.caseId, outcome.payload), true, ended);
        o.answer.Ok? && Ended(s, o.record, q, outcome, Ok(Digest(q.caseId, outcome.payload)))
      case Some(e) =>
        var o := Fail(t, q.attemptId, owner, e, ended);
        o.answer.Ok? && Ended(s, o.record, q, outcome, Err(Reported(e)))
    ensures t.attempt == s.attempt + 1
  {
    hide Succeed, Fail, EndedIn;
    match Ending(q, t.attempt, outcome) {
      case None => GrantedSucceeds(s, t, q, owner, Digest(q.caseId, outcome.payload), started, ended);
      case Some(e) => GrantedFails(s, t, q, owner, e, started, ended);
    }
  }

  lemma LeaseRunOut(s: CaseState, t: CaseState, q: SolveRequest, owner: Owner, started: Time, ended: Time)
    requires Granted(s, t, q, owner, started) && started + 600_000_000 <= ended
    ensures LeaseGone(t, ended)
  {
  }

  /** What a worker answers when there is nothing to claim: the recorded success, if there is one. The
      recorded run always verifies, so this path never fails on the artifact. */
  method Settled(v: Volume, q: SolveRequest) returns (r: Result<Digest, Raised>)
    requires v.Valid() && q.caseId in v.store.cases
    ensures r.Ok? <==> v.store.cases[q.caseId].state == Succeeded
    ensures r.Ok? ==> Durable(v.Contents(), q.caseId, r.value)
    ensures r.Err? ==> r == Err(Reported(Failure(RemoteExecution, true)))
  {
    StoredCaseReads(v.Contents(), q.caseId);
    var state := v.store.ReadCase(q.caseId);
    if state.Ok? && state.value.state == Succeeded && state.value.runDigest.Some?
      && Verifies(v.artifacts, q.caseId, state.value.runDigest.value) {
      return Ok(state.value.runDigest.value);
    }
    return Err(Reported(Failure(RemoteExecution, true)));
  }

  /** Initialize and claim. */
  method Begin(v: Volume, q: SolveRequest, owner: Owner, env: Environment, started: Time)
      returns (r: Result<Option<CaseState>, StoreError>)
    requires v.Valid() && ValidOwner(owner)
    modifies v, v.store
    ensures v.Valid() && old(v.log) <= v.log
    ensures r.Ok? ==> q.caseId in v.store.cases && WellNamed(ClaimOp(q.caseId, q.attemptId, owner, started))
    ensures Uncontested(old(v.Contents()), q, owner, env, started) ==>
      && r.Ok? && r.value == Some(v.store.cases[q.caseId])
      && Granted(Before(old(v.Contents()), q.caseId, started), v.store.cases[q.caseId], q, owner, started)
      && OnCase(v.log, q.caseId) == OnCase(old(v.log), q.caseId)
           + [InitializeOp(q.caseId, started), ClaimOp(q.caseId, q.attemptId, owner, started)]
    ensures !WellNamed(ClaimOp(q.caseId, q.attemptId, owner, started)) ==> r == Err(InvalidIdentity)
    ensures LeavesAlone(env, q.caseId) && WellNamed(ClaimOp(q.caseId, q.attemptId, owner, started)) ==>
      var o := Claimed(Before(old(v.Contents()), q.caseId, started), q.attemptId, owner, started);
      && r == o.answer && q.caseId in v.store.cases && v.store.cases[q.caseId] == o.record
  {
    hide Claimed, AllSound, Run, Granted, OnCase, Elsewhere;
    ghost var w0 := v.Contents();
    OnCaseOne(v.log, InitializeOp(q.caseId, started), q.caseId);
    var initialized := v.Initialize(q.caseId, started);
    if initialized.Err? {
      return Err(initialized.error);
    }
    ghost var w1 := v.Contents();
    RunContinues(w1, env.beforeClaim, q.caseId);
    OnCaseOne(v.log + env.beforeClaim, ClaimOp(q.caseId, q.attemptId, owner, started), q.caseId);
    if LeavesAlone(env, q.caseId) {
      ElsewhereKeeps(w1, v.log, env.beforeClaim, q.caseId);
      InitializedRecord(w0, q.caseId, started);
    }
    if Uncontested(w0, q, owner, env, started) {
      ClaimGrants(Before(w0, q.caseId, started), q, owner, started);
    }
    v.Interference(env.beforeClaim);
    r := v.Claim(q, owner, started);
    ghost var w3 := v.Contents();
    if LeavesAlone(env, q.caseId) {
      ElsewhereKeeps(w3, v.log, env.beforeWork, q.caseId);
    }
    RunContinues(w3, env.beforeWork, q.caseId);
    v.Interference(env.beforeWork);
  }

  /** What comes of a claim that is refused, or finds nothing to claim: the refusal, or the success on record, or word
      that the case cannot be claimed; and the record is as the claim left it. */
  ghost predicate NothingToDo(s: CaseState, w: World, q: SolveRequest, owner: Owner, now: Time,
                              r: Result<Digest, Raised>) {
    var o := Claimed(s, q.attemptId, owner, now);
    o.answer.Err? || o.answer == Ok(None) ==>
      && q.caseId in w.cases && w.cases[q.caseId] == o.record
      && if o.answer.Err? then r == Err(Refused(o.answer.error))
         else if s.state == Succeeded then s.runDigest.Some? && r == Ok(s.runDigest.value)
         else r == Err(Reported(Failure(RemoteExecution, true)))
  }

  /** A claim leaves a success alone, and never makes one. */
  lemma ClaimKeepsSuccess(s: CaseState, q: SolveRequest, owner: Owner, now: Time)
    requires Sound(s)
    ensures Claimed(s, q.attemptId, owner, now).record.state == Succeeded <==> s.state == Succeeded
    ensures s.state == Succeeded ==> Claimed(s, q.attemptId, owner, now).record == s && s.runDigest.Some?
  {
  }

  /** The whole transaction. Whatever other workers do between its steps, a returned reference is the
      digest of a durable, verified success of that case. Undisturbed on its case, whatever others do elsewhere,
      it spends exactly one attempt and ends it: in success with the solved run, or in the recorded failure; and
      the operations it leaves on the case are exactly its own. If its work takes longer than the ten minutes of the
      lease, it raises whatever the solver did, and leaves its attempt running on record. */
  method ExecuteSolve(v: Volume, q: SolveRequest, owner: Owner, matchesBuild: bool, outcome: SolverOutcome,
                      env: Environment, started: Time, ended: Time) returns (r: Result<Digest, Raised>)
    requires v.Valid()
    modifies v, v.store
    ensures v.Valid() && old(v.log) <= v.log
    ensures r.Ok? ==> Durable(v.Contents(), q.caseId, r.value)
    ensures !matchesBuild || !ValidOwner(owner) ==>
      r == Err(if ValidOwner(owner) then Mismatch else BadOwner) && v.Contents() == old(v.Contents())
    ensures matchesBuild && ValidOwner(owner) && !(ValidCaseId(q.caseId) && ValidAttemptId(q.attemptId)) ==>
      r == Err(Refused(InvalidIdentity))
    ensures matchesBuild && LeavesAlone(env, q.caseId) && WellNamed(ClaimOp(q.caseId, q.attemptId, owner, started)) ==>
      NothingToDo(Before(old(v.Contents()), q.caseId, started), v.Contents(), q, owner, started, r)
    ensures matchesBuild && Undisturbed(old(v.Contents()), q, owner, env, started, ended) ==>
      q.caseId in v.store.cases
      && Ended(Before(old(v.Contents()), q.caseId, started), v.store.cases[q.caseId], q, outcome, r)
      && OnCase(v.log, q.caseId) == OnCase(old(v.log), q.caseId)
           + WorkerOps(q, owner, Before(old(v.Contents()), q.caseId, started).attempt + 1, outcome, started, ended)
    ensures matchesBuild && Uncontested(old(v.Contents()), q, owner, env, started) && started + 600_000_000 <= ended ==>
      r == Err(Refused(NotLeaseHolder)) && q.caseId in v.store.cases
      && Granted(Before(old(v.Contents()), q.caseId, started), v.store.cases[q.caseId], q, owner, started)
  {
    hide Succeed, Fail, Claimed, AllSound, Run, Durable, Ended, Granted, Apply, Verifies, Coherent, OnCase, Elsewhere,
         VerdictOps;
    if !ValidOwner(owner) {
      return Err(BadOwner);
    }
    if !matchesBuild {
      return Err(Mismatch);
    }
    ghost var w0 := v.Contents();
    var claimed := Begin(v, q, owner, env, started);
    if LeavesAlone(env, q.caseId) && WellNamed(ClaimOp(q.caseId, q.attemptId, owner, started)) {
      InitializedRecord(w0, q.caseId, started);
      ClaimKeepsSuccess(Before(w0, q.caseId, started), q, owner, started);
      ElsewhereKeeps(v.Contents(), v.log, env.afterwards, q.caseId);
    }
    if claimed.Err? {
      return Err(Refused(claimed.error));
    }
    ghost var t := v.store.cases[q.caseId];
    if claimed.value == None {
      r := Settled(v, q);
    } else {
      r := Work(v, q, owner, claimed.value.value.attempt, outcome, env, ended);
    }
    if Uncontested(w0, q, owner, env, started) && started + 600_000_000 <= ended {
      LeaseRunOut(Before(w0, q.caseId, started), t, q, owner, started, ended);
      ElsewhereKeeps(v.Contents(), v.log, env.afterwards, q.caseId);
    }
    if Undisturbed(w0, q, owner, env, started, ended) {
      UndisturbedEnding(Before(w0, q.caseId, started), t, q, owner, outcome, started, ended);
      ElsewhereKeeps(v.Contents(), v.log, env.afterwards, q.caseId);
    }
    if r.Ok? {
      DurableForever(v.Contents(), env.afterwards, q.caseId, r.value);
    }
    v.Interference(env.afterwards);
  }
}
