/** What a lease is worth, told by the fields of a record and by the clock: who may renew or end an attempt and until
    when, what a claim and a reap make of a lease that is over, and what that means over runs. */
module SweepLeases {
  import opened SweepFencing
  import opened SweepRuns
  import opened SweepState
  import opened Wrappers

  /** The holder of a lease: the attempt runs, the token and the owner are those on record, and time is left. */
  ghost predicate Entitled(s: CaseState, a: AttemptId, owner: Owner, now: Time) {
    && s.state == Running && s.attemptId == Some(a) && s.leaseOwner == Some(owner)
    && s.leaseExpiresAt.Some? && now < s.leaseExpiresAt.value
  }

  /** The answer to somebody who is not entitled, or whose clock is behind the record. */
  ghost function Refusal(s: CaseState, now: Time): StoreError {
    if now < s.updatedAt then ClockRegression else NotLeaseHolder
  }

  /** A renewal is granted exactly to the holder, for ten minutes from now; a refusal leaves the record alone. */
  lemma RenewedExactly(s: CaseState, a: AttemptId, owner: Owner, now: Time)
    requires Sound(s)
    ensures var o := Renewed(s, a, owner, now);
      if Entitled(s, a, owner, now) && s.updatedAt <= now then
        && o.answer == Ok(o.record)
        && o.record == if s.leaseExpiresAt == Some(now + 600_000_000) then s
                       else s.(leaseExpiresAt := Some(now + 600_000_000), revision := s.revision + 1, updatedAt := now)
      else o == Outcome(s, Err(Refusal(s, now)))
  {
  }

  /** A success is recorded exactly for the holder with a verified artifact; a case that has succeeded answers its own
      digest again and no other. */
  lemma SucceedExactly(s: CaseState, a: AttemptId, owner: Owner, d: Digest, verified: bool, now: Time)
    requires Sound(s)
    ensures var o := Succeed(s, a, owner, d, verified, now);
      if s.state == Succeeded then
        && o.record == s
        && (o.answer == Ok(s) <==> s.runDigest == Some(d) && verified)
        && (o.answer == Err(DivergentDigest) <==> s.runDigest != Some(d))
        && (o.answer == Err(ArtifactUnverified) <==> s.runDigest == Some(d) && !verified)
      else if Entitled(s, a, owner, now) && s.updatedAt <= now then
        if verified then
          && o.answer == Ok(o.record)
          && o.record == s.(state := Succeeded, leaseOwner := None, leaseExpiresAt := None, runDigest := Some(d),
                            revision := s.revision + 1, updatedAt := now)
        else o == Outcome(s, Err(ArtifactUnverified))
      else o == Outcome(s, Err(Refusal(s, now)))
  {
  }

  /** Whether a failure leaves the case to another attempt. */
  ghost predicate TriesAgain(attempt: nat, e: Failure) {
    e.retryable && (e.code == CapacityExhausted || e.code == RemoteExecution) && attempt < 3
  }

  /** A failure is recorded exactly for the holder, and ends the case unless it is a transient one of the first two
      attempts; an attempt that has ended may only repeat the failure on record. */
  lemma FailExactly(s: CaseState, a: AttemptId, owner: Owner, e: Failure, now: Time)
    requires Sound(s)
    ensures var o := Fail(s, a, owner, e, now);
      var next := if TriesAgain(s.attempt, e) then Pending else Failed;
      if s.attemptId == Some(a) && s.state != Running && s.state != Succeeded then
        o == Outcome(s, if s.errorCode == Some(e.code) && s.state == next then Ok(s) else Err(DivergentFailure))
      else if Entitled(s, a, owner, now) && s.updatedAt <= now then
        && o.answer == Ok(o.record)
        && o.record == s.(state := next, leaseOwner := None, leaseExpiresAt := None, errorCode := Some(e.code),
                          failureCodes := s.failureCodes + [e.code], revision := s.revision + 1, updatedAt := now)
      else o == Outcome(s, Err(Refusal(s, now)))
  {
  }

  /** The record of an attempt that its lease has outrun: one more attempt, or the end of the case after three. */
  ghost function Outrun(s: CaseState, now: Time): CaseState {
    s.(state := if s.attempt < 3 then Pending else Failed, leaseOwner := None, leaseExpiresAt := None,
       errorCode := Some(LeaseExpired), failureCodes := s.failureCodes + [LeaseExpired],
       revision := s.revision + 1, updatedAt := now)
  }

  /** Reaping ends exactly the attempts whose lease is over at that time. */
  lemma ReapedExactly(s: CaseState, now: Time)
    requires Sound(s)
    ensures var o := Reaped(s, now);
      && o.answer == Ok(o.record)
      && o.record == if s.state == Running && s.leaseExpiresAt.value <= now then Outrun(s, now) else s
  {
  }

  ghost function Taken(s: CaseState, a: AttemptId, owner: Owner, now: Time): CaseState {
    s.(state := Running, attempt := s.attempt + 1, attemptId := Some(a), leaseOwner := Some(owner),
       leaseExpiresAt := Some(now + 600_000_000), errorCode := None, revision := s.revision + 1, updatedAt := now)
  }

  /** A claim takes exactly what waits: a pending case, or one of whose first two attempts the lease is over. It gets
      ten minutes under a token that the case has not just used, and finds its own live lease again. */
  lemma ClaimedExactly(s: CaseState, a: AttemptId, owner: Owner, now: Time)
    requires Sound(s)
    ensures var o := Claimed(s, a, owner, now);
      if s.state == Running && now < s.leaseExpiresAt.value then
        o == Outcome(s, if s.attemptId != Some(a) then Ok(None)
                        else if s.leaseOwner == Some(owner) then Ok(Some(s)) else Err(AttemptBoundElsewhere))
      else
        var p := if s.state == Running then Outrun(s, now) else s;
        if p.state != Pending then o == Outcome(p, Ok(None))
        else if p.attemptId == Some(a) then o == Outcome(p, Err(AttemptReused))
        else if now < p.updatedAt then o == Outcome(p, Err(ClockRegression))
        else o == Outcome(Taken(p, a, owner, now), Ok(Some(Taken(p, a, owner, now))))
  {
    hide Reaped, Claimed;
    ReapedExactly(s, now);
    ClaimedAfterReap(s, a, owner, now);
  }

  lemma ClaimedAfterReap(s: CaseState, a: AttemptId, owner: Owner, now: Time)
    requires Sound(s) && Reaped(s, now).answer == Ok(Reaped(s, now).record)
    requires Reaped(s, now).record == if s.state == Running && s.leaseExpiresAt.value <= now then Outrun(s, now) else s
    ensures var o := Claimed(s, a, owner, now);
      if s.state == Running && now < s.leaseExpiresAt.value then
        o == Outcome(s, if s.attemptId != Some(a) then Ok(None)
                        else if s.leaseOwner == Some(owner) then Ok(Some(s)) else Err(AttemptBoundElsewhere))
      else
        var p := if s.state == Running then Outrun(s, now) else s;
        if p.state != Pending then o == Outcome(p, Ok(None))
        else if p.attemptId == Some(a) then o == Outcome(p, Err(AttemptReused))
        else if now < p.updatedAt then o == Outcome(p, Err(ClockRegression))
        else o == Outcome(Taken(p, a, owner, now), Ok(Some(Taken(p, a, owner, now))))
  {
    hide Reaped;
  }

  /** Something can be claimed exactly of a pending case, and of one whose first or second attempt has outrun its
      lease; and then a claim under a new token takes it. */
  lemma ClaimableExactly(s: CaseState, a: AttemptId, owner: Owner, now: Time)
    requires Sound(s) && s.attemptId != Some(a)
    ensures Claimable(s, now) <==>
      || (s.state == Pending && s.updatedAt <= now)
      || (s.state == Running && s.leaseExpiresAt.value <= now && s.attempt < 3)
    ensures Claimable(s, now) <==> Claimed(s, a, owner, now).record.attempt == s.attempt + 1
  {
    hide Claimed;
    ClaimedExactly(s, a, owner, now);
  }

  /** An operation that comes too late to use a lease that ends at a given time. */
  ghost predicate TooLate(op: Op, deadline: Time) {
    match op
    case ClaimOp(_, _, _, _) => false
    case ReapOp(_, _) => false
    case RenewOp(_, _, _, now) => deadline <= now
    case SucceedOp(_, _, _, _, now) => deadline <= now
    case FailOp(_, _, _, _, now) => deadline <= now
    case InitializeOp(_, _) => true
    case PublishOp(_, _) => true
  }

  lemma LateChangesNothing(s: CaseState, artifacts: set<Digest>, op: Op)
    requires Sound(s) && s.state == Running && TooLate(op, s.leaseExpiresAt.value)
    ensures RecordAfter(s, artifacts, op) == s
  {
    hide Renewed, Succeed, Fail;
    match op
    case RenewOp(_, a, o, now) => RenewedExactly(s, a, o, now);
    case SucceedOp(c, a, o, d, now) => SucceedExactly(s, a, o, d, Verifies(artifacts, c, d), now);
    case FailOp(_, a, o, e, now) => FailExactly(s, a, o, e, now);
    case InitializeOp(_, _) =>
    case PublishOp(_, _) =>
  }

  /** Once its lease is over, an attempt is out of everybody's hands until somebody claims or reaps the case: over
      every interleaving its record stays as it is, whoever reports what, the worker of the attempt included. */
  lemma {:induction false} OverLeaseIsPowerless(w: World, ops: seq<Op>, c: CaseId)
    requires AllSound(w) && c in w.cases && w.cases[c].state == Running
    requires forall op :: op in ops && op.caseId == c ==> TooLate(op, w.cases[c].leaseExpiresAt.value)
    ensures c in Run(w, ops).cases && Run(w, ops).cases[c] == w.cases[c]
    decreases |ops|
  {
    hide AllSound, RecordAfter, TooLate;
    if ops != [] {
      assert ops[0] in ops;
      StepKeepsSound(w, ops[0]);
      assert Sound(w.cases[c]) by { KeptSound(w, c); }
      if ops[0].caseId == c {
        LateChangesNothing(w.cases[c], w.artifacts, ops[0]);
      }
      OverLeaseIsPowerless(Apply(w, ops[0]), ops[1..], c);
    }
  }

  lemma KeptSound(w: World, c: CaseId)
    requires AllSound(w) && c in w.cases
    ensures Sound(w.cases[c]) && SoundIn(w.cases[c], c, w.artifacts)
  {
  }

  /** An operation that comes before a lease is over, from somebody other than its holder. */
  ghost predicate FromOutside(op: Op, a: AttemptId, owner: Owner, deadline: Time) {
    match op
    case ClaimOp(_, _, _, now) => now < deadline
    case ReapOp(_, now) => now < deadline
    case RenewOp(_, a', o', _) => a' != a || o' != owner
    case SucceedOp(_, a', o', _, _) => a' != a || o' != owner
    case FailOp(_, a', o', _, _) => a' != a || o' != owner
    case InitializeOp(_, _) => true
    case PublishOp(_, _) => true
  }

  lemma OutsideChangesNothing(s: CaseState, artifacts: set<Digest>, op: Op)
    requires Sound(s) && s.state == Running
    requires FromOutside(op, s.attemptId.value, s.leaseOwner.value, s.leaseExpiresAt.value)
    ensures RecordAfter(s, artifacts, op) == s
  {
    hide Renewed, Succeed, Fail, Claimed, Reaped;
    match op
    case ClaimOp(_, a, o, now) => ClaimedExactly(s, a, o, now);
    case ReapOp(_, now) => ReapedExactly(s, now);
    case RenewOp(_, a, o, now) => RenewedExactly(s, a, o, now);
    case SucceedOp(c, a, o, d, now) => SucceedExactly(s, a, o, d, Verifies(artifacts, c, d), now);
    case FailOp(_, a, o, e, now) => FailExactly(s, a, o, e, now);
    case InitializeOp(_, _) =>
    case PublishOp(_, _) =>
  }

  /** A live lease excludes everybody else: over every interleaving of claims and reaps before it is over, and of
      whatever others report, its record stays as it is. */
  lemma {:induction false} LiveLeaseExcludes(w: World, ops: seq<Op>, c: CaseId)
    requires AllSound(w) && c in w.cases && w.cases[c].state == Running
    requires forall op :: op in ops && op.caseId == c ==>
      var s := w.cases[c]; FromOutside(op, s.attemptId.value, s.leaseOwner.value, s.leaseExpiresAt.value)
    ensures c in Run(w, ops).cases && Run(w, ops).cases[c] == w.cases[c]
    decreases |ops|
  {
    hide AllSound, RecordAfter, FromOutside;
    if ops != [] {
      assert ops[0] in ops;
      StepKeepsSound(w, ops[0]);
      assert Sound(w.cases[c]) by { KeptSound(w, c); }
      if ops[0].caseId == c {
        OutsideChangesNothing(w.cases[c], w.artifacts, ops[0]);
      }
      LiveLeaseExcludes(Apply(w, ops[0]), ops[1..], c);
    }
  }
}
