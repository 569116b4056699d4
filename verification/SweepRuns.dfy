/** Arbitrary interleavings of sweep operations by any number of workers, stale or crashed, over the
    case records and the grow-only set of published runs. A crash is a worker that issues no more
    operations; times need not be consistent between workers. */
module SweepRuns {
  import opened SweepState
  import opened Wrappers

  datatype World = World(cases: map<CaseId, CaseState>, artifacts: set<Digest>)

  const EmptyWorld := World(map[], {})

  datatype Op =
    | InitializeOp(caseId: CaseId, now: Time)
    | ClaimOp(caseId: CaseId, attemptId: AttemptId, owner: Owner, now: Time)
    | RenewOp(caseId: CaseId, attemptId: AttemptId, owner: Owner, now: Time)
    | SucceedOp(caseId: CaseId, attemptId: AttemptId, owner: Owner, digest: Digest, now: Time)
    | FailOp(caseId: CaseId, attemptId: AttemptId, owner: Owner, failure: Failure, now: Time)
    | ReapOp(caseId: CaseId, now: Time)
    | PublishOp(caseId: CaseId, payload: nat)

  predicate WellNamed(op: Op) {
    match op
    case InitializeOp(c, _) => ValidCaseId(c)
    case ReapOp(c, _) => ValidCaseId(c)
    case PublishOp(c, _) => ValidCaseId(c)
    case ClaimOp(c, a, o, _) => ValidCaseId(c) && ValidAttemptId(a) && ValidOwner(o)
    case RenewOp(c, a, o, _) => ValidCaseId(c) && ValidAttemptId(a) && ValidOwner(o)
    case SucceedOp(c, a, o, _, _) => ValidCaseId(c) && ValidAttemptId(a) && ValidOwner(o)
    case FailOp(c, a, o, _, _) => ValidCaseId(c) && ValidAttemptId(a) && ValidOwner(o)
  }

  /** The record that an operation on an existing record leaves behind. */
  function RecordAfter(s: CaseState, artifacts: set<Digest>, op: Op): CaseState {
    match op
    case InitializeOp(_, _) => s
    case ClaimOp(_, a, o, now) => Claimed(s, a, o, now).record
    case RenewOp(_, a, o, now) => Renewed(s, a, o, now).record
    case SucceedOp(c, a, o, d, now) => Succeed(s, a, o, d, Verifies(artifacts, c, d), now).record
    case FailOp(_, a, o, e, now) => Fail(s, a, o, e, now).record
    case ReapOp(_, now) => Reaped(s, now).record
    case PublishOp(_, _) => s
  }

  function ErrorOf<T>(r: Result<T, StoreError>): Option<StoreError> {
    match r
    case Ok(_) => None
    case Err(e) => Some(e)
  }

  /** The error that an operation on an existing record reports, if any. */
  function Fault(s: CaseState, artifacts: set<Digest>, op: Op): Option<StoreError> {
    match op
    case InitializeOp(_, _) => None
    case ClaimOp(_, a, o, now) => ErrorOf(Claimed(s, a, o, now).answer)
    case RenewOp(_, a, o, now) => ErrorOf(Renewed(s, a, o, now).answer)
    case SucceedOp(c, a, o, d, now) => ErrorOf(Succeed(s, a, o, d, Verifies(artifacts, c, d), now).answer)
    case FailOp(_, a, o, e, now) => ErrorOf(Fail(s, a, o, e, now).answer)
    case ReapOp(_, now) => ErrorOf(Reaped(s, now).answer)
    case PublishOp(_, _) => None
  }

  /** One operation, as the store methods carry it out. */
  function Apply(w: World, op: Op): World {
    if !WellNamed(op) then w
    else if op.PublishOp? then w.(artifacts := w.artifacts + {Digest(op.caseId, op.payload)})
    else if op.caseId in w.cases then
      w.(cases := w.cases[op.caseId := RecordAfter(w.cases[op.caseId], w.artifacts, op)])
    else if op.InitializeOp? then w.(cases := w.cases[op.caseId := Initial(op.caseId, op.now)])
    else w
  }

  function Run(w: World, ops: seq<Op>): World
    decreases |ops|
  {
    if ops == [] then w else Run(Apply(w, ops[0]), ops[1..])
  }

  lemma NoOperations(w: World)
    ensures Run(w, []) == w
  {
  }

  lemma RunOne(w: World, op: Op)
    ensures Run(w, [op]) == Apply(w, op)
  {
    assert Run(Apply(w, op), []) == Apply(w, op);
  }

  lemma {:induction false} RunAppend(w: World, a: seq<Op>, b: seq<Op>)
    ensures Run(w, a + b) == Run(Run(w, a), b)
    decreases |a|
  {
    if a == [] {
      assert a + b == b;
    } else {
      assert (a + b)[0] == a[0] && (a + b)[1..] == a[1..] + b;
      RunAppend(Apply(w, a[0]), a[1..], b);
    }
  }

  /** A run is its beginning and one more operation. */
  lemma RunStep(w: World, ops: seq<Op>, k: nat)
    requires k < |ops|
    ensures Run(w, ops[..k + 1]) == Apply(Run(w, ops[..k]), ops[k])
  {
    assert ops[..k + 1] == ops[..k] + [ops[k]];
    RunAppend(w, ops[..k], [ops[k]]);
    RunOne(Run(w, ops[..k]), ops[k]);
  }

  /** The invariant of a reachable world: records are coherent and account for their failures, and a
      success always names a published run of its own case. */
  ghost predicate SoundIn(s: CaseState, c: CaseId, artifacts: set<Digest>) {
    && s.caseId == c && ValidCaseId(c) && Sound(s)
    && (s.state == Succeeded ==> Verifies(artifacts, c, s.runDigest.value))
  }

  /** The five forms of a sound record. */
  lemma SoundExactly(s: CaseState)
    ensures Sound(s) <==>
      && s.attempt <= 3
      && (s.state != Running ==> s.leaseOwner == None && s.leaseExpiresAt == None)
      && match s.state
         case Pending =>
           s.runDigest == None && |s.failureCodes| == s.attempt < 3
           && if s.attempt == 0 then s.attemptId == None && s.errorCode == None
              else s.attemptId.Some? && s.errorCode == Some(s.failureCodes[s.attempt - 1])
         case Running =>
           s.runDigest == None && s.errorCode == None && |s.failureCodes| == s.attempt - 1
           && s.attemptId.Some? && s.leaseOwner.Some? && s.leaseExpiresAt.Some? && s.updatedAt < s.leaseExpiresAt.value
         case Succeeded =>
           s.runDigest.Some? && s.errorCode == None && |s.failureCodes| == s.attempt - 1 && s.attemptId.Some?
         case Failed =>
           s.runDigest == None && |s.failureCodes| == s.attempt && s.attempt >= 1 && s.attemptId.Some?
           && s.errorCode == Some(s.failureCodes[s.attempt - 1])
  {
  }

  ghost predicate AllSound(w: World) {
    forall c :: c in w.cases ==> SoundIn(w.cases[c], c, w.artifacts)
  }

  /** Every operation keeps a record sound, and no operation ever builds an incoherent one: stamping a
      record can only fail because the clock went back. */
  lemma StepKeepsRecordSound(s: CaseState, artifacts: set<Digest>, op: Op)
    requires SoundIn(s, op.caseId, artifacts)
    ensures SoundIn(RecordAfter(s, artifacts, op), op.caseId, artifacts)
    ensures Fault(s, artifacts, op) != Some(IncoherentState)
  {
    hide Reaped, Claimed, Renewed, Succeed, Fail;
    if op.ReapOp? {
      ReapedIsSound(s, op.now);
    }
    if op.ClaimOp? {
      ClaimedIsSound(s, op.attemptId, op.owner, op.now);
    }
    if op.RenewOp? {
      RenewedIsSound(s, op.attemptId, op.owner, op.now);
    }
    if op.SucceedOp? {
      SucceedIsSound(s, op.attemptId, op.owner, op.digest, Verifies(artifacts, op.caseId, op.digest), op.now);
    }
    if op.FailOp? {
      FailIsSound(s, op.attemptId, op.owner, op.failure, op.now);
    }
  }

  lemma ReapedIsSound(s: CaseState, now: Time)
    requires Sound(s)
    ensures var o := Reaped(s, now);
      && Sound(o.record) && o.record.caseId == s.caseId && o.answer == Ok(o.record)
      && (o.record == s || o.record.state in {Pending, Failed})
  {
  }

  lemma ClaimedIsSound(s: CaseState, a: AttemptId, owner: Owner, now: Time)
    requires Sound(s)
    ensures var o := Claimed(s, a, owner, now);
      && Sound(o.record) && o.record.caseId == s.caseId && o.answer != Err(IncoherentState)
      && (o.record == s || o.record.state != Succeeded)
  {
    ReapedIsSound(s, now);
    hide Reaped;
  }

  lemma RenewedIsSound(s: CaseState, a: AttemptId, owner: Owner, now: Time)
    requires Sound(s)
    ensures var o := Renewed(s, a, owner, now);
      && Sound(o.record) && o.record.caseId == s.caseId && o.answer != Err(IncoherentState)
      && (o.record == s || o.record.state == Running)
  {
  }

  lemma SucceedIsSound(s: CaseState, a: AttemptId, owner: Owner, d: Digest, verified: bool, now: Time)
    requires Sound(s)
    ensures var o := Succeed(s, a, owner, d, verified, now);
      && Sound(o.record) && o.record.caseId == s.caseId && o.answer != Err(IncoherentState)
      && (o.record == s || (verified && o.record.runDigest == Some(d)))
  {
  }

  lemma FailIsSound(s: CaseState, a: AttemptId, owner: Owner, e: Failure, now: Time)
    requires Sound(s)
    ensures var o := Fail(s, a, owner, e, now);
      && Sound(o.record) && o.record.caseId == s.caseId && o.answer != Err(IncoherentState)
      && (o.record == s || o.record.state != Succeeded)
  {
  }

  lemma StepKeepsSound(w: World, op: Op)
    requires AllSound(w)
    ensures AllSound(Apply(w, op))
  {
    if WellNamed(op) && !op.PublishOp? && op.caseId in w.cases {
      StepKeepsRecordSound(w.cases[op.caseId], w.artifacts, op);
    }
  }

  /** Every record of every interleaving is sound. */
  lemma {:induction false} RunIsSound(w: World, ops: seq<Op>)
    requires AllSound(w)
    ensures AllSound(Run(w, ops))
    decreases |ops|
  {
    if ops != [] {
      StepKeepsSound(w, ops[0]);
      RunIsSound(Apply(w, ops[0]), ops[1..]);
    }
  }

  /** How a later record of a case relates to an earlier one. */
  ghost predicate Continues(s: CaseState, t: CaseState) {
    && s.caseId == t.caseId
    && s.attempt <= t.attempt && s.failureCodes <= t.failureCodes
    && s.updatedAt <= t.updatedAt && s.revision <= t.revision
    && (s.revision == t.revision ==> s == t)
    && (s.state in {Succeeded, Failed} ==> s == t)
  }

  lemma StepContinues(s: CaseState, artifacts: set<Digest>, op: Op)
    requires SoundIn(s, op.caseId, artifacts)
    ensures Continues(s, RecordAfter(s, artifacts, op))
  {
  }

  /** Over every interleaving, failure history only grows at its end, attempts and revisions never
      go back, and a terminal record, digest included, never changes again. */
  lemma {:induction false} RunContinues(w: World, ops: seq<Op>, c: CaseId)
    requires AllSound(w) && c in w.cases
    ensures c in Run(w, ops).cases && Continues(w.cases[c], Run(w, ops).cases[c])
    ensures w.artifacts <= Run(w, ops).artifacts
    decreases |ops|
  {
    if ops != [] {
      var w' := Apply(w, ops[0]);
      StepKeepsSound(w, ops[0]);
      if WellNamed(ops[0]) && !ops[0].PublishOp? && ops[0].caseId == c {
        StepContinues(w.cases[c], w.artifacts, ops[0]);
      }
      RunContinues(w', ops[1..], c);
    }
  }

  /** Whether an operation claims a case anew, rather than finding the same claim in place. */
  predicate Grants(w: World, op: Op, c: CaseId) {
    && op.ClaimOp? && op.caseId == c && WellNamed(op) && c in w.cases
    && var answer := Claimed(w.cases[c], op.attemptId, op.owner, op.now).answer;
       answer.Ok? && answer.value.Some? && answer.value.value != w.cases[c]
  }

  /** Number of claims granted on a case during a run. */
  function Claims(w: World, ops: seq<Op>, c: CaseId): nat
    decreases |ops|
  {
    if ops == [] then 0
    else (if Grants(w, ops[0], c) then 1 else 0) + Claims(Apply(w, ops[0]), ops[1..], c)
  }

  lemma StepCountsClaims(s: CaseState, artifacts: set<Digest>, op: Op)
    requires SoundIn(s, op.caseId, artifacts)
    ensures var granted := op.ClaimOp? && (var answer := Claimed(s, op.attemptId, op.owner, op.now).answer;
                                           answer.Ok? && answer.value.Some? && answer.value.value != s);
      RecordAfter(s, artifacts, op).attempt == s.attempt + if granted then 1 else 0
  {
  }

  /** The attempt number of a case counts the claims granted on it, so no run grants a fourth. */
  lemma {:induction false} AttemptCountsClaims(w: World, ops: seq<Op>, c: CaseId)
    requires AllSound(w) && c in Run(w, ops).cases
    ensures Run(w, ops).cases[c].attempt == (if c in w.cases then w.cases[c].attempt else 0) + Claims(w, ops, c)
    ensures Claims(w, ops, c) <= MAX_SWEEP_ATTEMPTS
    decreases |ops|
  {
    RunIsSound(w, ops);
    if ops != [] {
      var w' := Apply(w, ops[0]);
      StepKeepsSound(w, ops[0]);
      if c in w.cases {
        if WellNamed(ops[0]) && !ops[0].PublishOp? && ops[0].caseId == c {
          StepCountsClaims(w.cases[c], w.artifacts, ops[0]);
        }
      }
      AttemptCountsClaims(w', ops[1..], c);
    }
  }

  /** The operations of a run that concern one case. */
  function OnCase(ops: seq<Op>, c: CaseId): seq<Op> {
    if ops == [] then []
    else OnCase(ops[..|ops| - 1], c) + if ops[|ops| - 1].caseId == c then [ops[|ops| - 1]] else []
  }

  lemma OnCaseOne(ops: seq<Op>, op: Op, c: CaseId)
    ensures OnCase(ops + [op], c) == OnCase(ops, c) + if op.caseId == c then [op] else []
  {
    assert (ops + [op])[..|ops|] == ops;
  }

  lemma {:induction false} OnCaseAppend(a: seq<Op>, b: seq<Op>, c: CaseId)
    ensures OnCase(a + b, c) == OnCase(a, c) + OnCase(b, c)
    decreases |b|
  {
    if b == [] {
      assert a + b == a;
    } else {
      var n := |b| - 1;
      OnCaseAppend(a, b[..n], c);
      assert a + b == (a + b[..n]) + [b[n]];
      OnCaseOne(a + b[..n], b[n], c);
    }
  }

  /** Two worlds agree on one case: its record, and which of its runs are published. */
  ghost predicate SameCase(w: World, u: World, c: CaseId) {
    && (c in w.cases <==> c in u.cases) && (c in w.cases ==> w.cases[c] == u.cases[c])
    && forall d: Digest :: d.caseId == c ==> (d in w.artifacts <==> d in u.artifacts)
  }

  lemma OtherCaseStep(w: World, op: Op, c: CaseId)
    requires op.caseId != c
    ensures SameCase(Apply(w, op), w, c)
  {
    hide RecordAfter;
  }

  lemma OwnCaseStep(w: World, u: World, op: Op, c: CaseId)
    requires SameCase(w, u, c) && op.caseId == c
    ensures SameCase(Apply(w, op), Apply(u, op), c)
  {
    if op.SucceedOp? {
      assert Verifies(w.artifacts, c, op.digest) <==> Verifies(u.artifacts, c, op.digest);
    }
    hide Claimed, Renewed, Succeed, Fail, Reaped;
  }

  /** Cases do not interfere: what a run does to one case is what its operations on that case do alone, in any
      world that agrees on it. */
  lemma {:induction false} CaseRunsAlone(w: World, u: World, ops: seq<Op>, c: CaseId)
    requires SameCase(w, u, c)
    ensures SameCase(Run(w, ops), Run(u, OnCase(ops, c)), c)
    decreases |ops|
  {
    hide Apply, Run;
    if ops == [] {
      NoOperations(w);
      NoOperations(u);
    } else {
      var n := |ops| - 1;
      CaseRunsAlone(w, u, ops[..n], c);
      RunStep(w, ops, n);
      assert ops[..n + 1] == ops;
      var own := OnCase(ops[..n], c);
      if ops[n].caseId == c {
        OwnCaseStep(Run(w, ops[..n]), Run(u, own), ops[n], c);
        RunAppend(u, own, [ops[n]]);
        RunOne(Run(u, own), ops[n]);
      } else {
        OtherCaseStep(Run(w, ops[..n]), ops[n], c);
        assert own + [] == own;
      }
    }
  }
}
