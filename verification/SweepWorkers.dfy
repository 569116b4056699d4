/** Rounds whose workers run to their end. Any number of workers may be interleaved; each does the operations of the
    whole transaction on its own case, and that is all the round does. */
module SweepWorkers {
  import opened Collections
  import opened ResumePlans
  import opened SolveTransaction
  import opened SweepFencing
  import opened SweepOrchestrator
  import opened SweepRounds
  import opened SweepRuns
  import opened SweepState
  import opened Wrappers

  /** Among these operations, those on the case are one whole transaction, begun no earlier than the last change of its
      record and ended within the lease. */
  ghost predicate WorkedTo(w: World, ops: seq<Op>, q: SolveRequest, owner: Owner, outcome: SolverOutcome,
                           started: Time, ended: Time)
    requires q.caseId in w.cases
  {
    && w.cases[q.caseId].updatedAt <= started <= ended < started + LEASE_DURATION
    && OnCase(ops, q.caseId) == WorkerOps(q, owner, w.cases[q.caseId].attempt + 1, outcome, started, ended)
  }

  ghost predicate Worked(w: World, ops: seq<Op>, q: SolveRequest, owner: Owner)
    requires q.caseId in w.cases
  {
    exists outcome, started, ended :: WorkedTo(w, ops, q, owner, outcome, started, ended)
  }

  /** Every payload of a call has been worked, by its owner, and nothing else was done. */
  ghost predicate CallWorked(w: World, ops: seq<Op>, call: Call)
    requires |call.payloads| == |call.owners| && forall q :: q in call.payloads ==> q.caseId in w.cases
  {
    && (forall op :: op in ops ==> exists i :: 0 <= i < |call.payloads| && call.payloads[i].caseId == op.caseId)
    && forall i :: 0 <= i < |call.payloads| ==> Worked(w, ops, call.payloads[i], call.owners[i])
  }

  lemma {:induction false} AllOnCase(ops: seq<Op>, c: CaseId)
    requires forall op :: op in ops ==> op.caseId == c
    ensures OnCase(ops, c) == ops
    decreases |ops|
  {
    if ops == [] {
      assert OnCase(ops, c) == [];
    } else {
      var n := |ops| - 1;
      AllOnCase(ops[..n], c);
      assert ops[n].caseId == c;
      assert ops == ops[..n] + [ops[n]];
    }
  }

  /** A worker that does all its work the moment it can. */
  ghost predicate WorkedAtOnce(w: World, ops: seq<Op>, q: SolveRequest, owner: Owner, outcome: SolverOutcome)
    requires q.caseId in w.cases
  {
    WorkedTo(w, ops, q, owner, outcome, w.cases[q.caseId].updatedAt, w.cases[q.caseId].updatedAt)
  }

  lemma StillWorked(w: World, earlier: seq<Op>, more: seq<Op>, q: SolveRequest, owner: Owner, outcome: SolverOutcome)
    requires q.caseId in w.cases && WorkedAtOnce(w, earlier, q, owner, outcome) && Elsewhere(more, q.caseId)
    ensures WorkedAtOnce(w, earlier + more, q, owner, outcome)
  {
    hide OnCase, WorkerOps;
    OnCaseAppend(earlier, more, q.caseId);
    NoneOnCase(more, q.caseId);
  }

  lemma WorkedNext(w: World, earlier: seq<Op>, q: SolveRequest, owner: Owner, outcome: SolverOutcome)
        returns (own: seq<Op>)
    requires q.caseId in w.cases && Elsewhere(earlier, q.caseId)
    ensures WorkedAtOnce(w, earlier + own, q, owner, outcome) && forall op :: op in own ==> op.caseId == q.caseId
  {
    hide OnCase;
    var s := w.cases[q.caseId];
    own := WorkerOps(q, owner, s.attempt + 1, outcome, s.updatedAt, s.updatedAt);
    OwnOps(q, owner, s.attempt + 1, outcome, s.updatedAt);
    OnCaseAppend(earlier, own, q.caseId);
    NoneOnCase(earlier, q.caseId);
    AllOnCase(own, q.caseId);
    hide WorkerOps;
  }

  lemma {:induction false} WorkedInTurn(w: World, call: Call, outcomes: seq<SolverOutcome>, n: nat)
        returns (ops: seq<Op>)
    requires n <= |call.payloads| == |call.owners| == |outcomes|
    requires forall q :: q in call.payloads ==> q.caseId in w.cases
    requires forall i, j :: 0 <= i < j < |call.payloads| ==> call.payloads[i].caseId != call.payloads[j].caseId
    ensures forall op :: op in ops ==> exists i :: 0 <= i < n && call.payloads[i].caseId == op.caseId
    ensures forall i :: 0 <= i < n ==> WorkedAtOnce(w, ops, call.payloads[i], call.owners[i], outcomes[i])
    decreases n
  {
    hide WorkedAtOnce;
    ops := [];
    if n > 0 {
      var earlier := WorkedInTurn(w, call, outcomes, n - 1);
      var q := call.payloads[n - 1];
      var own := WorkedNext(w, earlier, q, call.owners[n - 1], outcomes[n - 1]);
      ops := earlier + own;
      forall i | 0 <= i < n - 1 ensures WorkedAtOnce(w, ops, call.payloads[i], call.owners[i], outcomes[i]) {
        StillWorked(w, earlier, own, call.payloads[i], call.owners[i], outcomes[i]);
      }
    }
  }

  /** Whatever the solver makes of each payload, a call can be worked: for instance by one worker after the other. */
  lemma CallCanBeWorked(w: World, call: Call, outcomes: seq<SolverOutcome>) returns (ops: seq<Op>)
    requires |call.payloads| == |call.owners| == |outcomes| && forall q :: q in call.payloads ==> q.caseId in w.cases
    requires forall i, j :: 0 <= i < j < |call.payloads| ==> call.payloads[i].caseId != call.payloads[j].caseId
    ensures CallWorked(w, ops, call)
    ensures forall i :: 0 <= i < |outcomes| ==> WorkedAtOnce(w, ops, call.payloads[i], call.owners[i], outcomes[i])
  {
    hide WorkedTo;
    ops := WorkedInTurn(w, call, outcomes, |outcomes|);
    forall i | 0 <= i < |call.payloads| ensures Worked(w, ops, call.payloads[i], call.owners[i]) {
      assert WorkedAtOnce(w, ops, call.payloads[i], call.owners[i], outcomes[i]);
    }
  }

  lemma OwnOps(q: SolveRequest, owner: Owner, attempt: nat, outcome: SolverOutcome, now: Time)
    ensures forall op :: op in WorkerOps(q, owner, attempt, outcome, now, now) ==> op.caseId == q.caseId
  {
  }

  lemma RunTwo(w: World, o0: Op, o1: Op)
    ensures Run(w, [o0, o1]) == Apply(Apply(w, o0), o1)
  {
    assert [o0, o1] == [o0] + [o1];
    RunAppend(w, [o0], [o1]);
    RunOne(w, o0);
    RunOne(Apply(w, o0), o1);
  }

  /** A fit payload, claimed alone, is granted. */
  lemma ClaimedAlone(w: World, q: SolveRequest, owner: Owner, started: Time)
    requires AllSound(w) && q.caseId in w.cases && Undisturbed(w, q, owner, Alone, started, started)
    ensures var w' := Run(w, [InitializeOp(q.caseId, started), ClaimOp(q.caseId, q.attemptId, owner, started)]);
      q.caseId in w'.cases && Granted(w.cases[q.caseId], w'.cases[q.caseId], q, owner, started)
  {
    hide Claimed, Granted, ValidOwner, ValidAttemptId, ValidCaseId, Sound;
    var s := w.cases[q.caseId];
    RunTwo(w, InitializeOp(q.caseId, started), ClaimOp(q.caseId, q.attemptId, owner, started));
    assert SoundIn(s, q.caseId, w.artifacts);
    assert w.cases[q.caseId := s] == w.cases;
    ClaimGrants(s, q, owner, started);
  }

  /** And its verdict is accepted. */
  lemma VerdictAlone(w: World, s: CaseState, q: SolveRequest, owner: Owner, outcome: SolverOutcome, started: Time,
                     ended: Time)
    requires q.caseId in w.cases && Granted(s, w.cases[q.caseId], q, owner, started)
    requires WellNamed(ClaimOp(q.caseId, q.attemptId, owner, started)) && started <= ended < started + LEASE_DURATION
    ensures var w' := Run(w, VerdictOps(q, owner, s.attempt + 1, outcome, ended));
      q.caseId in w'.cases && w'.cases[q.caseId].state != Running && w'.cases[q.caseId].attempt == s.attempt + 1
  {
    hide Succeed, Fail, ValidOwner, ValidAttemptId, ValidCaseId, Sound;
    UndisturbedEnding(s, w.cases[q.caseId], q, owner, outcome, started, ended);
    match Ending(q, s.attempt + 1, outcome) {
      case None =>
        var d := Digest(q.caseId, outcome.payload);
        RunTwo(w, PublishOp(q.caseId, outcome.payload), SucceedOp(q.caseId, q.attemptId, owner, d, ended));
        assert Verifies(w.artifacts + {d}, q.caseId, d);
      case Some(e) =>
        RunOne(w, FailOp(q.caseId, q.attemptId, owner, e, ended));
    }
  }

  /** A worked case has one more attempt behind it and nobody running, whatever the other workers did. */
  lemma WorkEnds(w: World, ops: seq<Op>, q: SolveRequest, owner: Owner)
    requires AllSound(w) && FitToRun(w, q, owner) && Worked(w, ops, q, owner)
    ensures var w' := Run(w, ops);
      && q.caseId in w'.cases && w'.cases[q.caseId].state != Running
      && w'.cases[q.caseId].attempt == w.cases[q.caseId].attempt + 1
  {
    hide AllSound, Run, OnCase, VerdictOps, Granted, Claimable;
    var outcome, started, ended :| WorkedTo(w, ops, q, owner, outcome, started, ended);
    var s, c := w.cases[q.caseId], q.caseId;
    assert Undisturbed(w, q, owner, Alone, started, ended);
    CaseRunsAlone(w, w, ops, c);
    var first := [InitializeOp(c, started), ClaimOp(c, q.attemptId, owner, started)];
    RunAppend(w, first, VerdictOps(q, owner, s.attempt + 1, outcome, ended));
    ClaimedAlone(w, q, owner, started);
    VerdictAlone(Run(w, first), s, q, owner, outcome, started, ended);
  }

  lemma {:induction false} OnCaseHolds(ops: seq<Op>, op: Op)
    ensures op in ops ==> op in OnCase(ops, op.caseId)
    decreases |ops|
  {
    if ops != [] {
      var n := |ops| - 1;
      OnCaseHolds(ops[..n], op);
      assert ops == ops[..n] + [ops[n]];
    }
  }

  /** Every claim of a worker carries the token of its payload. */
  lemma WorkerClaims(w: World, ops: seq<Op>, q: SolveRequest, owner: Owner, op: Op)
    requires q.caseId in w.cases && Worked(w, ops, q, owner) && op in ops && op.ClaimOp? && op.caseId == q.caseId
    ensures op.attemptId == q.attemptId
  {
    OnCaseHolds(ops, op);
    hide OnCase;
    var outcome, started, ended :| WorkedTo(w, ops, q, owner, outcome, started, ended);
  }

  /** A worked call ends every one of its cases, and its claims carry its tokens. */
  lemma CallEnds(w: World, ops: seq<Op>, call: Call, ids: seq<CaseId>)
    requires AllSound(w) && CallFits(w, call) && (forall q :: q in call.payloads ==> q.caseId in w.cases)
    requires CallWorked(w, ops, call) && |call.payloads| == |ids|
    requires forall i :: 0 <= i < |ids| ==> call.payloads[i].caseId == ids[i]
    ensures EachEnds(w, Run(w, ops), ids) && CarriesTokens(ops, call)
  {
    hide AllSound, Run, FitToRun, Worked;
    forall c | c in ids
      ensures c in w.cases && c in Run(w, ops).cases && Run(w, ops).cases[c].state != Running
        && Run(w, ops).cases[c].attempt > w.cases[c].attempt
    {
      var i :| 0 <= i < |ids| && ids[i] == c;
      assert call.payloads[i] in call.payloads;
      WorkEnds(w, ops, call.payloads[i], call.owners[i]);
    }
    forall op | op in ops && op.ClaimOp?
      ensures exists i ::
        0 <= i < |call.payloads| && call.payloads[i].caseId == op.caseId && call.payloads[i].attemptId == op.attemptId
    {
      var i :| 0 <= i < |call.payloads| && call.payloads[i].caseId == op.caseId;
      WorkerClaims(w, ops, call.payloads[i], call.owners[i], op);
    }
  }

  /** Every round does exactly the work that it submitted. */
  ghost predicate RoundsWorked(w: World, ids: seq<CaseId>, during: seq<seq<Op>>, clock: seq<Time>, tag: string,
                               forced: Option<CaseId>)
    requires (forall c :: c in ids ==> c in w.cases) && AllSound(w) && |clock| >= |during|
    decreases |during|
  {
    if during == [] || Select(ids, w.cases, Pending) == [] then true
    else
      RoundKeepsCases(w, during[0], ids, clock[0]);
      SelectMember(ids, w.cases, Pending);
      CallCovers(Select(ids, w.cases, Pending), w.cases, tag, forced);
      && CallWorked(w, during[0], CallFor(Select(ids, w.cases, Pending), w.cases, tag, forced))
      && RoundsWorked(ReapedWorld(Run(w, during[0]), ids, clock[0]), ids, during[1..], clock[1..], tag, None)
  }

  /** While tokens track counters, rounds that do exactly the work they submitted meet both hypotheses about workers:
      their claims carry the tokens submitted, and every submitted case ends. */
  lemma {:induction false} WorkedRoundsEnd(w: World, ids: seq<CaseId>, during: seq<seq<Op>>, clock: seq<Time>,
                                           tag: string, forced: Option<CaseId>)
    requires (forall c :: c in ids ==> c in w.cases) && AllSound(w) && AllTrack(w) && ShortDigest(tag)
    requires |during| <= |clock| && RoundsWorked(w, ids, during, clock, tag, forced)
    ensures RoundsEnd(w, ids, during, clock)
    ensures RoundsCarryTokens(during, Calls(w, ids, during, clock, tag, forced))
    decreases |during|
  {
    hide Run, AllSound, AllTrack, CarriesTokens, CallFits, CallWorked, EachEnds, ReapedWorld, ShortDigest,
         CarriesNextTokens, CallFor, Select;
    if during != [] && Select(ids, w.cases, Pending) != [] {
      var claimable := Select(ids, w.cases, Pending);
      SelectMember(ids, w.cases, Pending);
      RoundKeepsCases(w, during[0], ids, clock[0]);
      var call := CallFor(claimable, w.cases, tag, forced);
      CallCovers(claimable, w.cases, tag, forced);
      InputsAreFresh(w, claimable, tag, forced, call);
      CallEnds(w, during[0], call, claimable);
      CallTokensAreNext(w, claimable, tag, forced, during[0]);
      NextTokensTrack(w, during[0]);
      ReapedWorldTracks(Run(w, during[0]), ids, clock[0]);
      var next := ReapedWorld(Run(w, during[0]), ids, clock[0]);
      WorkedRoundsEnd(next, ids, during[1..], clock[1..], tag, None);
      OneMoreRound(during, call, Calls(next, ids, during[1..], clock[1..], tag, None));
    }
  }

  lemma OneMoreRound(during: seq<seq<Op>>, call: Call, calls: seq<Call>)
    requires during != [] && CarriesTokens(during[0], call) && RoundsCarryTokens(during[1..], calls)
    ensures RoundsCarryTokens(during, [call] + calls)
  {
    hide CarriesTokens;
    forall k | 0 <= k < |calls| + 1 ensures CarriesTokens(during[k], ([call] + calls)[k]) {
      if k > 0 {
        assert CarriesTokens(during[1..][k - 1], calls[k - 1]);
      }
    }
  }

  /** A sweep whose rounds do exactly the work they submit, from a volume whose tokens track and in which no expected
      case is active at the first plan: its workers end and claim with its tokens, which is all that the whole sweep
      asks of them to finish with every case succeeded or failed and every token in number. */
  lemma WorkedSweepEnds(w: World, request: SweepRequest, during: seq<seq<Op>>, started: Time, clock: seq<Time>,
                        forced: Option<CaseId>)
    requires AllSound(w) && AllTrack(w) && ValidRequest(request)
    requires |during| == MAX_SWEEP_ATTEMPTS && |clock| == 2 + MAX_SWEEP_ATTEMPTS
    requires forall c :: c in Sorted(request.points) ==> c in Prepared(w, request.points, started).cases
    requires var first, ids := Planned(w, request.points, started, clock[0]), Sorted(request.points);
      && (forall c :: c in ids ==> c in first.cases) && AllSound(first) && Settling(first, ids, 0)
      && RoundsWorked(first, ids, during, clock[1..1 + MAX_SWEEP_ATTEMPTS], request.tag, forced)
    ensures WorkersEnd(w, request.points, during, started, clock)
    ensures var first, ids := Planned(w, request.points, started, clock[0]), Sorted(request.points);
      RoundsCarryTokens(during, Calls(first, ids, during, clock[1..1 + MAX_SWEEP_ATTEMPTS], request.tag, forced))
  {
    hide AllTrack, AllSound, Prepared, Sorted, ReapedWorld, Calls, RoundsWorked, RoundsEnd, RoundsCarryTokens,
         ShortDigest, Distinct;
    var first, ids := Planned(w, request.points, started, clock[0]), Sorted(request.points);
    PreparedTracks(w, request.points, started);
    ReapedWorldTracks(Prepared(w, request.points, started), ids, clock[0]);
    WorkedRoundsEnd(first, ids, during, clock[1..1 + MAX_SWEEP_ATTEMPTS], request.tag, forced);
  }
}
