/** The orchestrator of a sweep: plan, submit up to three rounds of work, check that no success is ever
    lost or changed, and summarize. Workers act only while a submission is running. */
module SweepOrchestrator {
  import opened Collections
  import opened ResumePlans
  import opened SolveTransaction
  import opened SweepFencing
  import opened SweepRounds
  import opened SweepRuns
  import opened SweepState
  import opened SweepSummaries
  import opened Wrappers

  /** A sweep to run: its design, its expected cases, the short digest that names its workers, and
      whether to force one smoke failure. */
  datatype SweepRequest = SweepRequest(kind: DesignKind, points: seq<CaseId>, tag: string, forceFailureOnce: bool)

  /** What the request model and the design it names guarantee. */
  ghost predicate ValidRequest(request: SweepRequest) {
    && |request.points| == ExpectedCount(request.kind) && Distinct(request.points)
    && (forall c :: c in request.points ==> ValidCaseId(c))
    && ShortDigest(request.tag) && (request.forceFailureOnce ==> request.kind == Smoke)
  }

  method InitializeAll(v: Volume, points: seq<CaseId>, now: Time)
    requires v.Valid() && forall c :: c in points ==> ValidCaseId(c)
    modifies v, v.store
    ensures v.Valid() && old(v.log) <= v.log && v.Contents() == Prepared(old(v.Contents()), points, now)
    ensures forall c :: c in points ==> c in v.store.cases
  {
    hide AllSound, Run, ValidCaseId;
    for k := 0 to |points|
      invariant v.Valid() && old(v.log) <= v.log && v.Contents() == Prepared(old(v.Contents()), points[..k], now)
      invariant forall c :: c in points[..k] ==> c in v.store.cases
    {
      assert points[..k + 1][..k] == points[..k];
      ghost var cases := v.store.cases;
      var state := v.Initialize(points[k], now);
      assert forall c :: c in cases ==> c in v.store.cases;
    }
    assert points[..|points|] == points;
  }

  function CaseIds(runs: seq<VerifiedCaseRun>): seq<CaseId> {
    if runs == [] then [] else CaseIds(runs[..|runs| - 1]) + [runs[|runs| - 1].caseId]
  }

  lemma {:induction false} CaseIdsSelected(ids: seq<CaseId>, cases: map<CaseId, CaseState>)
    requires Plannable(ids, cases)
    ensures CaseIds(SucceededRuns(ids, cases)) == Select(ids, cases, Succeeded)
    decreases |ids|
  {
    if ids != [] {
      var n := |ids| - 1;
      CaseIdsSelected(ids[..n], cases);
      var runs, earlier := SucceededRuns(ids, cases), SucceededRuns(ids[..n], cases);
      if cases[ids[n]].state == Succeeded {
        assert runs[..|runs| - 1] == earlier;
      } else {
        assert runs == earlier;
      }
    }
  }

  /** The members of a set of cases, in the order of a list that covers them. */
  function InOrder(ids: seq<CaseId>, chosen: set<CaseId>): seq<CaseId> {
    if ids == [] then []
    else InOrder(ids[..|ids| - 1], chosen) + if ids[|ids| - 1] in chosen then [ids[|ids| - 1]] else []
  }

  lemma {:induction false} InOrderMeans(ids: seq<CaseId>, chosen: set<CaseId>)
    requires Distinct(ids)
    ensures forall c :: c in InOrder(ids, chosen) <==> c in ids && c in chosen
    ensures Distinct(InOrder(ids, chosen))
    decreases |ids|
  {
    if ids != [] {
      var n := |ids| - 1;
      InOrderMeans(ids[..n], chosen);
      assert ids == ids[..n] + [ids[n]];
      assert ids[n] !in ids[..n];
    }
  }

  lemma {:induction false} InOrderAscending(ids: seq<CaseId>, chosen: set<CaseId>)
    requires Ascending(ids)
    ensures Ascending(InOrder(ids, chosen)) && forall c :: c in InOrder(ids, chosen) ==> c in ids
    decreases |ids|
  {
    if ids != [] {
      var n := |ids| - 1;
      InOrderAscending(ids[..n], chosen);
      forall c | c in ids[..n] ensures Precedes(c, ids[n]) {
      }
    }
  }

  datatype OrchestrationError = BuildMismatch | Planning(error: PlanError) | DigestChanged | SummaryRejected

  lemma Later(origin: World, log: seq<Op>, log': seq<Op>)
    requires log <= log'
    ensures Run(origin, log') == Run(Run(origin, log), log'[|log|..])
  {
    RunAppend(origin, log, log'[|log|..]);
    assert log + log'[|log|..] == log';
  }

  /** Two plans of one volume, taken in this order, agree on the successes of the first. */
  lemma PlansPreserve(origin: World, log: seq<Op>, log': seq<Op>, ids: seq<CaseId>)
    requires log <= log' && AllSound(Run(origin, log)) && forall c :: c in ids ==> c in Run(origin, log).cases
    ensures Plannable(ids, Run(origin, log).cases) && Plannable(ids, Run(origin, log').cases)
    ensures PreservesSuccesses(PlanOf(ids, Run(origin, log).cases), PlanOf(ids, Run(origin, log').cases))
  {
    hide Run, AllSound;
    Later(origin, log, log');
    SuccessesPreserved(Run(origin, log), log'[|log|..], ids);
  }

  lemma PlanSelects(ids: seq<CaseId>, cases: map<CaseId, CaseState>)
    requires Plannable(ids, cases)
    ensures PlanOf(ids, cases).claimable == Select(ids, cases, Pending)
  {
  }

  lemma ClaimableSelected(ids: seq<CaseId>, cases: map<CaseId, CaseState>)
    requires Plannable(ids, cases) && Distinct(ids)
    ensures PlanOf(ids, cases).claimable == Select(ids, cases, Pending)
    ensures Distinct(PlanOf(ids, cases).claimable) && forall c :: c in PlanOf(ids, cases).claimable ==> c in ids
  {
    SelectMeans(ids, cases, Pending);
  }

  /** One round: submit what is claimable, let the workers run, and plan again. */
  method RunRound(v: Volume, request: SweepRequest, plan: ResumePlan, forced: Option<CaseId>, during: seq<Op>,
                  now: Time)
      returns (call: Call, next: ResumePlan)
    requires v.Valid() && ValidRequest(request)
    requires forall c :: c in Sorted(request.points) ==> c in v.store.cases
    requires Plannable(Sorted(request.points), v.store.cases) && plan == PlanOf(Sorted(request.points), v.store.cases)
    modifies v, v.store
    ensures v.Valid() && old(v.log) <= v.log
    ensures forall c :: c in Sorted(request.points) ==> c in v.store.cases && c in Run(old(v.Contents()), during).cases
    ensures v.Contents() == ReapedWorld(Run(old(v.Contents()), during), Sorted(request.points), now)
    ensures (forall c :: c in plan.claimable ==> c in old(v.store.cases))
    ensures call == CallFor(plan.claimable, old(v.store.cases), request.tag, forced)
    ensures Plannable(Sorted(request.points), v.store.cases) && next == PlanOf(Sorted(request.points), v.store.cases)
    ensures PreservesSuccesses(plan, next)
  {
    hide Run, AllSound, Sorted, PlanOf, ReapedWorld, Plannable, PreservesSuccesses, IsCallFor, CallFits;
    ghost var ids := Sorted(request.points);
    SortedAscending(request.points);
    ghost var w, log := v.Contents(), v.log;
    ClaimableSelected(ids, v.store.cases);
    call := RoundInputs(v, request.tag, plan.claimable, forced);
    OnlyCallFor(call, plan.claimable, w.cases, request.tag, forced);
    RoundKeepsCases(w, during, ids, now);
    v.Interference(during);
    var planned := BuildResumePlan(v, request.points, now);
    PlansPreserve(v.origin, log, v.log, ids);
    next := planned.value;
  }

  /** Submit up to three rounds, planning again after each; `preserved` tells whether every plan kept the
      successes of the one before, which it always does. */
  method Rounds(v: Volume, request: SweepRequest, first: ResumePlan, forced: Option<CaseId>, during: seq<seq<Op>>,
                clock: seq<Time>)
      returns (plan: ResumePlan, attempts: nat, later: set<CaseId>, preserved: bool, calls: seq<Call>)
    requires v.Valid() && ValidRequest(request) && |during| == MAX_SWEEP_ATTEMPTS && |clock| == MAX_SWEEP_ATTEMPTS
    requires forall c :: c in Sorted(request.points) ==> c in v.store.cases
    requires Plannable(Sorted(request.points), v.store.cases) && first == PlanOf(Sorted(request.points), v.store.cases)
    modifies v, v.store
    ensures v.Valid() && old(v.log) <= v.log
    ensures forall c :: c in Sorted(request.points) ==> c in old(v.store.cases) && c in v.store.cases
    ensures v.Contents() == AfterRounds(old(v.Contents()), Sorted(request.points), during, clock)
    ensures Plannable(Sorted(request.points), v.store.cases) && plan == PlanOf(Sorted(request.points), v.store.cases)
    ensures preserved
    ensures calls == Calls(old(v.Contents()), Sorted(request.points), during, clock, request.tag, forced)
    ensures attempts == TotalPayloads(calls) && later == LaterCases(calls)
  {
    hide Run, AllSound, Sorted, PlanOf, ReapedWorld, Plannable, AfterRounds, PreservesSuccesses, CallFor, IsCallFor,
         Calls, TotalPayloads, LaterCases, Distinct;
    ghost var ids := Sorted(request.points);
    ghost var w0 := v.Contents();
    plan, attempts, later, preserved, calls := first, 0, {}, true, [];
    NoCalls();
    var round := 0;
    assert during[0..] == during && clock[0..] == clock;
    while round < MAX_SWEEP_ATTEMPTS && preserved && plan.claimable != []
      invariant 0 <= round <= MAX_SWEEP_ATTEMPTS && preserved && |calls| == round
      invariant v.Valid() && old(v.log) <= v.log
      invariant forall c :: c in ids ==> c in v.store.cases
      invariant Plannable(ids, v.store.cases) && plan == PlanOf(ids, v.store.cases)
      invariant AfterRounds(w0, ids, during, clock) == AfterRounds(v.Contents(), ids, during[round..], clock[round..])
      invariant Calls(w0, ids, during, clock, request.tag, forced)
        == calls + Calls(v.Contents(), ids, during[round..], clock[round..], request.tag, ForcedIn(round, forced))
      invariant attempts == TotalPayloads(calls) && later == LaterCases(calls)
    {
      ghost var w := v.Contents();
      if round > 0 {
        later := later + set c | c in plan.claimable;
      }
      PlanSelects(ids, w.cases);
      AfterRoundsStep(w, ids, during, clock, round);
      CallsStep(w, ids, during, clock, round, request.tag, ForcedIn(round, forced));
      var call, next := RunRound(v, request, plan, ForcedIn(round, forced), during[round], clock[round]);
      CallCovers(plan.claimable, w.cases, request.tag, ForcedIn(round, forced));
      CallsExtended(calls, call, plan.claimable);
      attempts := attempts + |call.payloads|;
      preserved := PreservesSuccesses(plan, next);
      plan := next;
      calls := calls + [call];
      round := round + 1;
    }
    PlanSelects(ids, v.store.cases);
    AfterRoundsDone(v.Contents(), ids, during, clock, round);
    assert calls + [] == calls;
  }

  /** The planned world the rounds start from. */
  ghost function Planned(w: World, points: seq<CaseId>, started: Time, planned: Time): World
    requires forall c :: c in Sorted(points) ==> c in Prepared(w, points, started).cases
  {
    ReapedWorld(Prepared(w, points, started), Sorted(points), planned)
  }

  /** The hypotheses under which a sweep runs dry: no case is active when the first plan is made, and
      every submitted worker ends durably while its round is being submitted. */
  ghost predicate WorkersEnd(w: World, points: seq<CaseId>, during: seq<seq<Op>>, started: Time, clock: seq<Time>)
    requires |clock| == 2 + |during|
  {
    && (forall c :: c in Sorted(points) ==> c in Prepared(w, points, started).cases)
    && AllSound(Planned(w, points, started, clock[0]))
    && Settling(Planned(w, points, started, clock[0]), Sorted(points), 0)
    && RoundsEnd(Planned(w, points, started, clock[0]), Sorted(points), during, clock[1..1 + |during|])
  }

  /** Initialize every case and make the first plan. */
  method Prepare(v: Volume, request: SweepRequest, started: Time, planned: Time) returns (plan: ResumePlan)
    requires v.Valid() && ValidRequest(request)
    modifies v, v.store
    ensures v.Valid() && old(v.log) <= v.log
    ensures forall c :: c in Sorted(request.points) ==>
      c in v.store.cases && c in Prepared(old(v.Contents()), request.points, started).cases
    ensures v.Contents() == Planned(old(v.Contents()), request.points, started, planned)
    ensures Plannable(Sorted(request.points), v.store.cases) && plan == PlanOf(Sorted(request.points), v.store.cases)
  {
    hide Run, AllSound, Prepared, ReapedWorld, PlanOf, Plannable, Sorted, Coherent;
    SortedAscending(request.points);
    InitializeAll(v, request.points, started);
    var built := BuildResumePlan(v, request.points, planned);
    plan := built.value;
  }

  /** The references of a plan are exactly the durable runs of its cases. */
  lemma ReferencesDurable(w: World, ids: seq<CaseId>)
    requires AllSound(w) && (forall c :: c in ids ==> c in w.cases) && Plannable(ids, w.cases)
    ensures forall d :: d in Digests(SucceededRuns(ids, w.cases)) <==> exists c :: c in ids && Durable(w, c, d)
  {
    var runs := SucceededRuns(ids, w.cases);
    RunMapMeans(ids, w.cases);
    SucceededRunsSelected(ids, w.cases);
    SelectMember(ids, w.cases, Succeeded);
    forall d | d in Digests(runs) ensures exists c :: c in ids && Durable(w, c, d) {
      var i :| 0 <= i < |runs| && Digests(runs)[i] == d;
      VolumeRecord(w, runs[i].caseId);
      assert Select(ids, w.cases, Succeeded)[i] in Select(ids, w.cases, Succeeded);
      assert Durable(w, runs[i].caseId, d);
    }
    forall d, c | c in ids && Durable(w, c, d) ensures d in Digests(runs) {
      assert c in Select(ids, w.cases, Succeeded);
      var i :| 0 <= i < |runs| && Select(ids, w.cases, Succeeded)[i] == c;
      assert Digests(runs)[i] == d;
    }
  }

  /** When every case is terminal, nothing counts as pending or running. */
  lemma {:induction false} TerminalCounts(points: seq<CaseId>, cases: map<CaseId, CaseState>)
    requires forall c :: c in points ==> c in cases && cases[c].state in {Succeeded, Failed}
    ensures CountState(States(points, cases), Pending) == 0 && CountState(States(points, cases), Running) == 0
    decreases |points|
  {
    if points != [] {
      var n := |points| - 1;
      TerminalCounts(points[..n], cases);
      assert States(points, cases)[..n] == States(points[..n], cases);
    }
  }

  /** Reaping leaves a terminal record alone. */
  lemma TerminalStays(w: World, ids: seq<CaseId>, now: Time)
    requires (forall c :: c in ids ==> c in w.cases && w.cases[c].state in {Succeeded, Failed}) && Distinct(ids)
    ensures forall c :: c in ids ==>
      c in ReapedWorld(w, ids, now).cases && ReapedWorld(w, ids, now).cases[c].state in {Succeeded, Failed}
  {
    ReapedAllMeans(w.cases, ids, now);
  }

  /** What a summary made from one settled world says. */
  ghost predicate TrueSummary(w: World, points: seq<CaseId>, s: SweepSummary) {
    && (forall c :: c in points ==> c in w.cases)
    && Accepted(s)
    && (forall d :: d in s.references <==> exists c :: c in points && Durable(w, c, d)) && ByCase(s.references)
    && s.pendingCount == |Select(points, w.cases, Pending)| && s.runningCount == |Select(points, w.cases, Running)|
    && s.succeededCount == |Select(points, w.cases, Succeeded)| && s.failedCount == |Select(points, w.cases, Failed)|
    && s.caseCount == |points| && s.claimedAttemptCount == ClaimedAttempts(States(points, w.cases))
    && s.retryCount == Retries(States(points, w.cases))
    && s.failureCounts == FailureCounts(States(points, w.cases))
    && (s.finalSucceeded ==> |s.failureCounts| == s.retryCount)
  }

  lemma SummaryIsTrue(w: World, kind: DesignKind, points: seq<CaseId>, initial: seq<CaseId>, resumed: seq<CaseId>,
                      skipped: seq<CaseId>, attempts: nat, dataset: Dataset)
    requires AllSound(w) && (forall c :: c in points ==> c in w.cases) && Distinct(points)
      && |points| == ExpectedCount(kind)
    requires !HasDuplicates(initial) && !HasDuplicates(resumed) && !HasDuplicates(skipped)
    requires dataset.reference == DatasetArtifact && Plannable(Sorted(points), w.cases)
    ensures TrueSummary(w, points, Summarize(kind, PlanOf(Sorted(points), w.cases), States(points, w.cases),
                                             initial, resumed, skipped, attempts, dataset))
  {
    hide Run, AllSound, Sorted, Durable, States, CountState, FailureCounts, Retries, ClaimedAttempts, InOrder,
         HasDuplicates, Digests, SucceededRuns, Select, Plannable;
    NoOperations(w);
    SummaryAcceptedExactly(w, [], kind, points, initial, resumed, skipped, attempts, dataset);
    SortedAscending(points);
    ReferencesDurable(w, Sorted(points));
    ReferencesOrdered(w, Sorted(points));
    forall c | c in points ensures Sound(w.cases[c]) {
      SoundRecord(w, c);
    }
    AlwaysAccepted(points, w.cases);
    StatesCount(points, w.cases, Pending);
    StatesCount(points, w.cases, Running);
    StatesCount(points, w.cases, Succeeded);
    StatesCount(points, w.cases, Failed);
  }

  lemma NoDuplicates<T>(s: seq<T>)
    ensures Distinct(s) <==> !HasDuplicates(s)
  {
  }

  lemma SoundRecord(w: World, c: CaseId)
    requires AllSound(w) && c in w.cases
    ensures Sound(w.cases[c])
  {
  }

  /** Plan once more, check the successes, and summarize. */
  method Conclude(v: Volume, request: SweepRequest, last: ResumePlan, initial: seq<CaseId>, resumed: set<CaseId>,
                  skipped: seq<CaseId>, attempts: nat, now: Time, dataset: Dataset)
        returns (r: Result<SweepSummary, OrchestrationError>)
    requires v.Valid() && ValidRequest(request) && dataset.reference == DatasetArtifact
    requires forall c :: c in Sorted(request.points) ==> c in v.store.cases
    requires Plannable(Sorted(request.points), v.store.cases) && last == PlanOf(Sorted(request.points), v.store.cases)
    requires !HasDuplicates(initial) && !HasDuplicates(skipped)
    modifies v, v.store
    ensures v.Valid() && old(v.log) <= v.log
    ensures forall c :: c in Sorted(request.points) ==> c in old(v.store.cases)
    ensures v.Contents() == ReapedWorld(old(v.Contents()), Sorted(request.points), now)
    ensures Plannable(Sorted(request.points), v.store.cases) && forall c :: c in request.points ==> c in v.store.cases
    ensures r == Ok(Summarize(request.kind, PlanOf(Sorted(request.points), v.store.cases),
                              States(request.points, v.store.cases), initial,
                              InOrder(Sorted(request.points), resumed), skipped, attempts, dataset))
    ensures TrueSummary(v.Contents(), request.points, r.value)
  {
    hide Run, AllSound, Sorted, PlanOf, ReapedWorld, Plannable, PreservesSuccesses, Accepted, Durable, States,
         CountState, FailureCounts, Retries, ClaimedAttempts, InOrder, HasDuplicates, Digests, SucceededRuns,
         Summarize;
    ghost var ids := Sorted(request.points);
    SortedAscending(request.points);
    ghost var log := v.log;
    var finished := BuildResumePlan(v, request.points, now);
    PlansPreserve(v.origin, log, v.log, ids);
    InOrderMeans(ids, resumed);
    NoDuplicates(InOrder(ids, resumed));
    SummaryIsTrue(v.Contents(), request.kind, request.points, initial, InOrder(ids, resumed), skipped, attempts,
                  dataset);
    var preserved := PreservesSuccesses(last, finished.value);
    var states := States(request.points, v.store.cases);
    var summary := Summarize(request.kind, finished.value, states, initial, InOrder(Sorted(request.points), resumed),
                             skipped, attempts, dataset);
    r := if !preserved then Err(DigestChanged) else if !Accepted(summary) then Err(SummaryRejected) else Ok(summary);
  }

  /** The cases a sweep resumes: those it finds already attempted, and those it submits again. */
  ghost function Resumed(w: World, ids: seq<CaseId>, calls: seq<Call>): set<CaseId>
    requires forall c :: c in ids ==> c in w.cases
  {
    (set c | c in ids && w.cases[c].state == Pending && w.cases[c].attempt > 0) + LaterCases(calls)
  }

  function Forced(request: SweepRequest, initial: seq<CaseId>): Option<CaseId>
    requires request.points != []
  {
    if request.forceFailureOnce && request.points[0] in initial then Some(request.points[0]) else None
  }

  /** What a sweep reports about its own course, given the world it planned from and the calls it made. */
  ghost predicate TellsCourse(w: World, request: SweepRequest, calls: seq<Call>, s: SweepSummary)
    requires forall c :: c in Sorted(request.points) ==> c in w.cases
  {
    var ids := Sorted(request.points);
    && s.initial == Select(ids, w.cases, Pending)
    && s.skipped == Sorted(Select(ids, w.cases, Succeeded))
    && s.resumed == InOrder(ids, Resumed(w, ids, calls))
    && s.attemptCount == TotalPayloads(calls)
    && Ascending(s.initial) && Ascending(s.skipped) && Ascending(s.resumed)
  }

  /** A failure is forced on the first case of the design if the request says so and the sweep finds it pending, on
      its first submission, and nowhere else. */
  ghost predicate ForcedOnce(request: SweepRequest, w: World, calls: seq<Call>)
    requires request.points != []
  {
    forall k, i :: 0 <= k < |calls| && 0 <= i < |calls[k].payloads| ==>
      (calls[k].payloads[i].forceRetryableFailure <==>
        && k == 0 && request.forceFailureOnce && calls[k].payloads[i].caseId == request.points[0]
        && request.points[0] in w.cases && w.cases[request.points[0]].state == Pending)
  }

  /** What is forced, from the list of cases that the sweep starts with. */
  lemma ForcedAsAsked(request: SweepRequest, w: World, calls: seq<Call>, initial: seq<CaseId>)
    requires request.points != [] && Distinct(request.points)
    requires (forall c :: c in Sorted(request.points) ==> c in w.cases)
    requires initial == Select(Sorted(request.points), w.cases, Pending) && ForceOnly(calls, Forced(request, initial))
    ensures ForcedOnce(request, w, calls)
  {
    hide Sorted, Select;
    SortedAscending(request.points);
    SelectMember(Sorted(request.points), w.cases, Pending);
    assert request.points[0] in request.points;
  }

  /** The calls a sweep made are those of its rounds, from the world that it planned in, and it tells its course as
      it was. */
  ghost predicate WentAsTold(w: World, request: SweepRequest, during: seq<seq<Op>>, started: Time, clock: seq<Time>,
                             calls: seq<Call>, s: SweepSummary)
    requires |clock| == 2 + |during| && request.points != []
  {
    var ids := Sorted(request.points);
    && (forall c :: c in ids ==> c in Prepared(w, request.points, started).cases)
    && var first := Planned(w, request.points, started, clock[0]);
    && (forall c :: c in ids ==> c in first.cases) && AllSound(first)
    && calls == Calls(first, ids, during, clock[1..1 + |during|], request.tag, Forced(request, s.initial))
    && TellsCourse(first, request, calls, s) && ForcedOnce(request, first, calls)
  }

  /** Every call was fit to run in the world that it was made from, and every claim was in number. */
  ghost predicate InputsFitted(w: World, request: SweepRequest, during: seq<seq<Op>>, started: Time, clock: seq<Time>,
                               calls: seq<Call>)
    requires |clock| == 2 + |during| && |calls| <= |during|
  {
    var ids := Sorted(request.points);
    && (forall c :: c in ids ==> c in Prepared(w, request.points, started).cases)
    && var first := Planned(w, request.points, started, clock[0]);
    && (forall c :: c in ids ==> c in first.cases) && AllSound(first)
    && EachCallFits(first, ids, during, clock[1..1 + |during|], calls)
  }

  /** The world of the last plan. */
  ghost function LastWorld(w: World, request: SweepRequest, during: seq<seq<Op>>, started: Time,
                           clock: seq<Time>): World
    requires |clock| == 2 + |during|
    requires forall c :: c in Sorted(request.points) ==> c in Prepared(w, request.points, started).cases
    requires AllSound(Planned(w, request.points, started, clock[0]))
  {
    var first, ids := Planned(w, request.points, started, clock[0]), Sorted(request.points);
    ReapedWorld(AfterRounds(first, ids, during, clock[1..1 + |during|]), ids, clock[1 + |during|])
  }

  /** Plan, run the rounds and conclude. */
  method PlanAndRun(v: Volume, request: SweepRequest, during: seq<seq<Op>>, started: Time, clock: seq<Time>,
                    dataset: Dataset)
      returns (r: Result<SweepSummary, OrchestrationError>, calls: seq<Call>)
    requires v.Valid() && ValidRequest(request) && |during| == MAX_SWEEP_ATTEMPTS && |clock| == 2 + MAX_SWEEP_ATTEMPTS
    requires dataset.reference == DatasetArtifact
    modifies v, v.store
    ensures v.Valid() && old(v.log) <= v.log
    ensures r.Ok? && TrueSummary(v.Contents(), request.points, r.value)
    ensures WentAsTold(old(v.Contents()), request, during, started, clock, calls, r.value)
    ensures r.value.datasetManifest in {None, Some(dataset.manifest)}
      && r.value.datasetStatistics in {None, Some(dataset.statistics)}
    ensures v.Contents() == LastWorld(old(v.Contents()), request, during, started, clock)
  {
    hide ShortDigest, Run, AllSound, Sorted, Prepared, PlanOf, ReapedWorld, Plannable, TrueSummary, AfterRounds,
         HasDuplicates, CaseIds, InOrder, Planned, Distinct, Calls, TotalPayloads, LaterCases, States, Summarize,
         TellsCourse, ForcedOnce, ForceOnly;
    ghost var w0 := v.Contents();
    ghost var ids := Sorted(request.points);
    var plan := Prepare(v, request, started, clock[0]);
    ghost var w1 := v.Contents();
    FirstPlan(ids, request.points, v.store.cases);
    var initial := plan.claimable;
    var skipped := Sorted(CaseIds(plan.succeeded));
    var resumed := set c | c in initial && v.store.cases[c].attempt > 0;
    var forced := if request.forceFailureOnce && request.points[0] in initial then Some(request.points[0]) else None;
    var last, attempts, later, preserved;
    last, attempts, later, preserved, calls :=
      Rounds(v, request, plan, forced, during, clock[1..1 + MAX_SWEEP_ATTEMPTS]);
    r := Conclude(v, request, last, initial, resumed + later, skipped, attempts, clock[1 + MAX_SWEEP_ATTEMPTS],
                  dataset);
    SummaryFields(request.kind, PlanOf(ids, v.store.cases), States(request.points, v.store.cases), initial,
                  InOrder(ids, resumed + later), skipped, attempts, dataset);
    CourseTold(w1, request, calls, initial, resumed, skipped, r.value);
    CallsForce(w1, ids, during, clock[1..1 + MAX_SWEEP_ATTEMPTS], request.tag, forced);
    ForcedAsAsked(request, w1, calls, initial);
  }

  /** The whole sweep. Workers may do anything while a round is submitted; nothing else moves. Every round
      submits exactly the claimable cases under their next tokens. The successes of earlier plans are always
      preserved, and the summary always passes its validator: its references are exactly the durable runs of the
      succeeded cases, when all have succeeded the counted failures equal the retries, and it tells the course
      of the sweep as it was. If moreover the workers end, nothing is left to claim. */
  method OrchestrateSweep(v: Volume, request: SweepRequest, matchesBuild: bool, during: seq<seq<Op>>, started: Time,
                          clock: seq<Time>, dataset: Dataset)
      returns (r: Result<SweepSummary, OrchestrationError>, calls: seq<Call>)
    requires v.Valid() && ValidRequest(request) && |during| == MAX_SWEEP_ATTEMPTS && |clock| == 2 + MAX_SWEEP_ATTEMPTS
    requires dataset.reference == DatasetArtifact
    modifies v, v.store
    ensures v.Valid() && old(v.log) <= v.log
    ensures !matchesBuild ==> r == Err(BuildMismatch) && calls == [] && v.Contents() == old(v.Contents())
    ensures matchesBuild ==> r.Ok? && TrueSummary(v.Contents(), request.points, r.value)
    ensures matchesBuild ==> WentAsTold(old(v.Contents()), request, during, started, clock, calls, r.value)
    ensures matchesBuild ==>
      && r.value.datasetManifest in {None, Some(dataset.manifest)}
      && r.value.datasetStatistics in {None, Some(dataset.statistics)}
    ensures matchesBuild && AllTrack(old(v.Contents())) && RoundsCarryTokens(during, calls) ==>
      AllTrack(v.Contents()) && InputsFitted(old(v.Contents()), request, during, started, clock, calls)
    ensures matchesBuild && WorkersEnd(old(v.Contents()), request.points, during, started, clock) ==>
      r.value.pendingCount == 0 && r.value.runningCount == 0
  {
    hide AllTrack, RoundsCarryTokens, InputsFitted, WorkersEnd, ShortDigest, AllSound, Sorted, Prepared, TrueSummary,
         Planned, LastWorld, Calls, Run, Distinct, TellsCourse;
    if !matchesBuild {
      return Err(BuildMismatch), [];
    }
    ghost var w := v.Contents();
    r, calls := PlanAndRun(v, request, during, started, clock, dataset);
    if AllTrack(w) && RoundsCarryTokens(during, calls) {
      SweepTracks(w, request, Forced(request, r.value.initial), during, started, clock);
    }
    if WorkersEnd(w, request.points, during, started, clock) {
      SweepEnds(w, request, during, started, clock, r.value);
    }
  }

  /** When the workers end, the summary of the last world counts nothing as pending or running. */
  lemma SweepEnds(w: World, request: SweepRequest, during: seq<seq<Op>>, started: Time, clock: seq<Time>,
                  s: SweepSummary)
    requires ValidRequest(request) && |during| == MAX_SWEEP_ATTEMPTS && |clock| == 2 + MAX_SWEEP_ATTEMPTS
    requires WorkersEnd(w, request.points, during, started, clock)
    requires var first, ids := Planned(w, request.points, started, clock[0]), Sorted(request.points);
      && (forall c :: c in ids ==> c in first.cases)
      && TrueSummary(LastWorld(w, request, during, started, clock), request.points, s)
    ensures s.pendingCount == 0 && s.runningCount == 0
  {
    hide Run, AllSound, Sorted, Prepared, ReapedWorld, TrueSummary, AfterRounds, RoundsEnd, Settling, Planned,
         Distinct, ShortDigest;
    var first, ids := Planned(w, request.points, started, clock[0]), Sorted(request.points);
    SortedAscending(request.points);
    NothingLeftToClaim(first, ids, during, clock[1..1 + MAX_SWEEP_ATTEMPTS], 0);
    var last := AfterRounds(first, ids, during, clock[1..1 + MAX_SWEEP_ATTEMPTS]);
    TerminalStays(last, ids, clock[1 + MAX_SWEEP_ATTEMPTS]);
    NothingCounted(ReapedWorld(last, ids, clock[1 + MAX_SWEEP_ATTEMPTS]), request.points, s);
  }

  /** Fencing over the whole sweep, from before the first plan to after the last. */
  lemma SweepTracks(w: World, request: SweepRequest, forced: Option<CaseId>, during: seq<seq<Op>>, started: Time,
                    clock: seq<Time>)
    requires AllSound(w) && AllTrack(w) && ShortDigest(request.tag)
    requires |during| == MAX_SWEEP_ATTEMPTS && |clock| == 2 + MAX_SWEEP_ATTEMPTS
    requires forall c :: c in Sorted(request.points) ==> c in Prepared(w, request.points, started).cases
    requires var first, ids := Planned(w, request.points, started, clock[0]), Sorted(request.points);
      && (forall c :: c in ids ==> c in first.cases) && AllSound(first)
      && RoundsCarryTokens(during, Calls(first, ids, during, clock[1..1 + MAX_SWEEP_ATTEMPTS], request.tag, forced))
    ensures var first, ids := Planned(w, request.points, started, clock[0]), Sorted(request.points);
      var calls := Calls(first, ids, during, clock[1..1 + MAX_SWEEP_ATTEMPTS], request.tag, forced);
      InputsFitted(w, request, during, started, clock, calls)
    ensures AllTrack(LastWorld(w, request, during, started, clock))
  {
    hide AllTrack, AllSound, Prepared, Sorted, ReapedWorld, AfterRounds, Calls, EachCallFits, RoundsCarryTokens,
         ShortDigest;
    var ids, rounds := Sorted(request.points), clock[1..1 + MAX_SWEEP_ATTEMPTS];
    PreparedTracks(w, request.points, started);
    ReapedWorldTracks(Prepared(w, request.points, started), ids, clock[0]);
    var w1 := Planned(w, request.points, started, clock[0]);
    RoundsTrack(w1, ids, during, rounds, request.tag, forced);
    ReapedWorldTracks(AfterRounds(w1, ids, during, rounds), ids, clock[1 + MAX_SWEEP_ATTEMPTS]);
  }

  /** The lists of a course are sorted. */
  lemma CourseAscends(points: seq<CaseId>, cases: map<CaseId, CaseState>, chosen: set<CaseId>)
    requires Distinct(points) && forall c :: c in Sorted(points) ==> c in cases
    ensures Ascending(Select(Sorted(points), cases, Pending)) && Ascending(InOrder(Sorted(points), chosen))
    ensures Ascending(Sorted(Select(Sorted(points), cases, Succeeded)))
  {
    hide Sorted, Select, InOrder, Precedes;
    var ids := Sorted(points);
    SortedAscending(points);
    SelectMeans(ids, cases, Succeeded);
    SortedAscending(Select(ids, cases, Succeeded));
    SelectAscending(ids, cases, Pending);
    InOrderAscending(ids, chosen);
  }

  lemma CourseTold(w: World, request: SweepRequest, calls: seq<Call>, initial: seq<CaseId>, resumed: set<CaseId>,
                   skipped: seq<CaseId>, s: SweepSummary)
    requires (forall c :: c in Sorted(request.points) ==> c in w.cases)
    requires Distinct(request.points) && initial == Select(Sorted(request.points), w.cases, Pending)
      && skipped == Sorted(Select(Sorted(request.points), w.cases, Succeeded))
    requires (forall c :: c in initial ==> c in w.cases) && resumed == set c | c in initial && w.cases[c].attempt > 0
    requires s.initial == initial && s.skipped == skipped && s.attemptCount == TotalPayloads(calls)
    requires s.resumed == InOrder(Sorted(request.points), resumed + LaterCases(calls))
    ensures TellsCourse(w, request, calls, s)
  {
    hide Sorted, InOrder, Select, TotalPayloads, LaterCases, Precedes;
    var ids := Sorted(request.points);
    CourseAscends(request.points, w.cases, resumed + LaterCases(calls));
    SelectMember(ids, w.cases, Pending);
    assert resumed == set c | c in ids && w.cases[c].state == Pending && w.cases[c].attempt > 0;
  }

  /** The fields of a summary that are given rather than computed. */
  lemma SummaryFields(kind: DesignKind, plan: ResumePlan, states: seq<CaseState>, initial: seq<CaseId>,
                      resumed: seq<CaseId>, skipped: seq<CaseId>, attempts: nat, dataset: Dataset)
    ensures var s := Summarize(kind, plan, states, initial, resumed, skipped, attempts, dataset);
      && s.initial == initial && s.resumed == resumed && s.skipped == skipped && s.attemptCount == attempts
      && (s.datasetManifest.Some? ==> s.datasetManifest == Some(dataset.manifest))
      && (s.datasetStatistics.Some? ==> s.datasetStatistics == Some(dataset.statistics))
  {
  }

  lemma NothingCounted(w: World, points: seq<CaseId>, s: SweepSummary)
    requires TrueSummary(w, points, s) && forall c :: c in points ==>
      c in w.cases && w.cases[c].state in {Succeeded, Failed}
    ensures s.pendingCount == 0 && s.runningCount == 0
  {
    hide Select, States, FailureCounts, ClaimedAttempts, Accepted, Durable;
    TerminalCounts(points, w.cases);
    StatesCount(points, w.cases, Pending);
    StatesCount(points, w.cases, Running);
  }

  lemma FirstPlan(ids: seq<CaseId>, points: seq<CaseId>, cases: map<CaseId, CaseState>)
    requires Distinct(points) && ids == Sorted(points) && Plannable(ids, cases)
    ensures Distinct(ids) && forall c :: c in ids <==> c in points
    ensures var plan := PlanOf(ids, cases);
      && !HasDuplicates(plan.claimable) && (forall c :: c in plan.claimable ==> c in ids)
      && !HasDuplicates(Sorted(CaseIds(plan.succeeded))) && CaseIds(plan.succeeded) == Select(ids, cases, Succeeded)
      && plan.claimable == Select(ids, cases, Pending)
  {
    SortedAscending(points);
    SelectMeans(ids, cases, Pending);
    SelectMeans(ids, cases, Succeeded);
    CaseIdsSelected(ids, cases);
    SortedAscending(CaseIds(SucceededRuns(ids, cases)));
  }
}
