/** A success that lands between the final plan and the reading of the records: the one way for a sweep to
    end with a summary that its own validator rejects. */
module SweepOvertaken {
  import opened ResumePlans
  import opened SweepFencing
  import opened SweepOrchestrator
  import opened SweepRounds
  import opened SweepRuns
  import opened SweepState
  import opened SweepSummaries
  import opened Wrappers

  /** Exactly these cases, all as they were initialized, and nothing published. */
  ghost predicate JustInitialized(w: World, points: seq<CaseId>, now: Time) {
    && (forall c :: c in w.cases <==> c in points) && (forall c :: c in points ==> w.cases[c] == Initial(c, now))
    && w.artifacts == {}
  }

  lemma {:induction false} FreshlyPrepared(points: seq<CaseId>, now: Time)
    requires forall c :: c in points ==> ValidCaseId(c)
    ensures JustInitialized(Prepared(EmptyWorld, points, now), points, now)
    decreases |points|
  {
    hide ValidCaseId, Apply, JustInitialized;
    if points == [] {
      NoneInitialized(now);
    } else {
      var n := |points| - 1;
      FreshlyPrepared(points[..n], now);
      OneMoreInitialized(Prepared(EmptyWorld, points[..n], now), points[..n], points[n], now);
      assert points == points[..n] + [points[n]];
    }
  }

  lemma NoneInitialized(now: Time)
    ensures JustInitialized(EmptyWorld, [], now)
  {
  }

  lemma OneMoreInitialized(w: World, points: seq<CaseId>, c: CaseId, now: Time)
    requires JustInitialized(w, points, now) && ValidCaseId(c)
    ensures JustInitialized(Apply(w, InitializeOp(c, now)), points + [c], now)
  {
    hide ValidCaseId, Initial;
  }

  lemma JustInitializedSound(w: World, points: seq<CaseId>, now: Time)
    requires JustInitialized(w, points, now) && forall c :: c in points ==> ValidCaseId(c)
    ensures AllSound(w)
  {
    hide ValidCaseId;
  }

  /** One worker's whole first attempt at a case. */
  function FirstAttempt(c: CaseId, owner: Owner, payload: nat, now: Time): seq<Op> {
    [ClaimOp(c, AttemptName(1, c), owner, now), PublishOp(c, payload),
     SucceedOp(c, AttemptName(1, c), owner, Digest(c, payload), now)]
  }

  lemma FirstAttemptRecords(c: CaseId, a: AttemptId, owner: Owner, d: Digest, now: Time)
    ensures Succeed(Claimed(Initial(c, now), a, owner, now).record, a, owner, d, true, now).record.state == Succeeded
  {
    assert Claimed(Initial(c, now), a, owner, now).record
        == CaseState(c, Running, 1, 1, Some(a), Some(owner), Some(now + LEASE_DURATION), None, None, [], now);
  }

  lemma RunThree(w: World, o0: Op, o1: Op, o2: Op)
    ensures Run(w, [o0, o1, o2]) == Apply(Apply(Apply(w, o0), o1), o2)
  {
    hide Apply;
    var w1 := Apply(w, o0);
    var w2 := Apply(w1, o1);
    assert Run(w, [o0, o1, o2]) == Run(w1, [o1, o2]);
    assert Run(w1, [o1, o2]) == Run(w2, [o2]);
    RunOne(w2, o2);
  }

  lemma FirstAttemptSucceeds(w: World, c: CaseId, owner: Owner, payload: nat, now: Time)
    requires c in w.cases && w.cases[c] == Initial(c, now) && ValidCaseId(c) && ValidOwner(owner)
    ensures c in Run(w, FirstAttempt(c, owner, payload, now)).cases
    ensures Run(w, FirstAttempt(c, owner, payload, now)).cases[c].state == Succeeded
  {
    NamesAreValid("0000000000000000", 1, c);
    hide AttemptName, ValidCaseId, ValidOwner, ValidAttemptId, Claimed, Succeed, Run;
    var a, d := AttemptName(1, c), Digest(c, payload);
    RunThree(w, ClaimOp(c, a, owner, now), PublishOp(c, payload), SucceedOp(c, a, owner, d, now));
    FirstAttemptRecords(c, a, owner, d, now);
  }

  /** The summary of a sweep that planned from `first`, made these calls, planned for the last time at `last`, and
      read the records at `read`. */
  ghost function Reported(first: World, last: World, read: World, request: SweepRequest, calls: seq<Call>,
                          dataset: Dataset):
      SweepSummary
    requires forall c :: c in Sorted(request.points) ==> c in first.cases && c in last.cases
    requires Plannable(Sorted(request.points), last.cases) && forall c :: c in request.points ==> c in read.cases
  {
    var ids := Sorted(request.points);
    Summarize(request.kind, PlanOf(ids, last.cases), States(request.points, read.cases),
              Select(ids, first.cases, Pending), InOrder(ids, Resumed(first, ids, calls)),
              Sorted(Select(ids, first.cases, Succeeded)), TotalPayloads(calls), dataset)
  }

  /** Whatever a sweep did, the summary it reports tells its course, and the validator accepts it exactly when no
      case succeeded between the last plan and the reading. */
  lemma OvertakenExactly(first: World, last: World, late: seq<Op>, request: SweepRequest, calls: seq<Call>,
                         dataset: Dataset)
    requires AllSound(last) && ValidRequest(request) && dataset.reference == DatasetArtifact
    requires forall c :: c in Sorted(request.points) ==> c in first.cases && c in last.cases
    requires Plannable(Sorted(request.points), last.cases)
    ensures forall c :: c in request.points ==> c in last.cases && c in Run(last, late).cases
    ensures var read := Run(last, late);
      var s := Reported(first, last, read, request, calls, dataset);
      && TellsCourse(first, request, calls, s)
      && (Accepted(s) <==>
            forall c :: c in request.points && read.cases[c].state == Succeeded ==> last.cases[c].state == Succeeded)
  {
    hide Run, AllSound, Accepted, Summarize, Plannable, PlanOf, Resumed, TotalPayloads, Sorted, InOrder, Select,
         ShortDigest;
    var ids := Sorted(request.points);
    SortedAscending(request.points);
    forall c | c in request.points ensures c in last.cases && c in Run(last, late).cases {
      RunContinues(last, late, c);
    }
    var initial, skipped := Select(ids, first.cases, Pending), Select(ids, first.cases, Succeeded);
    var resumed := InOrder(ids, Resumed(first, ids, calls));
    SelectMeans(ids, first.cases, Pending);
    SelectMeans(ids, first.cases, Succeeded);
    SortedAscending(skipped);
    InOrderMeans(ids, Resumed(first, ids, calls));
    CourseAscends(request.points, first.cases, Resumed(first, ids, calls));
    NoDuplicates(initial);
    NoDuplicates(resumed);
    NoDuplicates(Sorted(skipped));
    SummaryAcceptedExactly(last, late, request.kind, request.points, initial, resumed, Sorted(skipped),
                           TotalPayloads(calls), dataset);
    SummaryFields(request.kind, PlanOf(ids, last.cases), States(request.points, Run(last, late).cases), initial,
                  resumed, Sorted(skipped), TotalPayloads(calls), dataset);
  }

  const IDLE: seq<seq<Op>> := [[], [], []]
  const AT_ONCE: seq<Time> := [0, 0, 0]

  lemma {:induction false} AllSelected(ids: seq<CaseId>, cases: map<CaseId, CaseState>, st: RunState)
    requires forall c :: c in ids ==> c in cases && cases[c].state == st
    ensures Select(ids, cases, st) == ids
    decreases |ids|
  {
    if ids != [] {
      AllSelected(ids[..|ids| - 1], cases, st);
      assert ids == ids[..|ids| - 1] + [ids[|ids| - 1]];
    }
  }

  lemma {:induction false} AllInOrder(ids: seq<CaseId>, chosen: set<CaseId>)
    requires forall c :: c in ids ==> c in chosen
    ensures InOrder(ids, chosen) == ids
    decreases |ids|
  {
    if ids != [] {
      AllInOrder(ids[..|ids| - 1], chosen);
      assert ids == ids[..|ids| - 1] + [ids[|ids| - 1]];
    }
  }

  /** Reaping a world in which nothing runs changes nothing. */
  lemma {:induction false} NothingToReap(w: World, ids: seq<CaseId>, now: Time)
    requires forall c :: c in ids ==> c in w.cases && w.cases[c].state != Running
    ensures ReapedWorld(w, ids, now) == w
    decreases |ids|
  {
    if ids != [] {
      NothingToReap(w, ids[..|ids| - 1], now);
      var last := ids[|ids| - 1];
      assert w.cases[last := w.cases[last]] == w.cases;
    }
  }

  /** Three rounds without a worker: every case is submitted each time, and nothing changes. */
  lemma IdleRounds(w: World, ids: seq<CaseId>, tag: string)
    requires AllSound(w) && ids != [] && forall c :: c in ids ==> c in w.cases && w.cases[c].state == Pending
    ensures AfterRounds(w, ids, IDLE, AT_ONCE) == w
    ensures var call := CallFor(ids, w.cases, tag, None); Calls(w, ids, IDLE, AT_ONCE, tag, None) == [call, call, call]
  {
    hide AllSound, CallFor, ReapedWorld, Select, AfterRounds, Calls;
    AllSelected(ids, w.cases, Pending);
    NothingToReap(w, ids, 0);
    NoOperations(w);
    IdleRound(w, ids, tag, 0);
    IdleRound(w, ids, tag, 1);
    IdleRound(w, ids, tag, 2);
    AfterRoundsDone(w, ids, IDLE, AT_ONCE, 3);
    assert IDLE[0..] == IDLE && AT_ONCE[0..] == AT_ONCE;
  }

  lemma IdleRound(w: World, ids: seq<CaseId>, tag: string, k: nat)
    requires AllSound(w) && ids != [] && k < 3 && forall c :: c in ids ==> c in w.cases && w.cases[c].state == Pending
    requires ReapedWorld(w, ids, 0) == w && Run(w, []) == w && Select(ids, w.cases, Pending) == ids
    ensures AfterRounds(w, ids, IDLE[k..], AT_ONCE[k..]) == AfterRounds(w, ids, IDLE[k + 1..], AT_ONCE[k + 1..])
    ensures Calls(w, ids, IDLE[k..], AT_ONCE[k..], tag, None)
         == [CallFor(ids, w.cases, tag, None)] + Calls(w, ids, IDLE[k + 1..], AT_ONCE[k + 1..], tag, None)
  {
    hide AllSound, CallFor, ReapedWorld, Select, AfterRounds, Calls, Run;
    assert IDLE[k] == [] && AT_ONCE[k] == 0;
    AfterRoundsStep(w, ids, IDLE, AT_ONCE, k);
    CallsStep(w, ids, IDLE, AT_ONCE, k, tag, None);
  }

  /** What three such calls count. */
  lemma ThreeCalls(call: Call, ids: seq<CaseId>)
    requires |call.payloads| == |ids| && forall i :: 0 <= i < |ids| ==> call.payloads[i].caseId == ids[i]
    ensures TotalPayloads([call, call, call]) == 3 * |ids|
    ensures forall c :: c in ids ==> c in LaterCases([call, call, call])
  {
    hide TotalPayloads, LaterCases;
    NoCalls();
    CallsExtended([], call, ids);
    CallsExtended([call], call, ids);
    CallsExtended([call, call], call, ids);
    assert [] + [call] == [call] && [call] + [call] == [call, call] && [call, call] + [call] == [call, call, call];
  }

  /** A sweep of any design from an empty volume, whose workers stay idle until one of them claims, publishes and
      completes the first case between the last plan and the reading of the records. The sweep reports every case as
      initial and as resumed, three attempts for each, and its own validator rejects the summary. */
  lemma OvertakenSummaryRejected(request: SweepRequest, owner: Owner, payload: nat, dataset: Dataset)
    requires ValidRequest(request) && !request.forceFailureOnce
    requires dataset.reference == DatasetArtifact && ValidOwner(owner)
    ensures var ids, late := Sorted(request.points), FirstAttempt(request.points[0], owner, payload, 0);
      && (forall c :: c in ids ==> c in Prepared(EmptyWorld, request.points, 0).cases)
      && var w := Planned(EmptyWorld, request.points, 0, 0);
      && (forall c :: c in ids ==> c in w.cases) && AllSound(w) && Plannable(ids, w.cases)
      && ReapedWorld(AfterRounds(w, ids, IDLE, AT_ONCE), ids, 0) == w
      && (forall c :: c in request.points ==> c in Run(w, late).cases)
      && var s := Reported(w, w, Run(w, late), request, Calls(w, ids, IDLE, AT_ONCE, request.tag, None), dataset);
      && s.initial == s.resumed == ids && s.skipped == [] && s.attemptCount == 3 * |ids| && !Accepted(s)
  {
    hide Run, Prepared, Sorted, AllSound, ValidCaseId, ValidOwner, FirstAttempt, Accepted, PlanOf, Calls, AfterRounds,
         Select, InOrder, ReapedWorld, ShortDigest;
    var points, ids := request.points, Sorted(request.points);
    var w := Prepared(EmptyWorld, points, 0);
    FreshlyPrepared(points, 0);
    JustInitializedSound(w, points, 0);
    SortedAscending(points);
    NothingToReap(w, ids, 0);
    IdleRounds(w, ids, request.tag);
    CallCovers(ids, w.cases, request.tag, None);
    ThreeCalls(CallFor(ids, w.cases, request.tag, None), ids);
    AllSelected(ids, w.cases, Pending);
    NoneSelected(ids, w.cases);
    var calls := Calls(w, ids, IDLE, AT_ONCE, request.tag, None);
    AllInOrder(ids, Resumed(w, ids, calls));
    FirstAttemptSucceeds(w, points[0], owner, payload, 0);
    OvertakenExactly(w, w, FirstAttempt(points[0], owner, payload, 0), request, calls, dataset);
    assert w.cases[points[0]].state == Pending;
  }

  lemma {:induction false} NoneSelected(ids: seq<CaseId>, cases: map<CaseId, CaseState>)
    requires forall c :: c in ids ==> c in cases && cases[c].state == Pending
    ensures Sorted(Select(ids, cases, Succeeded)) == []
    decreases |ids|
  {
    if ids != [] {
      NoneSelected(ids[..|ids| - 1], cases);
      SelectMember(ids, cases, Succeeded);
    }
  }

  function SmokeCase(i: nat): CaseId
    requires i < 10
  {
    "0000000000000000000" + [Digit(i)]
  }

  const SMOKE_CASES: seq<CaseId> := seq(SMOKE_SAMPLE_COUNT, i requires 0 <= i < SMOKE_SAMPLE_COUNT => SmokeCase(i))
  const SMOKE_SWEEP := SweepRequest(Smoke, SMOKE_CASES, "0000000000000000", false)

  /** An instance: eight smoke cases, twenty-four submitted attempts, and one late worker. */
  lemma RejectedSummary()
    ensures var ids, late := Sorted(SMOKE_CASES), FirstAttempt(SmokeCase(0), "late", 0, 0);
      && (forall c :: c in ids ==> c in Prepared(EmptyWorld, SMOKE_CASES, 0).cases)
      && var w := Planned(EmptyWorld, SMOKE_CASES, 0, 0);
      && (forall c :: c in ids ==> c in w.cases) && AllSound(w) && Plannable(ids, w.cases)
      && (forall c :: c in SMOKE_CASES ==> c in Run(w, late).cases)
      && var calls := Calls(w, ids, IDLE, AT_ONCE, SMOKE_SWEEP.tag, None);
      var s := Reported(w, w, Run(w, late), SMOKE_SWEEP, calls, Dataset(DatasetArtifact, 0, 0));
      && s.initial == s.resumed == ids && s.attemptCount == 24 && !Accepted(s)
  {
    hide Run, Prepared, Sorted, FirstAttempt, Accepted, PlanOf, Plannable, Calls, Reported, AfterRounds, AllSound,
         Planned, SmokeCase, ValidCaseId, Select, ReapedWorld;
    SmokeSweepValid();
    SortedAscending(SMOKE_CASES);
    OvertakenSummaryRejected(SMOKE_SWEEP, "late", 0, Dataset(DatasetArtifact, 0, 0));
  }

  lemma SmokeSweepValid()
    ensures ValidRequest(SMOKE_SWEEP) && SMOKE_CASES[0] == SmokeCase(0)
  {
    forall i, j | 0 <= i < j < SMOKE_SAMPLE_COUNT ensures SMOKE_CASES[i] != SMOKE_CASES[j] {
      assert SmokeCase(i)[19] != SmokeCase(j)[19];
    }
    forall c | c in SMOKE_CASES ensures ValidCaseId(c) {
      var i :| 0 <= i < SMOKE_SAMPLE_COUNT && SMOKE_CASES[i] == c;
    }
  }
}
