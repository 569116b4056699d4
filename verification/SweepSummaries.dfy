/** The summary an orchestrator returns, and the validator it must satisfy. */
module SweepSummaries {
  import opened Collections
  import opened ResumePlans
  import opened SweepRuns
  import opened SweepState
  import opened Wrappers

  datatype DesignKind = Smoke | Canonical

  const SMOKE_SAMPLE_COUNT := 8
  const CANONICAL_SAMPLE_COUNT := 1000
  const MAX_ERROR_CLASSES := 64

  function ExpectedCount(kind: DesignKind): nat {
    if kind == Smoke then SMOKE_SAMPLE_COUNT else CANONICAL_SAMPLE_COUNT
  }

  datatype ArtifactKind = RunArtifact | DatasetArtifact

  /** A published dataset: the kind of artifact its reference names, and its two digests. */
  datatype Dataset = Dataset(reference: ArtifactKind, manifest: nat, statistics: nat)

  datatype SweepSummary = SweepSummary(
    kind: DesignKind,
    caseCount: nat,
    pendingCount: nat, runningCount: nat, succeededCount: nat, failedCount: nat,
    initial: seq<CaseId>, resumed: seq<CaseId>, skipped: seq<CaseId>,
    references: seq<Digest>,
    attemptCount: nat, claimedAttemptCount: nat, retryCount: nat,
    failureCounts: multiset<ErrorCode>,
    datasetReference: Option<ArtifactKind>, datasetManifest: Option<nat>, datasetStatistics: Option<nat>,
    finalSucceeded: bool)

  /** The number of different error codes counted. */
  function Classes(counts: multiset<ErrorCode>): set<ErrorCode> { set code | code in counts }

  function HasDuplicates<T(==)>(s: seq<T>): bool { exists i, j :: 0 <= i < j < |s| && s[i] == s[j] }

  /** The validator of a summary. */
  predicate Accepted(s: SweepSummary) {
    && |Classes(s.failureCounts)| <= MAX_ERROR_CLASSES
    && s.caseCount == ExpectedCount(s.kind)
    && s.pendingCount + s.runningCount + s.succeededCount + s.failedCount == s.caseCount
    && !HasDuplicates(s.initial) && !HasDuplicates(s.resumed) && !HasDuplicates(s.skipped)
    && !HasDuplicates(s.references)
    && |s.references| == s.succeededCount
    && |s.failureCounts| <= s.claimedAttemptCount
    && s.finalSucceeded == (s.succeededCount == s.caseCount)
    && (s.finalSucceeded ==> |s.failureCounts| <= s.retryCount)
    && if s.kind == Canonical && s.finalSucceeded
       then s.datasetReference == Some(DatasetArtifact) && s.datasetManifest.Some? && s.datasetStatistics.Some?
       else s.datasetReference == None && s.datasetManifest == None && s.datasetStatistics == None
  }

  /** What the validator asks, by the facts of the summary: eight or a thousand cases, each counted once; lists without
      repetition and one reference for each success; no more failures than attempts, nor than retries once all have
      succeeded; and a dataset exactly for a complete canonical sweep. */
  lemma AcceptedExactly(s: SweepSummary)
    ensures Accepted(s) <==>
      && s.caseCount == (if s.kind == Smoke then 8 else 1000)
      && s.pendingCount + s.runningCount + s.succeededCount + s.failedCount == s.caseCount
      && Distinct(s.initial) && Distinct(s.resumed) && Distinct(s.skipped) && Distinct(s.references)
      && |s.references| == s.succeededCount
      && |set code | code in s.failureCounts| <= 64 && |s.failureCounts| <= s.claimedAttemptCount
      && (s.finalSucceeded <==> s.succeededCount == s.caseCount)
      && (s.finalSucceeded ==> |s.failureCounts| <= s.retryCount)
      && (if s.finalSucceeded && s.kind == Canonical
          then s.datasetReference == Some(DatasetArtifact) && s.datasetManifest != None && s.datasetStatistics != None
          else s.datasetReference == None && s.datasetManifest == None && s.datasetStatistics == None)
  {
  }

  function CountState(states: seq<CaseState>, st: RunState): nat {
    if states == [] then 0
    else CountState(states[..|states| - 1], st) + if states[|states| - 1].state == st then 1 else 0
  }

  function ClaimedAttempts(states: seq<CaseState>): nat {
    if states == [] then 0 else ClaimedAttempts(states[..|states| - 1]) + states[|states| - 1].attempt
  }

  function Retries(states: seq<CaseState>): nat {
    if states == [] then 0
    else
      var attempt := states[|states| - 1].attempt;
      Retries(states[..|states| - 1]) + if attempt >= 1 then attempt - 1 else 0
  }

  function FailureCounts(states: seq<CaseState>): multiset<ErrorCode> {
    if states == [] then multiset{}
    else FailureCounts(states[..|states| - 1]) + multiset(states[|states| - 1].failureCodes)
  }

  /** What one record counts for: its state, its attempts, the attempts beyond the first, and its failures. */
  lemma OneRecordCounts(s: CaseState, st: RunState)
    ensures CountState([s], st) == (if s.state == st then 1 else 0) && ClaimedAttempts([s]) == s.attempt
    ensures Retries([s]) == (if s.attempt > 1 then s.attempt - 1 else 0)
      && FailureCounts([s]) == multiset(s.failureCodes)
  {
    assert [s][..0] == [] && CountState([], st) == 0 && ClaimedAttempts([]) == 0 && Retries([]) == 0;
  }

  /** And records count for what their parts count together. */
  lemma {:induction false} CountsAdd(a: seq<CaseState>, b: seq<CaseState>, st: RunState)
    ensures CountState(a + b, st) == CountState(a, st) + CountState(b, st)
    ensures ClaimedAttempts(a + b) == ClaimedAttempts(a) + ClaimedAttempts(b)
      && Retries(a + b) == Retries(a) + Retries(b)
    ensures FailureCounts(a + b) == FailureCounts(a) + FailureCounts(b)
    decreases |b|
  {
    hide CountState, ClaimedAttempts, Retries, FailureCounts;
    OneMoreCounts([], b, st);
    OneMoreCounts(a, b, st);
    assert [] + b == b && (b != [] ==> [] + b[..|b| - 1] == b[..|b| - 1]);
    if b == [] {
      assert a + b == a;
    } else {
      CountsAdd(a, b[..|b| - 1], st);
    }
  }

  /** The counts with nothing, or with one record more. */
  lemma OneMoreCounts(a: seq<CaseState>, b: seq<CaseState>, st: RunState)
    ensures b == [] ==> CountState(b, st) == ClaimedAttempts(b) == Retries(b) == 0 && FailureCounts(b) == multiset{}
    ensures b != [] ==>
      var s, some, all := b[|b| - 1], a + b[..|b| - 1], a + b;
      && CountState(all, st) == CountState(some, st) + (if s.state == st then 1 else 0)
      && ClaimedAttempts(all) == ClaimedAttempts(some) + s.attempt
      && Retries(all) == Retries(some) + (if s.attempt > 1 then s.attempt - 1 else 0)
      && FailureCounts(all) == FailureCounts(some) + multiset(s.failureCodes)
  {
    if b != [] {
      assert (a + b)[..|a + b| - 1] == a + b[..|b| - 1] && (a + b)[|a + b| - 1] == b[|b| - 1];
    }
  }

  /** The records of a list of cases. */
  function States(ids: seq<CaseId>, cases: map<CaseId, CaseState>): (r: seq<CaseState>)
    requires forall c :: c in ids ==> c in cases
    ensures |r| == |ids|
  {
    if ids == [] then [] else States(ids[..|ids| - 1], cases) + [cases[ids[|ids| - 1]]]
  }

  function Digests(runs: seq<VerifiedCaseRun>): (r: seq<Digest>)
    ensures |r| == |runs| && forall i :: 0 <= i < |r| ==> r[i] == runs[i].digest
  {
    if runs == [] then [] else Digests(runs[..|runs| - 1]) + [runs[|runs| - 1].digest]
  }

  /** The summary of a finished sweep: references come from the final plan, counts from the records read
      after it. The final plan lists its runs in case order already. */
  function Summarize(kind: DesignKind, plan: ResumePlan, states: seq<CaseState>, initial: seq<CaseId>,
                     resumed: seq<CaseId>, skipped: seq<CaseId>, attempts: nat, dataset: Dataset): SweepSummary {
    var references := Digests(plan.succeeded);
    var published := kind == Canonical && |references| == ExpectedCount(kind);
    SweepSummary(
      kind, ExpectedCount(kind),
      CountState(states, Pending), CountState(states, Running), CountState(states, Succeeded),
        CountState(states, Failed),
      initial, resumed, skipped, references,
      attempts, ClaimedAttempts(states), Retries(states), FailureCounts(states),
      if published then Some(dataset.reference) else None,
      if published then Some(dataset.manifest) else None,
      if published then Some(dataset.statistics) else None,
      |references| == ExpectedCount(kind))
  }

  lemma {:induction false} StatesCount(ids: seq<CaseId>, cases: map<CaseId, CaseState>, st: RunState)
    requires forall c :: c in ids ==> c in cases
    ensures CountState(States(ids, cases), st) == |Select(ids, cases, st)|
    decreases |ids|
  {
    if ids != [] {
      var n := |ids| - 1;
      StatesCount(ids[..n], cases, st);
      assert States(ids, cases)[..n] == States(ids[..n], cases);
    }
  }

  /** Sound records account for their failures: never more failures than attempts, and when every case
      has succeeded exactly as many failures as retries. */
  lemma {:induction false} FailuresAccounted(ids: seq<CaseId>, cases: map<CaseId, CaseState>)
    requires forall c :: c in ids ==> c in cases && Sound(cases[c])
    ensures var states := States(ids, cases);
      && |FailureCounts(states)| <= ClaimedAttempts(states)
      && (CountState(states, Succeeded) == |ids| ==> |FailureCounts(states)| == Retries(states))
      && CountState(states, Succeeded) <= |ids|
    decreases |ids|
  {
    if ids != [] {
      var n := |ids| - 1;
      FailuresAccounted(ids[..n], cases);
      assert States(ids, cases)[..n] == States(ids[..n], cases);
      assert |multiset(cases[ids[n]].failureCodes)| == |cases[ids[n]].failureCodes|;
    }
  }

  /** The error codes that exist. */
  lemma ClassesBounded(counts: multiset<ErrorCode>)
    ensures |Classes(counts)| <= MAX_ERROR_CLASSES
  {
    var some := {LeaseExpired, SoufflerieFailure, ConfigInvalid, CaseOutOfDomain, SolverUnstable, SolverNotConverged,
                 ArtifactIntegrity, SchemaUnsupported, DependencyUnavailable, DeviceUnavailable};
    var rest := {CapacityExhausted, RateLimited, BudgetExhausted, SolveDisabled, JobNotFound, EventCursorInvalid,
                 IdempotencyConflict, RemoteExecution, ValidationRed, InternalInvariant};
    assert |some| <= 10 && |rest| <= 10;
    forall code | code in Classes(counts) ensures code in some + rest {
      match code
      case LeaseExpired | SoufflerieFailure | ConfigInvalid | CaseOutOfDomain | SolverUnstable | SolverNotConverged =>
      case ArtifactIntegrity | SchemaUnsupported | DependencyUnavailable | DeviceUnavailable | CapacityExhausted =>
      case RateLimited | BudgetExhausted | SolveDisabled | JobNotFound | EventCursorInvalid | IdempotencyConflict =>
      case RemoteExecution | ValidationRed | InternalInvariant =>
    }
    SubsetCardinality(Classes(counts), some + rest);
  }

  lemma {:induction false} SucceededRunsSelected(ids: seq<CaseId>, cases: map<CaseId, CaseState>)
    requires Plannable(ids, cases)
    ensures |SucceededRuns(ids, cases)| == |Select(ids, cases, Succeeded)|
    ensures forall i :: 0 <= i < |SucceededRuns(ids, cases)| ==>
      var run := SucceededRuns(ids, cases)[i];
      run.caseId == Select(ids, cases, Succeeded)[i] && run.caseId in ids
        && cases[run.caseId].runDigest == Some(run.digest)
    decreases |ids|
  {
    if ids != [] {
      SucceededRunsSelected(ids[..|ids| - 1], cases);
    }
  }

  /** The references of a plan carry different digests, because a digest covers its case. */
  lemma ReferencesDistinct(w: World, ids: seq<CaseId>)
    requires AllSound(w) && (forall c :: c in ids ==> c in w.cases) && Distinct(ids) && Plannable(ids, w.cases)
    ensures !HasDuplicates(Digests(SucceededRuns(ids, w.cases)))
  {
    var runs := SucceededRuns(ids, w.cases);
    SucceededRunsSelected(ids, w.cases);
    SelectMeans(ids, w.cases, Succeeded);
    forall i, j | 0 <= i < j < |runs| ensures runs[i].digest != runs[j].digest {
      assert SoundIn(w.cases[runs[i].caseId], runs[i].caseId, w.artifacts);
      assert SoundIn(w.cases[runs[j].caseId], runs[j].caseId, w.artifacts);
      assert runs[i].digest.caseId == runs[i].caseId && runs[j].digest.caseId == runs[j].caseId;
    }
  }

  /** They come in the order of their cases. */
  lemma ReferencesOrdered(w: World, ids: seq<CaseId>)
    requires AllSound(w) && (forall c :: c in ids ==> c in w.cases) && Ascending(ids) && Plannable(ids, w.cases)
    ensures ByCase(Digests(SucceededRuns(ids, w.cases)))
  {
    var runs := SucceededRuns(ids, w.cases);
    SucceededRunsSelected(ids, w.cases);
    SelectAscending(ids, w.cases, Succeeded);
    hide Precedes;
    forall i | 0 <= i < |runs| ensures Digests(runs)[i].caseId == Select(ids, w.cases, Succeeded)[i] {
      assert SoundIn(w.cases[runs[i].caseId], runs[i].caseId, w.artifacts);
      assert runs[i].caseId in Select(ids, w.cases, Succeeded);
      assert w.cases[runs[i].caseId].runDigest == Some(runs[i].digest);
      SelectedSucceeded(ids, w.cases, runs[i].caseId);
    }
  }

  ghost predicate ByCase(references: seq<Digest>) {
    forall i, j :: 0 <= i < j < |references| ==> Precedes(references[i].caseId, references[j].caseId)
  }

  lemma {:induction false} SelectedSucceeded(ids: seq<CaseId>, cases: map<CaseId, CaseState>, c: CaseId)
    requires (forall c :: c in ids ==> c in cases) && c in Select(ids, cases, Succeeded)
    ensures c in cases && cases[c].state == Succeeded
    decreases |ids|
  {
    if ids != [] && !(c in Select(ids[..|ids| - 1], cases, Succeeded)) {
      assert c == ids[|ids| - 1];
    } else if ids != [] {
      SelectedSucceeded(ids[..|ids| - 1], cases, c);
    }
  }

  /** How many successes a plan lists, against the records read after it: never more, and as many
      exactly when no case succeeded in between. */
  lemma SuccessesCompared(points: seq<CaseId>, cases: map<CaseId, CaseState>, cases': map<CaseId, CaseState>)
    requires Distinct(points) && Plannable(Sorted(points), cases)
    requires forall c :: c in points ==>
      c in cases && c in cases' && (cases[c].state == Succeeded ==> cases'[c].state == Succeeded)
    ensures |SucceededRuns(Sorted(points), cases)| == CountState(States(points, cases'), Succeeded)
       <==> forall c :: c in points && cases'[c].state == Succeeded ==> cases[c].state == Succeeded
    ensures |SucceededRuns(Sorted(points), cases)| <= CountState(States(points, cases'), Succeeded)
  {
    SortedAscending(points);
    SucceededRunsSelected(Sorted(points), cases);
    StatesCount(points, cases', Succeeded);
    var planned, read := Select(Sorted(points), cases, Succeeded), Select(points, cases', Succeeded);
    SelectMeans(Sorted(points), cases, Succeeded);
    SelectMeans(points, cases', Succeeded);
    DistinctCardinality(planned);
    DistinctCardinality(read);
    SubsetCardinality(Elements(planned), Elements(read));
    if forall c :: c in points && cases'[c].state == Succeeded ==> cases[c].state == Succeeded {
      assert Elements(planned) == Elements(read);
    }
    forall c | c in read && Elements(planned) == Elements(read) ensures c in planned {
      assert c in Elements(read);
    }
    forall c | c in points && cases'[c].state == Succeeded ensures c in read {
    }
  }

  /** The parts of the validator that hold of every summary, whatever happened in between. */
  lemma AlwaysAccepted(ids: seq<CaseId>, cases: map<CaseId, CaseState>)
    requires forall c :: c in ids ==> c in cases && Sound(cases[c])
    ensures var states := States(ids, cases);
      && CountState(states, Pending) + CountState(states, Running) + CountState(states, Succeeded)
        + CountState(states, Failed) == |ids|
      && |Classes(FailureCounts(states))| <= MAX_ERROR_CLASSES
      && |FailureCounts(states)| <= ClaimedAttempts(states)
      && (CountState(states, Succeeded) == |ids| ==> |FailureCounts(states)| == Retries(states))
  {
    StatesCount(ids, cases, Pending);
    StatesCount(ids, cases, Running);
    StatesCount(ids, cases, Succeeded);
    StatesCount(ids, cases, Failed);
    SelectPartitions(ids, cases);
    ClassesBounded(FailureCounts(States(ids, cases)));
    FailuresAccounted(ids, cases);
  }

  /** When the records are read some operations after the final plan, the validator accepts the summary
      exactly when no case succeeded in between. With nothing in between it is always accepted. */
  lemma SummaryAcceptedExactly(w: World, ops: seq<Op>, kind: DesignKind, points: seq<CaseId>, initial: seq<CaseId>,
                               resumed: seq<CaseId>, skipped: seq<CaseId>, attempts: nat, dataset: Dataset)
    requires AllSound(w) && (forall c :: c in points ==> c in w.cases) && Distinct(points)
      && |points| == ExpectedCount(kind)
    requires !HasDuplicates(initial) && !HasDuplicates(resumed) && !HasDuplicates(skipped)
    requires dataset.reference == DatasetArtifact && Plannable(Sorted(points), w.cases)
    ensures forall c :: c in points ==> c in Run(w, ops).cases
    ensures Accepted(Summarize(kind, PlanOf(Sorted(points), w.cases), States(points, Run(w, ops).cases),
                               initial, resumed, skipped, attempts, dataset))
       <==> forall c :: c in points && Run(w, ops).cases[c].state == Succeeded ==> w.cases[c].state == Succeeded
  {
    hide Run, Select, CountState, States, FailureCounts, ClaimedAttempts, Retries, SucceededRuns, Digests, Sorted,
         Classes;
    var w' := Run(w, ops);
    RunIsSound(w, ops);
    forall c | c in points ensures c in w'.cases && Continues(w.cases[c], w'.cases[c]) && Sound(w'.cases[c]) {
      RunContinues(w, ops, c);
    }
    SortedAscending(points);
    ReferencesDistinct(w, Sorted(points));
    AlwaysAccepted(points, w'.cases);
    SuccessesCompared(points, w.cases, w'.cases);
  }
}
