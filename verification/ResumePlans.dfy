/** Resume plans: the expected cases of a sweep, partitioned by the state of their records after expired
    leases have been reaped and every recorded success has been verified again. */
module ResumePlans {
  import opened Collections
  import opened SolveTransaction
  import opened SweepRuns
  import opened SweepState
  import opened Wrappers

  /** Lexicographic order of identifiers. */
  predicate Precedes(s: string, t: string) {
    if s == [] then t != []
    else t != [] && (s[0] < t[0] || (s[0] == t[0] && Precedes(s[1..], t[1..])))
  }

  /** Precedence, said without recursion: one is a proper beginning of the other, or the first characters that
      differ are in order. */
  lemma {:induction false} PrecedesExactly(s: string, t: string)
    ensures Precedes(s, t) <==> s < t || exists i :: 0 <= i < |s| && i < |t| && s[..i] == t[..i] && s[i] < t[i]
    decreases |s|
  {
    if s != [] && t != [] && s[0] == t[0] {
      var s', t' := s[1..], t[1..];
      PrecedesExactly(s', t');
      assert s == [s[0]] + s' && t == [s[0]] + t';
      if s' < t' {
        assert s < t;
      }
      if exists i :: 0 <= i < |s'| && i < |t'| && s'[..i] == t'[..i] && s'[i] < t'[i] {
        var i :| 0 <= i < |s'| && i < |t'| && s'[..i] == t'[..i] && s'[i] < t'[i];
        assert s[..i + 1] == [s[0]] + s'[..i] && t[..i + 1] == [s[0]] + t'[..i] && s[i + 1] < t[i + 1];
      }
      if exists i :: 0 <= i < |s| && i < |t| && s[..i] == t[..i] && s[i] < t[i] {
        var i :| 0 <= i < |s| && i < |t| && s[..i] == t[..i] && s[i] < t[i];
        assert i > 0 && s'[..i - 1] == s[..i][1..] && t'[..i - 1] == t[..i][1..] && s'[i - 1] < t'[i - 1];
      }
    } else if s != [] && t != [] {
      assert s[..0] == t[..0];
      assert !(s < t);
      forall i | 0 <= i < |s| && i < |t| && s[..i] == t[..i] && s[i] < t[i] ensures i == 0 {
        SharedStart(s, t, i);
      }
    }
  }

  lemma SharedStart(s: string, t: string, i: nat)
    requires i <= |s| && i <= |t| && s[..i] == t[..i]
    ensures i == 0 || s[0] == t[0]
  {
    if i > 0 {
      assert s[0] == s[..i][0] && t[0] == t[..i][0];
    }
  }

  lemma {:induction false} PrecedesTotal(s: string, t: string)
    ensures s == t || Precedes(s, t) || Precedes(t, s)
    ensures !(Precedes(s, t) && Precedes(t, s)) && !Precedes(s, s)
    decreases |s|
  {
    if s != [] {
      PrecedesTotal(s[1..], s[1..]);
      if t != [] {
        PrecedesTotal(s[1..], t[1..]);
      }
    }
  }

  lemma {:induction false} PrecedesTransitive(s: string, t: string, u: string)
    requires Precedes(s, t) && Precedes(t, u)
    ensures Precedes(s, u)
    decreases |s|
  {
    if s != [] && t != [] && u != [] && s[0] == t[0] && t[0] == u[0] {
      PrecedesTransitive(s[1..], t[1..], u[1..]);
    }
  }

  ghost predicate Ascending(s: seq<CaseId>) {
    forall i, j :: 0 <= i < j < |s| ==> Precedes(s[i], s[j])
  }

  /** Insert an identifier into an ascending sequence. */
  function Insert(c: CaseId, s: seq<CaseId>): (r: seq<CaseId>)
    ensures multiset(r) == multiset(s) + multiset{c}
  {
    if s == [] then [c]
    else if Precedes(c, s[0]) then [c] + s
    else
      assert s == [s[0]] + s[1..];
      [s[0]] + Insert(c, s[1..])
  }

  function Sorted(s: seq<CaseId>): (r: seq<CaseId>)
    ensures multiset(r) == multiset(s)
  {
    if s == [] then [] else
      assert s == [s[0]] + s[1..];
      Insert(s[0], Sorted(s[1..]))
  }

  lemma {:induction false} InsertAscending(c: CaseId, s: seq<CaseId>)
    requires Ascending(s) && c !in s
    ensures Ascending(Insert(c, s))
    decreases |s|
  {
    if s != [] {
      if Precedes(c, s[0]) {
        forall j | 0 <= j < |s| ensures Precedes(c, s[j]) {
          if j > 0 {
            PrecedesTransitive(c, s[0], s[j]);
          }
        }
      } else {
        PrecedesTotal(c, s[0]);
        InsertAscending(c, s[1..]);
        var r := Insert(c, s[1..]);
        forall j | 0 <= j < |r| ensures Precedes(s[0], r[j]) {
          assert r[j] in multiset(r);
          if r[j] != c {
            assert r[j] in s[1..];
          }
        }
      }
    }
  }

  lemma {:induction false} SortedAscending(s: seq<CaseId>)
    requires Distinct(s)
    ensures Ascending(Sorted(s)) && Distinct(Sorted(s))
    ensures forall c :: c in Sorted(s) <==> c in s
    ensures |Sorted(s)| == |s|
    decreases |s|
  {
    assert |Sorted(s)| == |multiset(Sorted(s))| == |multiset(s)| == |s|;
    forall c ensures c in Sorted(s) <==> c in s {
      assert c in Sorted(s) <==> c in multiset(Sorted(s));
    }
    if s != [] {
      SortedAscending(s[1..]);
      InsertAscending(s[0], Sorted(s[1..]));
    }
    AscendingDistinct(Sorted(s));
  }

  lemma AscendingDistinct(s: seq<CaseId>)
    requires Ascending(s)
    ensures Distinct(s)
  {
    forall i, j | 0 <= i < j < |s| ensures s[i] != s[j] {
      PrecedesTotal(s[i], s[j]);
    }
  }

  /** The cases of a list whose record is in a given state, in order. */
  function Select(ids: seq<CaseId>, cases: map<CaseId, CaseState>, st: RunState): seq<CaseId>
    requires forall c :: c in ids ==> c in cases
  {
    if ids == [] then []
    else
      var last := ids[|ids| - 1];
      Select(ids[..|ids| - 1], cases, st) + (if cases[last].state == st then [last] else [])
  }

  /** What a selection holds: exactly the cases in that state, still distinct. */
  lemma {:induction false} SelectMeans(ids: seq<CaseId>, cases: map<CaseId, CaseState>, st: RunState)
    requires (forall c :: c in ids ==> c in cases) && Distinct(ids)
    ensures forall c :: c in Select(ids, cases, st) <==> c in ids && cases[c].state == st
    ensures Distinct(Select(ids, cases, st))
    decreases |ids|
  {
    if ids != [] {
      var n := |ids| - 1;
      SelectMeans(ids[..n], cases, st);
      assert ids == ids[..n] + [ids[n]];
      assert ids[n] !in ids[..n];
    }
  }

  /** A selection from a sorted list is sorted. */
  lemma {:induction false} SelectAscending(ids: seq<CaseId>, cases: map<CaseId, CaseState>, st: RunState)
    requires (forall c :: c in ids ==> c in cases) && Ascending(ids)
    ensures Ascending(Select(ids, cases, st)) && forall c :: c in Select(ids, cases, st) ==> c in ids
    decreases |ids|
  {
    if ids != [] {
      var n := |ids| - 1;
      SelectAscending(ids[..n], cases, st);
      forall c | c in ids[..n] ensures Precedes(c, ids[n]) {
      }
    }
  }

  lemma {:induction false} SelectAgrees(ids: seq<CaseId>, cases: map<CaseId, CaseState>,
                                        cases': map<CaseId, CaseState>, st: RunState)
    requires forall c :: c in ids ==> c in cases && c in cases' && cases[c] == cases'[c]
    ensures Select(ids, cases, st) == Select(ids, cases', st)
    decreases |ids|
  {
    if ids != [] {
      SelectAgrees(ids[..|ids| - 1], cases, cases', st);
    }
  }

  /** Each case is selected under exactly one state. */
  lemma {:induction false} SelectPartitions(ids: seq<CaseId>, cases: map<CaseId, CaseState>)
    requires forall c :: c in ids ==> c in cases
    ensures |Select(ids, cases, Pending)| + |Select(ids, cases, Running)| + |Select(ids, cases, Succeeded)|
            + |Select(ids, cases, Failed)| == |ids|
    decreases |ids|
  {
    if ids != [] {
      SelectPartitions(ids[..|ids| - 1], cases);
    }
  }

  datatype VerifiedCaseRun = VerifiedCaseRun(caseId: CaseId, digest: Digest)

  datatype ResumePlan = ResumePlan(
    claimable: seq<CaseId>, active: seq<CaseId>, succeeded: seq<VerifiedCaseRun>, failed: seq<CaseId>)

  datatype PlanError = NoCases | DuplicateCases | Store(error: StoreError) | MissingDigest | Unverified

  /** The records allow a plan: every expected case is stored, and every success names its run. */
  ghost predicate Plannable(ids: seq<CaseId>, cases: map<CaseId, CaseState>) {
    forall c :: c in ids ==> c in cases && (cases[c].state == Succeeded ==> cases[c].runDigest.Some?)
  }

  lemma SoundIsPlannable(w: World, ids: seq<CaseId>)
    requires AllSound(w) && forall c :: c in ids ==> c in w.cases
    ensures Plannable(ids, w.cases)
  {
  }

  /** The successes of a list of cases, with the digests on record. */
  ghost function SucceededRuns(ids: seq<CaseId>, cases: map<CaseId, CaseState>): seq<VerifiedCaseRun>
    requires Plannable(ids, cases)
  {
    if ids == [] then []
    else
      var n := |ids| - 1;
      SucceededRuns(ids[..n], cases)
      + (if cases[ids[n]].state == Succeeded then [VerifiedCaseRun(ids[n], cases[ids[n]].runDigest.value)] else [])
  }

  ghost function PlanOf(ids: seq<CaseId>, cases: map<CaseId, CaseState>): ResumePlan
    requires Plannable(ids, cases)
  {
    ResumePlan(Select(ids, cases, Pending), Select(ids, cases, Running), SucceededRuns(ids, cases),
               Select(ids, cases, Failed))
  }

  /** The digests of a list of runs by case; a later entry replaces an earlier one. */
  function RunMap(runs: seq<VerifiedCaseRun>): map<CaseId, Digest> {
    if runs == [] then map[]
    else RunMap(runs[..|runs| - 1])[runs[|runs| - 1].caseId := runs[|runs| - 1].digest]
  }

  /** Every success of the earlier plan stands in the later one with the same digest. */
  predicate PreservesSuccesses(previous: ResumePlan, current: ResumePlan) {
    var before, after := RunMap(previous.succeeded), RunMap(current.succeeded);
    forall c :: c in before ==> c in after && after[c] == before[c]
  }

  lemma {:induction false} RunMapMeans(ids: seq<CaseId>, cases: map<CaseId, CaseState>)
    requires Plannable(ids, cases)
    ensures forall c :: c in RunMap(SucceededRuns(ids, cases)) <==> c in ids && cases[c].state == Succeeded
    ensures forall c :: c in RunMap(SucceededRuns(ids, cases)) ==>
      cases[c].runDigest == Some(RunMap(SucceededRuns(ids, cases))[c])
    decreases |ids|
  {
    if ids != [] {
      var n := |ids| - 1;
      RunMapMeans(ids[..n], cases);
      assert ids == ids[..n] + [ids[n]];
      var runs, earlier := SucceededRuns(ids, cases), SucceededRuns(ids[..n], cases);
      if cases[ids[n]].state == Succeeded {
        assert runs[..|runs| - 1] == earlier;
        assert RunMap(runs) == RunMap(earlier)[ids[n] := cases[ids[n]].runDigest.value];
      } else {
        assert runs == earlier;
      }
    }
  }

  /** One plan preserves the successes of another exactly if every case that had succeeded still has, with the same
      digest. */
  lemma PreservedExactly(ids: seq<CaseId>, cases: map<CaseId, CaseState>, cases': map<CaseId, CaseState>)
    requires Plannable(ids, cases) && Plannable(ids, cases')
    ensures PreservesSuccesses(PlanOf(ids, cases), PlanOf(ids, cases')) <==>
      forall c :: c in ids && cases[c].state == Succeeded ==>
        cases'[c].state == Succeeded && cases'[c].runDigest == cases[c].runDigest
  {
    hide RunMap, SucceededRuns, Select;
    RunMapMeans(ids, cases);
    RunMapMeans(ids, cases');
    var before, after := RunMap(SucceededRuns(ids, cases)), RunMap(SucceededRuns(ids, cases'));
    forall c | c in ids && cases[c].state == Succeeded ensures c in before {
    }
  }

  /** Whatever happens between two plans, the later one preserves the successes of the earlier. */
  lemma SuccessesPreserved(w: World, ops: seq<Op>, ids: seq<CaseId>)
    requires AllSound(w) && forall c :: c in ids ==> c in w.cases
    ensures Plannable(ids, w.cases) && Plannable(ids, Run(w, ops).cases)
    ensures PreservesSuccesses(PlanOf(ids, w.cases), PlanOf(ids, Run(w, ops).cases))
  {
    var w' := Run(w, ops);
    RunIsSound(w, ops);
    forall c | c in ids ensures c in w'.cases && Continues(w.cases[c], w'.cases[c]) {
      RunContinues(w, ops, c);
    }
    SoundIsPlannable(w, ids);
    SoundIsPlannable(w', ids);
    RunMapMeans(ids, w.cases);
    RunMapMeans(ids, w'.cases);
    hide Run, AllSound;
  }

  /** The records after reaping these cases in turn. */
  ghost function ReapedAll(cases: map<CaseId, CaseState>, ids: seq<CaseId>, now: Time): map<CaseId, CaseState>
    requires forall c :: c in ids ==> c in cases
    ensures ReapedAll(cases, ids, now).Keys == cases.Keys
  {
    if ids == [] then cases
    else
      var n := |ids| - 1;
      var earlier := ReapedAll(cases, ids[..n], now);
      earlier[ids[n] := Reaped(earlier[ids[n]], now).record]
  }

  ghost function ReapedWorld(w: World, ids: seq<CaseId>, now: Time): World
    requires forall c :: c in ids ==> c in w.cases
  {
    World(ReapedAll(w.cases, ids, now), w.artifacts)
  }

  /** Reaping touches each listed case once and no other. */
  lemma {:induction false} ReapedAllMeans(cases: map<CaseId, CaseState>, ids: seq<CaseId>, now: Time)
    requires (forall c :: c in ids ==> c in cases) && Distinct(ids)
    ensures forall c :: c in cases ==>
      ReapedAll(cases, ids, now)[c] == if c in ids then Reaped(cases[c], now).record else cases[c]
    decreases |ids|
  {
    hide Reaped;
    if ids != [] {
      var n := |ids| - 1;
      ReapedAllMeans(cases, ids[..n], now);
      assert ids == ids[..n] + [ids[n]];
      assert ids[n] !in ids[..n];
    }
  }

  /** A plan extended by one more case. */
  ghost function Extended(plan: ResumePlan, s: CaseState): ResumePlan
    requires s.state == Succeeded ==> s.runDigest.Some?
  {
    match s.state
    case Pending => plan.(claimable := plan.claimable + [s.caseId])
    case Running => plan.(active := plan.active + [s.caseId])
    case Failed => plan.(failed := plan.failed + [s.caseId])
    case Succeeded => plan.(succeeded := plan.succeeded + [VerifiedCaseRun(s.caseId, s.runDigest.value)])
  }

  lemma {:induction false} SucceededRunsAgree(ids: seq<CaseId>, cases: map<CaseId, CaseState>,
                                              cases': map<CaseId, CaseState>)
    requires Plannable(ids, cases) && forall c :: c in ids ==> c in cases' && cases[c] == cases'[c]
    ensures SucceededRuns(ids, cases) == SucceededRuns(ids, cases')
    decreases |ids|
  {
    if ids != [] {
      SucceededRunsAgree(ids[..|ids| - 1], cases, cases');
    }
  }

  lemma SelectStep(ids: seq<CaseId>, c: CaseId, cases: map<CaseId, CaseState>, s: CaseState, st: RunState)
    requires (forall x :: x in ids ==> x in cases) && c !in ids
    ensures Select(ids + [c], cases[c := s], st) == Select(ids, cases, st) + if s.state == st then [c] else []
  {
    var ids' := ids + [c];
    assert ids'[..|ids|] == ids;
    SelectAgrees(ids, cases, cases[c := s], st);
  }

  lemma RunsStep(ids: seq<CaseId>, c: CaseId, cases: map<CaseId, CaseState>, s: CaseState)
    requires Plannable(ids, cases) && c !in ids && (s.state == Succeeded ==> s.runDigest.Some?)
    ensures Plannable(ids + [c], cases[c := s])
    ensures SucceededRuns(ids + [c], cases[c := s])
         == SucceededRuns(ids, cases) + if s.state == Succeeded then [VerifiedCaseRun(c, s.runDigest.value)] else []
  {
    var ids' := ids + [c];
    assert ids'[..|ids|] == ids;
    SucceededRunsAgree(ids, cases, cases[c := s]);
  }

  lemma PlanStep(ids: seq<CaseId>, c: CaseId, cases: map<CaseId, CaseState>, s: CaseState)
    requires Plannable(ids, cases) && c !in ids && s.caseId == c && (s.state == Succeeded ==> s.runDigest.Some?)
    ensures Plannable(ids + [c], cases[c := s])
    ensures PlanOf(ids + [c], cases[c := s]) == Extended(PlanOf(ids, cases), s)
  {
    SelectStep(ids, c, cases, s, Pending);
    SelectStep(ids, c, cases, s, Running);
    SelectStep(ids, c, cases, s, Failed);
    RunsStep(ids, c, cases, s);
    hide Select, SucceededRuns, Plannable;
  }

  /** What one volume record must satisfy for a plan. */
  lemma VolumeRecord(w: World, c: CaseId)
    requires AllSound(w) && c in w.cases
    ensures w.cases[c].caseId == c
    ensures w.cases[c].state == Succeeded ==>
      w.cases[c].runDigest.Some? && Verifies(w.artifacts, c, w.cases[c].runDigest.value)
  {
  }

  /** Partition the expected cases after reaping expired leases and re-verifying successes. On a sound
      volume that stores every expected case the plan exists, and it is exactly the partition of the
      reaped records. */
  method BuildResumePlan(v: Volume, caseIds: seq<CaseId>, now: Time) returns (r: Result<ResumePlan, PlanError>)
    requires v.Valid() && forall c :: c in caseIds ==> c in v.store.cases
    modifies v, v.store
    ensures v.Valid() && old(v.log) <= v.log && v.artifacts == old(v.artifacts)
      && v.store.cases.Keys == old(v.store.cases.Keys)
    ensures caseIds == [] ==> r == Err(NoCases)
    ensures caseIds != [] && !Distinct(caseIds) ==> r == Err(DuplicateCases)
    ensures caseIds != [] && Distinct(caseIds) ==>
      && (forall c :: c in Sorted(caseIds) ==> c in old(v.store.cases))
      && v.Contents() == ReapedWorld(old(v.Contents()), Sorted(caseIds), now)
      && Plannable(Sorted(caseIds), v.store.cases) && r == Ok(PlanOf(Sorted(caseIds), v.store.cases))
  {
    hide Reaped, AllSound, Run, Coherent, PlanOf;
    if caseIds == [] {
      return Err(NoCases);
    }
    if exists i, j :: 0 <= i < j < |caseIds| && caseIds[i] == caseIds[j] {
      return Err(DuplicateCases);
    }
    SortedAscending(caseIds);
    r := PlanCases(v, Sorted(caseIds), now);
  }

  /** The partition loop over the sorted cases. */
  method PlanCases(v: Volume, ids: seq<CaseId>, now: Time) returns (r: Result<ResumePlan, PlanError>)
    requires v.Valid() && (forall c :: c in ids ==> c in v.store.cases) && Distinct(ids)
    modifies v, v.store
    ensures v.Valid() && old(v.log) <= v.log && v.artifacts == old(v.artifacts)
    ensures v.store.cases == ReapedAll(old(v.store.cases), ids, now)
    ensures Plannable(ids, v.store.cases) && r == Ok(PlanOf(ids, v.store.cases))
  {
    hide Reaped, AllSound, Run, Coherent, PlanOf, Plannable, Verifies;
    var claimable, active, succeeded, failed := [], [], [], [];
    var k := 0;
    assert Plannable(ids[..0], v.store.cases) && ResumePlan([], [], [], []) == PlanOf(ids[..0], v.store.cases) by {
      NothingPlanned(v.store.cases);
    }
    while k < |ids|
      invariant 0 <= k <= |ids|
      invariant v.Valid() && old(v.log) <= v.log && v.artifacts == old(v.artifacts)
      invariant v.store.cases == ReapedAll(old(v.store.cases), ids[..k], now)
      invariant Plannable(ids[..k], v.store.cases)
      invariant ResumePlan(claimable, active, succeeded, failed) == PlanOf(ids[..k], v.store.cases)
    {
      var c := ids[k];
      ghost var before := v.store.cases;
      var state := v.Reap(c, now);
      VolumeRecord(v.Contents(), c);
      assert ids[..k + 1][..k] == ids[..k] && ids[..k + 1] == ids[..k] + [c];
      PlanStep(ids[..k], c, before, v.store.cases[c]);
      match state.value.state {
        case Pending => claimable := claimable + [c];
        case Running => active := active + [c];
        case Failed => failed := failed + [c];
        case Succeeded =>
          // The recorded run verifies again; soundness says so before the source asks.
          assert Verifies(v.artifacts, c, state.value.runDigest.value);
          succeeded := succeeded + [VerifiedCaseRun(c, state.value.runDigest.value)];
      }
      k := k + 1;
    }
    assert ids[..k] == ids;
    return Ok(ResumePlan(claimable, active, succeeded, failed));
  }

  lemma NothingPlanned(cases: map<CaseId, CaseState>)
    ensures Plannable([], cases) && PlanOf([], cases) == ResumePlan([], [], [], [])
  {
  }
}
