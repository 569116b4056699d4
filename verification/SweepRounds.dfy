/** The rounds of a sweep: what each submits, what the workers may make of it, and what is left. */
module SweepRounds {
  import opened Collections
  import opened ResumePlans
  import opened SolveTransaction
  import opened SweepFencing
  import opened SweepRuns
  import opened SweepState
  import opened Wrappers

  /** One submission: payloads and the owner names that go with them. */
  datatype Call = Call(payloads: seq<SolveRequest>, owners: seq<Owner>)

  /** A call for these cases: for each in turn its own identity, the token numbered one past its counter,
      the forced failure if it is the named case, and the owner of that attempt. */
  ghost predicate IsCallFor(call: Call, ids: seq<CaseId>, cases: map<CaseId, CaseState>, tag: string,
                            forced: Option<CaseId>)
    requires forall c :: c in ids ==> c in cases
  {
    && |call.payloads| == |call.owners| == |ids|
    && (forall i :: 0 <= i < |ids| ==>
          call.payloads[i]
          == SolveRequest(ids[i], AttemptName(cases[ids[i]].attempt + 1, ids[i]), forced == Some(ids[i])))
    && forall i :: 0 <= i < |ids| ==> call.owners[i] == OwnerName(tag, cases[ids[i]].attempt + 1, ids[i])
  }

  /** What a round submits for these cases. */
  ghost function CallFor(ids: seq<CaseId>, cases: map<CaseId, CaseState>, tag: string,
                         forced: Option<CaseId>): (call: Call)
    requires forall c :: c in ids ==> c in cases
    ensures IsCallFor(call, ids, cases, tag, forced)
  {
    Call(seq(|ids|, i requires 0 <= i < |ids| =>
             SolveRequest(ids[i], AttemptName(cases[ids[i]].attempt + 1, ids[i]), forced == Some(ids[i]))),
         seq(|ids|, i requires 0 <= i < |ids| => OwnerName(tag, cases[ids[i]].attempt + 1, ids[i])))
  }

  lemma OnlyCallFor(call: Call, ids: seq<CaseId>, cases: map<CaseId, CaseState>, tag: string, forced: Option<CaseId>)
    requires (forall c :: c in ids ==> c in cases) && IsCallFor(call, ids, cases, tag, forced)
    ensures call == CallFor(ids, cases, tag, forced)
  {
    hide AttemptName, OwnerName;
    var other := CallFor(ids, cases, tag, forced);
    assert call.payloads == other.payloads;
    assert call.owners == other.owners;
  }

  lemma CallCovers(ids: seq<CaseId>, cases: map<CaseId, CaseState>, tag: string, forced: Option<CaseId>)
    requires forall c :: c in ids ==> c in cases
    ensures var call := CallFor(ids, cases, tag, forced);
      |call.payloads| == |call.owners| == |ids| && forall i :: 0 <= i < |ids| ==> call.payloads[i].caseId == ids[i]
  {
    hide AttemptName, OwnerName;
  }

  /** Only the first round may force a failure. */
  function ForcedIn(round: nat, forced: Option<CaseId>): Option<CaseId> { if round == 0 then forced else None }

  const Alone := Environment([], [], [], [], [], [])

  /** An input is fit to run: a worker that executes it before anything else happens to its case, and
      finishes within the lease, is granted the attempt that its token numbers. */
  ghost predicate FitToRun(w: World, q: SolveRequest, owner: Owner) {
    && q.caseId in w.cases && q.attemptId == AttemptName(w.cases[q.caseId].attempt + 1, q.caseId)
    && forall started, ended :: w.cases[q.caseId].updatedAt <= started <= ended < started + LEASE_DURATION ==>
         Undisturbed(w, q, owner, Alone, started, ended)
  }

  ghost predicate CallFits(w: World, call: Call) {
    |call.payloads| == |call.owners| && forall i :: 0 <= i < |call.payloads| ==>
      FitToRun(w, call.payloads[i], call.owners[i])
  }

  lemma InputIsFresh(w: World, c: CaseId, tag: string, force: bool)
    requires AllSound(w) && c in w.cases && Tracks(w.cases[c]) && w.cases[c].state == Pending && ShortDigest(tag)
    ensures var n := w.cases[c].attempt
      + 1; FitToRun(w, SolveRequest(c, AttemptName(n, c), force), OwnerName(tag, n, c))
  {
    hide AttemptName, OwnerName, ValidOwner, ValidAttemptId, ValidCaseId;
    var s := w.cases[c];
    NamesAreValid(tag, s.attempt + 1, c);
    AttemptNameInjective(s.attempt, s.attempt + 1, c);
  }

  /** While tokens track counters, every input of a round is fit to run. */
  lemma InputsAreFresh(w: World, ids: seq<CaseId>, tag: string, forced: Option<CaseId>, call: Call)
    requires AllSound(w) && AllTrack(w) && ShortDigest(tag)
    requires forall c :: c in ids ==> c in w.cases && w.cases[c].state == Pending
    requires IsCallFor(call, ids, w.cases, tag, forced)
    ensures CallFits(w, call)
  {
    hide AttemptName, OwnerName, FitToRun, ShortDigest, AllSound, Tracks;
    forall i | 0 <= i < |ids| ensures FitToRun(w, call.payloads[i], call.owners[i]) {
      InputIsFresh(w, ids[i], tag, forced == Some(ids[i]));
    }
  }

  ghost predicate AllPending(ids: seq<CaseId>, cases: map<CaseId, CaseState>)
    requires forall c :: c in ids ==> c in cases
  {
    forall c :: c in ids ==> cases[c].state == Pending
  }

  /** Prepare one payload and one owner for every claimable case, numbered by the attempt it will be. When
      tokens track counters, every one of them is fit to run. */
  method RoundInputs(v: Volume, tag: string, caseIds: seq<CaseId>, forced: Option<CaseId>) returns (call: Call)
    requires v.Valid() && forall c :: c in caseIds ==> c in v.store.cases
    ensures IsCallFor(call, caseIds, v.store.cases, tag, forced)
    ensures AllTrack(v.Contents()) && ShortDigest(tag) && AllPending(caseIds, v.store.cases) ==>
      CallFits(v.Contents(), call)
  {
    hide AttemptName, OwnerName, Run, Coherent, Verifies, CallFits, AllTrack, ShortDigest;
    var payloads: seq<SolveRequest>, owners: seq<Owner> := [], [];
    for k := 0 to |caseIds|
      invariant IsCallFor(Call(payloads, owners), caseIds[..k], v.store.cases, tag, forced)
    {
      StoredCaseReads(v.Contents(), caseIds[k]);
      var state := v.store.ReadCase(caseIds[k]);
      var next := state.value.attempt + 1;
      payloads := payloads + [SolveRequest(caseIds[k], AttemptName(next, caseIds[k]), forced == Some(caseIds[k]))];
      owners := owners + [OwnerName(tag, next, caseIds[k])];
    }
    assert caseIds[..|caseIds|] == caseIds;
    call := Call(payloads, owners);
    if AllTrack(v.Contents()) && ShortDigest(tag) && AllPending(caseIds, v.store.cases) {
      InputsAreFresh(v.Contents(), caseIds, tag, forced, call);
    }
  }

  lemma {:induction false} SelectMember(ids: seq<CaseId>, cases: map<CaseId, CaseState>, st: RunState)
    requires forall c :: c in ids ==> c in cases
    ensures forall c :: c in Select(ids, cases, st) <==> c in ids && cases[c].state == st
    decreases |ids|
  {
    if ids != [] {
      SelectMember(ids[..|ids| - 1], cases, st);
      assert ids == ids[..|ids| - 1] + [ids[|ids| - 1]];
    }
  }

  /** What the rounds do to a planned world: while something is claimable, the workers of the round run,
      and then the next plan reaps. */
  ghost function AfterRounds(w: World, ids: seq<CaseId>, during: seq<seq<Op>>, clock: seq<Time>): World
    requires (forall c :: c in ids ==> c in w.cases) && AllSound(w) && |clock| >= |during|
    ensures AllSound(AfterRounds(w, ids, during, clock))
    ensures forall c :: c in ids ==> c in AfterRounds(w, ids, during, clock).cases
    decreases |during|
  {
    if during == [] || Select(ids, w.cases, Pending) == [] then w
    else
      RoundKeepsCases(w, during[0], ids, clock[0]);
      AfterRounds(ReapedWorld(Run(w, during[0]), ids, clock[0]), ids, during[1..], clock[1..])
  }

  /** What the rounds submit; only the first may force a failure. */
  ghost function Calls(w: World, ids: seq<CaseId>, during: seq<seq<Op>>, clock: seq<Time>, tag: string,
                       forced: Option<CaseId>): seq<Call>
    requires (forall c :: c in ids ==> c in w.cases) && AllSound(w) && |clock| >= |during|
    decreases |during|
  {
    if during == [] || Select(ids, w.cases, Pending) == [] then []
    else
      RoundKeepsCases(w, during[0], ids, clock[0]);
      SelectMember(ids, w.cases, Pending);
      [CallFor(Select(ids, w.cases, Pending), w.cases, tag, forced)]
      + Calls(ReapedWorld(Run(w, during[0]), ids, clock[0]), ids, during[1..], clock[1..], tag, None)
  }

  /** Whether these calls force a failure exactly of one case, and of it exactly in the first of them. */
  ghost predicate ForceOnly(calls: seq<Call>, forced: Option<CaseId>) {
    forall k, i :: 0 <= k < |calls| && 0 <= i < |calls[k].payloads| ==>
      (calls[k].payloads[i].forceRetryableFailure <==> k == 0 && forced == Some(calls[k].payloads[i].caseId))
  }

  /** Only the first round forces a failure, and only of the named case. */
  lemma {:induction false} CallsForce(w: World, ids: seq<CaseId>, during: seq<seq<Op>>, clock: seq<Time>, tag: string,
                                      forced: Option<CaseId>)
    requires (forall c :: c in ids ==> c in w.cases) && AllSound(w) && |clock| >= |during|
    ensures ForceOnly(Calls(w, ids, during, clock, tag, forced), forced)
    decreases |during|
  {
    hide Run, AllSound, Select, ReapedWorld, AttemptName, OwnerName;
    if during != [] && Select(ids, w.cases, Pending) != [] {
      RoundKeepsCases(w, during[0], ids, clock[0]);
      SelectMember(ids, w.cases, Pending);
      var next := ReapedWorld(Run(w, during[0]), ids, clock[0]);
      var rest := Calls(next, ids, during[1..], clock[1..], tag, None);
      CallsForce(next, ids, during[1..], clock[1..], tag, None);
      var calls := Calls(w, ids, during, clock, tag, forced);
      assert calls == [CallFor(Select(ids, w.cases, Pending), w.cases, tag, forced)] + rest;
      forall k, i | 0 <= k < |calls| && 0 <= i < |calls[k].payloads|
        ensures calls[k].payloads[i].forceRetryableFailure <==>
                k == 0 && forced == Some(calls[k].payloads[i].caseId)
      {
        if k > 0 {
          assert calls[k] == rest[k - 1];
        }
      }
    }
  }

  function TotalPayloads(calls: seq<Call>): nat {
    if calls == [] then 0 else TotalPayloads(calls[..|calls| - 1]) + |calls[|calls| - 1].payloads|
  }

  function CasesOf(payloads: seq<SolveRequest>): set<CaseId> { set q | q in payloads :: q.caseId }

  /** The cases submitted again after the first round. */
  function LaterCases(calls: seq<Call>): set<CaseId> {
    if |calls| <= 1 then {} else LaterCases(calls[..|calls| - 1]) + CasesOf(calls[|calls| - 1].payloads)
  }

  lemma RoundKeepsCases(w: World, ops: seq<Op>, ids: seq<CaseId>, now: Time)
    requires (forall c :: c in ids ==> c in w.cases) && AllSound(w)
    ensures forall c :: c in ids ==> c in Run(w, ops).cases
    ensures forall c :: c in ids ==> c in ReapedWorld(Run(w, ops), ids, now).cases
    ensures AllSound(Run(w, ops)) && AllSound(ReapedWorld(Run(w, ops), ids, now))
  {
    hide Run, AllSound;
    RunIsSound(w, ops);
    forall c | c in ids ensures c in Run(w, ops).cases {
      RunContinues(w, ops, c);
    }
    ReapedWorldSound(Run(w, ops), ids, now);
  }

  lemma {:induction false} ReapedWorldSound(w: World, ids: seq<CaseId>, now: Time)
    requires (forall c :: c in ids ==> c in w.cases) && AllSound(w)
    ensures AllSound(ReapedWorld(w, ids, now))
    decreases |ids|
  {
    hide Reaped;
    if ids != [] {
      var n := |ids| - 1;
      ReapedWorldSound(w, ids[..n], now);
      ReapedIsSound(ReapedAll(w.cases, ids[..n], now)[ids[n]], now);
    }
  }

  /** Every submitted worker has ended in a durable success or failure: its case has a further attempt
      behind it and nobody running. */
  ghost predicate EachEnds(w: World, w': World, ids: seq<CaseId>) {
    forall c :: c in ids ==>
      c in w.cases && c in w'.cases && w'.cases[c].state != Running && w'.cases[c].attempt > w.cases[c].attempt
  }

  ghost predicate RoundsEnd(w: World, ids: seq<CaseId>, during: seq<seq<Op>>, clock: seq<Time>)
    requires (forall c :: c in ids ==> c in w.cases) && AllSound(w) && |clock| >= |during|
    decreases |during|
  {
    if during == [] || Select(ids, w.cases, Pending) == [] then true
    else
      RoundKeepsCases(w, during[0], ids, clock[0]);
      && EachEnds(w, Run(w, during[0]), Select(ids, w.cases, Pending))
      && RoundsEnd(ReapedWorld(Run(w, during[0]), ids, clock[0]), ids, during[1..], clock[1..])
  }

  /** Nothing runs, and what is pending has been attempted k times. */
  ghost predicate Settling(w: World, ids: seq<CaseId>, k: nat)
    requires forall c :: c in ids ==> c in w.cases
  {
    forall c :: c in ids ==> w.cases[c].state != Running && (w.cases[c].state == Pending ==> w.cases[c].attempt >= k)
  }

  lemma RoundSettles(w: World, ops: seq<Op>, ids: seq<CaseId>, now: Time, k: nat)
    requires (forall c :: c in ids ==> c in w.cases) && AllSound(w) && Distinct(ids) && Settling(w, ids, k)
    requires EachEnds(w, Run(w, ops), Select(ids, w.cases, Pending))
    ensures forall c :: c in ids ==> c in Run(w, ops).cases
    ensures Settling(ReapedWorld(Run(w, ops), ids, now), ids, k + 1)
  {
    hide Run;
    RoundKeepsCases(w, ops, ids, now);
    SelectMeans(ids, w.cases, Pending);
    ReapedAllMeans(Run(w, ops).cases, ids, now);
    forall c | c in ids ensures var s := Run(w, ops).cases[c];
      s.state != Running && (s.state == Pending ==> s.attempt >= k + 1)
    {
      RunContinues(w, ops, c);
    }
  }

  /** If no case starts active and every submitted worker ends durably, then after the rounds nothing is
      left to claim and nothing is running: every case has succeeded or failed. */
  lemma {:induction false} NothingLeftToClaim(w: World, ids: seq<CaseId>, during: seq<seq<Op>>, clock: seq<Time>,
                                              k: nat)
    requires (forall c :: c in ids ==> c in w.cases) && AllSound(w) && Distinct(ids) && Settling(w, ids, k)
    requires |clock| >= |during| && k + |during| == MAX_SWEEP_ATTEMPTS && RoundsEnd(w, ids, during, clock)
    ensures forall c :: c in ids ==> AfterRounds(w, ids, during, clock).cases[c].state in {Succeeded, Failed}
    decreases |during|
  {
    hide Run;
    SelectMeans(ids, w.cases, Pending);
    if during == [] || Select(ids, w.cases, Pending) == [] {
      forall c | c in ids ensures w.cases[c].state != Pending {
        if Select(ids, w.cases, Pending) == [] {
          assert c !in Select(ids, w.cases, Pending);
        } else {
          assert SoundIn(w.cases[c], c, w.artifacts);
        }
      }
    } else {
      RoundKeepsCases(w, during[0], ids, clock[0]);
      RoundSettles(w, during[0], ids, clock[0], k);
      NothingLeftToClaim(ReapedWorld(Run(w, during[0]), ids, clock[0]), ids, during[1..], clock[1..], k + 1);
    }
  }

  lemma AfterRoundsStep(w: World, ids: seq<CaseId>, during: seq<seq<Op>>, clock: seq<Time>, k: nat)
    requires (forall c :: c in ids ==> c in w.cases) && AllSound(w) && k < |during| == |clock|
    requires Select(ids, w.cases, Pending) != []
    ensures forall c :: c in ids ==> c in Run(w, during[k]).cases
    ensures AllSound(ReapedWorld(Run(w, during[k]), ids, clock[k]))
    ensures AfterRounds(w, ids, during[k..], clock[k..])
         == AfterRounds(ReapedWorld(Run(w, during[k]), ids, clock[k]), ids, during[k + 1..], clock[k + 1..])
  {
    hide Run, AllSound, Select, ReapedWorld;
    RoundKeepsCases(w, during[k], ids, clock[k]);
    assert during[k..][1..] == during[k + 1..] && clock[k..][1..] == clock[k + 1..];
  }

  lemma CallsStep(w: World, ids: seq<CaseId>, during: seq<seq<Op>>, clock: seq<Time>, k: nat, tag: string,
                  forced: Option<CaseId>)
    requires (forall c :: c in ids ==> c in w.cases) && AllSound(w) && k < |during| == |clock|
    requires Select(ids, w.cases, Pending) != []
    ensures forall c :: c in ids ==> c in Run(w, during[k]).cases
    ensures AllSound(ReapedWorld(Run(w, during[k]), ids, clock[k]))
    ensures forall c :: c in Select(ids, w.cases, Pending) ==> c in w.cases
    ensures Calls(w, ids, during[k..], clock[k..], tag, forced)
         == [CallFor(Select(ids, w.cases, Pending), w.cases, tag, forced)]
          + Calls(ReapedWorld(Run(w, during[k]), ids, clock[k]), ids, during[k + 1..], clock[k + 1..], tag, None)
  {
    hide Run, AllSound, Select, ReapedWorld, CallFor;
    RoundKeepsCases(w, during[k], ids, clock[k]);
    SelectMember(ids, w.cases, Pending);
    assert during[k..][1..] == during[k + 1..] && clock[k..][1..] == clock[k + 1..];
  }

  /** One more call on record. */
  lemma CallsExtended(calls: seq<Call>, call: Call, claimable: seq<CaseId>)
    requires |call.payloads| == |claimable| && forall i :: 0 <= i < |claimable| ==>
      call.payloads[i].caseId == claimable[i]
    ensures TotalPayloads(calls + [call]) == TotalPayloads(calls) + |call.payloads|
    ensures LaterCases(calls + [call]) == LaterCases(calls) + if calls == [] then {} else set c | c in claimable
    ensures forall rest :: calls + ([call] + rest) == (calls + [call]) + rest
  {
    var all := calls + [call];
    assert all[..|all| - 1] == calls && all[|all| - 1] == call;
    forall c | c in claimable ensures c in CasesOf(call.payloads) {
      var i :| 0 <= i < |claimable| && claimable[i] == c;
      assert call.payloads[i] in call.payloads;
    }
    assert CasesOf(call.payloads) == set c | c in claimable;
  }

  lemma AfterRoundsDone(w: World, ids: seq<CaseId>, during: seq<seq<Op>>, clock: seq<Time>, k: nat)
    requires (forall c :: c in ids ==> c in w.cases) && AllSound(w) && k <= |during| == |clock|
    requires k == |during| || Select(ids, w.cases, Pending) == []
    ensures AfterRounds(w, ids, during[k..], clock[k..]) == w
    ensures forall tag, forced :: Calls(w, ids, during[k..], clock[k..], tag, forced) == []
  {
  }

  lemma NoCalls()
    ensures TotalPayloads([]) == 0 && LaterCases([]) == {} && forall rest: seq<Call> :: [] + rest == rest
  {
  }

  /** The world after initializing these cases in turn. */
  ghost function Prepared(w: World, points: seq<CaseId>, now: Time): World {
    if points == [] then w
    else Apply(Prepared(w, points[..|points| - 1], now), InitializeOp(points[|points| - 1], now))
  }

  lemma ReapedTracks(s: CaseState, now: Time)
    requires Tracks(s)
    ensures Tracks(Reaped(s, now).record)
  {
    hide AttemptName;
  }

  lemma {:induction false} ReapedWorldTracks(w: World, ids: seq<CaseId>, now: Time)
    requires (forall c :: c in ids ==> c in w.cases) && AllTrack(w)
    ensures AllTrack(ReapedWorld(w, ids, now))
    decreases |ids|
  {
    hide Reaped, Tracks;
    if ids != [] {
      var n := |ids| - 1;
      ReapedWorldTracks(w, ids[..n], now);
      ReapedTracks(ReapedAll(w.cases, ids[..n], now)[ids[n]], now);
    }
  }

  /** Every claim among these operations carries the token of some payload of the call, for its case; a
      payload may be claimed any number of times, at any time, under any owner. */
  ghost predicate CarriesTokens(ops: seq<Op>, call: Call) {
    forall op :: op in ops && op.ClaimOp? ==>
      exists i :: 0 <= i < |call.payloads| && call.payloads[i].caseId == op.caseId
        && call.payloads[i].attemptId == op.attemptId
  }

  lemma CallTokensAreNext(w: World, ids: seq<CaseId>, tag: string, forced: Option<CaseId>, ops: seq<Op>)
    requires (forall c :: c in ids ==> c in w.cases) && CarriesTokens(ops, CallFor(ids, w.cases, tag, forced))
    ensures CarriesNextTokens(w, ops)
  {
    hide AttemptName, OwnerName;
  }

  /** The claims of each round carry the tokens of that round's call. */
  ghost predicate RoundsCarryTokens(during: seq<seq<Op>>, calls: seq<Call>) {
    |calls| <= |during| && forall k :: 0 <= k < |calls| ==> CarriesTokens(during[k], calls[k])
  }

  /** Every call is fit to run in the world that it is made from, and every claim while it runs is in number. */
  ghost predicate EachCallFits(w: World, ids: seq<CaseId>, during: seq<seq<Op>>, clock: seq<Time>, calls: seq<Call>)
    requires (forall c :: c in ids ==> c in w.cases) && AllSound(w) && |calls| <= |during| <= |clock|
    decreases |calls|
  {
    if calls == [] then true
    else
      RoundKeepsCases(w, during[0], ids, clock[0]);
      && CallFits(w, calls[0]) && RunInNumber(w, during[0])
      && EachCallFits(ReapedWorld(Run(w, during[0]), ids, clock[0]), ids, during[1..], clock[1..], calls[1..])
  }

  /** Fencing under the orchestrator's naming. If tokens track counters in the planned world and the claims of
      each round carry the tokens that round submitted, then every claim is in number, every payload of every
      call is fit to run when it is submitted, and tokens still track counters after the rounds. */
  lemma {:induction false} RoundsTrack(w: World, ids: seq<CaseId>, during: seq<seq<Op>>, clock: seq<Time>,
                                       tag: string, forced: Option<CaseId>)
    requires (forall c :: c in ids ==> c in w.cases) && AllSound(w) && AllTrack(w) && ShortDigest(tag)
    requires |during| <= |clock| && RoundsCarryTokens(during, Calls(w, ids, during, clock, tag, forced))
    ensures EachCallFits(w, ids, during, clock, Calls(w, ids, during, clock, tag, forced))
    ensures AllTrack(AfterRounds(w, ids, during, clock))
    decreases |during|
  {
    hide Run, AllSound, AllTrack, CarriesTokens, IsCallFor, CallFits, RunInNumber, ReapedWorld, ShortDigest,
         CarriesNextTokens;
    var calls := Calls(w, ids, during, clock, tag, forced);
    if during != [] && Select(ids, w.cases, Pending) != [] {
      var claimable := Select(ids, w.cases, Pending);
      SelectMember(ids, w.cases, Pending);
      RoundKeepsCases(w, during[0], ids, clock[0]);
      assert CarriesTokens(during[0], calls[0]);
      CallTokensAreNext(w, claimable, tag, forced, during[0]);
      NextTokensTrack(w, during[0]);
      ReapedWorldTracks(Run(w, during[0]), ids, clock[0]);
      InputsAreFresh(w, claimable, tag, forced, calls[0]);
      var next := ReapedWorld(Run(w, during[0]), ids, clock[0]);
      assert calls[1..] == Calls(next, ids, during[1..], clock[1..], tag, None);
      forall k | 0 <= k < |calls[1..]| ensures CarriesTokens(during[1..][k], calls[1..][k]) {
        assert CarriesTokens(during[k + 1], calls[k + 1]);
      }
      RoundsTrack(next, ids, during[1..], clock[1..], tag, None);
    }
  }

  /** Initializing cases keeps tokens tracking. */
  lemma {:induction false} PreparedTracks(w: World, points: seq<CaseId>, now: Time)
    requires AllSound(w) && AllTrack(w)
    ensures AllSound(Prepared(w, points, now)) && AllTrack(Prepared(w, points, now))
    decreases |points|
  {
    hide Tracks, AllSound, AllTrack, Apply;
    if points != [] {
      var n := |points| - 1;
      PreparedTracks(w, points[..n], now);
      StepKeepsSound(Prepared(w, points[..n], now), InitializeOp(points[n], now));
      StepTracksExactly(Prepared(w, points[..n], now), InitializeOp(points[n], now));
    }
  }
}
