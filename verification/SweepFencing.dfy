/** The attempt tokens an orchestrator hands out, and what they fence. A token is numbered by the
    attempt it expects to become; a claim is fresh when that number is still the next one. */
module SweepFencing {
  import opened SweepRuns
  import opened SweepState
  import opened Wrappers

  function Digit(n: nat): char
    requires n < 10
  {
    '0' + n as char
  }

  /** Decimal numeral. */
  function Decimal(n: nat): (s: string)
    ensures |s| >= 1 && (n >= 10 ==> |s| >= 2)
    ensures forall i :: 0 <= i < |s| ==> '0' <= s[i] <= '9'
  {
    if n < 10 then [Digit(n)] else Decimal(n / 10) + [Digit(n % 10)]
  }

  /** Token of the n-th attempt of a case. */
  function AttemptName(n: nat, c: CaseId): AttemptId { "s" + Decimal(n) + "-" + c }

  /** Lease owner of the n-th attempt of a case; `sweep` is the short digest of the sweep. */
  function OwnerName(sweep: string, n: nat, c: CaseId): Owner { "sweep." + sweep + "." + Decimal(n) + "." + c }

  lemma {:induction false} DecimalInjective(n: nat, m: nat)
    requires Decimal(n) == Decimal(m)
    ensures n == m
    decreases n
  {
    var s, t := Decimal(n), Decimal(m);
    if n >= 10 && m >= 10 {
      assert s[|s| - 1] == Digit(n % 10) && t[|t| - 1] == Digit(m % 10);
      assert s[..|s| - 1] == Decimal(n / 10) && t[..|t| - 1] == Decimal(m / 10);
      DecimalInjective(n / 10, m / 10);
    }
  }

  /** The number that a numeral reads as. */
  ghost function Value(s: string): int {
    if s == [] then 0 else 10 * Value(s[..|s| - 1]) + (s[|s| - 1] as int - '0' as int)
  }

  /** A numeral reads as its number, and begins with no zero unless it is zero. */
  lemma {:induction false} DecimalReads(n: nat)
    ensures Value(Decimal(n)) == n && (n > 0 ==> Decimal(n)[0] != '0')
    decreases n
  {
    var s := Decimal(n);
    if n < 10 {
      assert s[..0] == [];
    } else {
      DecimalReads(n / 10);
      assert s[..|s| - 1] == Decimal(n / 10);
    }
  }

  /** The parts of the names, at their places. */
  lemma NamesRead(sweep: string, n: nat, c: CaseId)
    ensures AttemptName(n, c) == ['s'] + Decimal(n) + ['-'] + c
    ensures OwnerName(sweep, n, c) == ['s', 'w', 'e', 'e', 'p', '.'] + sweep + ['.'] + Decimal(n) + ['.'] + c
  {
    hide Decimal;
  }

  /** Tokens of one case differ when their numbers do. */
  lemma AttemptNameInjective(n: nat, m: nat, c: CaseId)
    ensures AttemptName(n, c) == AttemptName(m, c) <==> n == m
  {
    if AttemptName(n, c) == AttemptName(m, c) {
      var s := AttemptName(n, c);
      assert |Decimal(n)| == |Decimal(m)|;
      assert s[1..1 + |Decimal(n)|] == Decimal(n);
      assert s[1..1 + |Decimal(m)|] == Decimal(m);
      DecimalInjective(n, m);
    }
  }

  predicate ShortDigest(t: string) {
    |t| == 16 && forall i :: 0 <= i < 16 ==> '0' <= t[i] <= '9' || 'a' <= t[i] <= 'f'
  }

  /** Every name the orchestrator can issue passes the store's identity checks. */
  lemma NamesAreValid(sweep: string, n: nat, c: CaseId)
    requires ShortDigest(sweep) && ValidCaseId(c) && n < 10
    ensures ValidAttemptId(AttemptName(n, c)) && ValidOwner(OwnerName(sweep, n, c))
  {
  }

  /** The record's token is the one numbered by its attempt counter. */
  ghost predicate Tracks(s: CaseState) {
    s.attemptId == if s.attempt == 0 then None else Some(AttemptName(s.attempt, s.caseId))
  }

  /** Whether some claim could be granted on this record at this time. */
  predicate Claimable(s: CaseState, now: Time) {
    now >= s.updatedAt && (s.state == Pending || (LeaseOver(s, now) && s.attempt < MAX_SWEEP_ATTEMPTS))
  }

  /** A claim is in number on a record when its token is the next one, is the record's own, or finds
      nothing claimable. */
  ghost predicate InNumber(s: CaseState, a: AttemptId, now: Time) {
    a == AttemptName(s.attempt + 1, s.caseId) || s.attemptId == Some(a) || !Claimable(s, now)
  }

  /** A claim, under any token whatever, leaves the tokens tracking the counter exactly when it is in
      number. Any other claim breaks the numbering. */
  lemma ClaimTracksExactly(s: CaseState, a: AttemptId, owner: Owner, now: Time)
    requires Sound(s) && Tracks(s)
    ensures Tracks(Claimed(s, a, owner, now).record) <==> InNumber(s, a, now)
  {
    hide AttemptName;
    AttemptNameInjective(s.attempt, s.attempt + 1, s.caseId);
    GrantedExactly(s, a, owner, now);
    ReapedIsSound(s, now);
  }

  /** When a claim is granted, and what the record then says. */
  lemma GrantedExactly(s: CaseState, a: AttemptId, owner: Owner, now: Time)
    requires Sound(s)
    ensures var r := Claimed(s, a, owner, now).record;
      if Claimable(s, now) && s.attemptId != Some(a) then
        r.attempt == s.attempt + 1 && r.attemptId == Some(a) && r.leaseOwner == Some(owner) && r.state == Running
        && r.caseId == s.caseId && Claimed(s, a, owner, now).answer == Ok(Some(r))
      else r.attempt == s.attempt && r.attemptId == s.attemptId && r.caseId == s.caseId
  {
  }

  /** A fresh claim is never refused for its token: it is granted whenever anything is claimable, and
      otherwise answered that there is nothing to claim. */
  lemma FreshClaimAnswer(s: CaseState, owner: Owner, now: Time)
    requires Sound(s) && Tracks(s)
    ensures var o := Claimed(s, AttemptName(s.attempt + 1, s.caseId), owner, now);
      && o.answer != Err(AttemptReused) && o.answer != Err(AttemptBoundElsewhere)
      && (Claimable(s, now) ==> o.answer == Ok(Some(o.record)) && o.record.attempt == s.attempt + 1)
      && (!Claimable(s, now) ==> o.answer == Ok(None) || o.answer == Err(ClockRegression))
  {
    hide AttemptName;
    AttemptNameInjective(s.attempt + 1, s.attempt, s.caseId);
    GrantedExactly(s, AttemptName(s.attempt + 1, s.caseId), owner, now);
  }

  /** The fence. While tokens track the counter, whoever holds the token of attempt n can renew,
      complete or fail nothing but the live lease of attempt n itself. */
  lemma Fenced(s: CaseState, artifacts: set<Digest>, op: Op, n: nat)
    requires SoundIn(s, op.caseId, artifacts) && Tracks(s)
    requires op.RenewOp? || op.SucceedOp? || op.FailOp?
    requires op.attemptId == AttemptName(n, op.caseId)
    ensures RecordAfter(s, artifacts, op) != s ==>
      && n == s.attempt && s.state == Running && s.attemptId == Some(op.attemptId) && s.leaseOwner == Some(op.owner)
      && s.leaseExpiresAt.Some? && s.updatedAt <= op.now < s.leaseExpiresAt.value
  {
    hide AttemptName;
    AttemptNameInjective(n, s.attempt, s.caseId);
  }

  lemma OtherStepsTrack(s: CaseState, artifacts: set<Digest>, op: Op)
    requires SoundIn(s, op.caseId, artifacts) && Tracks(s) && !op.ClaimOp?
    ensures Tracks(RecordAfter(s, artifacts, op))
  {
    hide AttemptName;
  }

  ghost predicate AllTrack(w: World) {
    forall c :: c in w.cases ==> Tracks(w.cases[c])
  }

  /** An operation is in number in a world when it is no claim that the store would look at, or a claim
      that is in number on its record. */
  ghost predicate OpInNumber(w: World, op: Op) {
    op.ClaimOp? && WellNamed(op) && op.caseId in w.cases ==> InNumber(w.cases[op.caseId], op.attemptId, op.now)
  }

  /** One operation keeps all tokens tracking exactly when it is in number. */
  lemma StepTracksExactly(w: World, op: Op)
    requires AllSound(w) && AllTrack(w)
    ensures AllTrack(Apply(w, op)) <==> OpInNumber(w, op)
  {
    hide AttemptName, InNumber;
    if WellNamed(op) && !op.PublishOp? && op.caseId in w.cases {
      var s := w.cases[op.caseId];
      if op.ClaimOp? {
        ClaimTracksExactly(s, op.attemptId, op.owner, op.now);
        assert Apply(w, op).cases[op.caseId] == Claimed(s, op.attemptId, op.owner, op.now).record;
      } else {
        OtherStepsTrack(s, w.artifacts, op);
      }
    }
  }

  /** Every operation of a run is in number at the moment it is carried out. Fresh claims are, and so are
      repetitions of a live claim and claims that come too late to find anything. */
  ghost predicate RunInNumber(w: World, ops: seq<Op>) {
    forall k :: 0 <= k < |ops| ==> OpInNumber(Run(w, ops[..k]), ops[k])
  }

  /** The tokens track the counters before and after every operation of a run. */
  ghost predicate TracksThroughout(w: World, ops: seq<Op>) {
    forall k :: 0 <= k <= |ops| ==> AllTrack(Run(w, ops[..k]))
  }

  lemma {:induction false} PrefixTracks(w: World, ops: seq<Op>, k: nat)
    requires AllSound(w) && AllTrack(w) && RunInNumber(w, ops) && k <= |ops|
    ensures AllTrack(Run(w, ops[..k]))
    decreases k
  {
    hide AllTrack, AllSound, OpInNumber, Run;
    if k == 0 {
      NoOperations(w);
    } else {
      PrefixTracks(w, ops, k - 1);
      RunIsSound(w, ops[..k - 1]);
      StepTracksExactly(Run(w, ops[..k - 1]), ops[k - 1]);
      RunStep(w, ops, k - 1);
    }
  }

  /** Over every interleaving: tokens track counters throughout exactly when every claim is in number when
      it is made. */
  lemma RunTracksExactly(w: World, ops: seq<Op>)
    requires AllSound(w) && AllTrack(w)
    ensures TracksThroughout(w, ops) <==> RunInNumber(w, ops)
  {
    hide AllTrack, AllSound, OpInNumber, Run;
    if RunInNumber(w, ops) {
      forall k | 0 <= k <= |ops| ensures AllTrack(Run(w, ops[..k])) {
        PrefixTracks(w, ops, k);
      }
    }
    if TracksThroughout(w, ops) {
      forall k | 0 <= k < |ops| ensures OpInNumber(Run(w, ops[..k]), ops[k]) {
        RunIsSound(w, ops[..k]);
        RunStep(w, ops, k);
        assert AllTrack(Run(w, ops[..k + 1]));
        StepTracksExactly(Run(w, ops[..k]), ops[k]);
      }
    }
  }

  /** Over every run whose claims are in number, no worker ever changes the record of another attempt than
      its own: whenever the counter is not n, operations under token n leave everything alone. */
  lemma LostLeaseIsPowerless(w: World, ops: seq<Op>, op: Op, n: nat)
    requires AllSound(w) && AllTrack(w) && RunInNumber(w, ops)
    requires op.RenewOp? || op.SucceedOp? || op.FailOp?
    requires op.caseId in Run(w, ops).cases && op.attemptId == AttemptName(n, op.caseId)
    requires Run(w, ops).cases[op.caseId].attempt != n
    ensures Apply(Run(w, ops), op) == Run(w, ops)
  {
    var w' := Run(w, ops);
    RunIsSound(w, ops);
    PrefixTracks(w, ops, |ops|);
    assert ops[..|ops|] == ops;
    if WellNamed(op) {
      Fenced(w'.cases[op.caseId], w'.artifacts, op, n);
      assert w'.cases[op.caseId := w'.cases[op.caseId]] == w'.cases;
    }
  }

  /** Every claim carries a token that the orchestrator could have handed out for its case. */
  ghost predicate Numbered(ops: seq<Op>) {
    forall op :: op in ops && op.ClaimOp? ==> exists n: nat :: op.attemptId == AttemptName(n, op.caseId)
  }

  /** A renewal, completion or failure under the token of attempt n, on a case that is not at attempt n. */
  ghost predicate FromOtherAttempt(w: World, op: Op, n: nat) {
    && (op.RenewOp? || op.SucceedOp? || op.FailOp?) && op.attemptId == AttemptName(n, op.caseId)
    && op.caseId in w.cases && w.cases[op.caseId].attempt != n
  }

  /** The fence in one world: the holder of another attempt's token changes nothing. */
  ghost predicate FenceHolds(w: World) {
    forall op: Op, n: nat :: FromOtherAttempt(w, op, n) ==> Apply(w, op) == w
  }

  ghost predicate FenceHoldsThroughout(w: World, ops: seq<Op>) {
    forall k :: 0 <= k <= |ops| ==> FenceHolds(Run(w, ops[..k]))
  }

  lemma RunInNumberPrefix(w: World, ops: seq<Op>, k: nat)
    requires RunInNumber(w, ops) && k <= |ops|
    ensures RunInNumber(w, ops[..k])
  {
    hide OpInNumber, Run;
    forall i | 0 <= i < k ensures OpInNumber(Run(w, ops[..k][..i]), ops[..k][i]) {
      assert ops[..k][..i] == ops[..i];
    }
  }

  /** The lease that a granted claim takes. */
  lemma GrantedLease(s: CaseState, a: AttemptId, owner: Owner, now: Time)
    requires Sound(s) && Claimable(s, now) && s.attemptId != Some(a)
    ensures var r := Claimed(s, a, owner, now).record;
      HoldsLease(r, a, owner, now) && r.updatedAt == now && Sound(r) && r.attempt == s.attempt + 1
  {
  }

  lemma HolderEnds(r: CaseState, a: AttemptId, owner: Owner, e: Failure, now: Time)
    requires Sound(r) && HoldsLease(r, a, owner, now) && r.updatedAt == now
    ensures Fail(r, a, owner, e, now).record.state != Running
  {
  }

  /** A claim that is not in number breaks the fence at once: the token that it put on record is numbered
      otherwise than the record, and its holder can end the attempt. */
  lemma OutOfNumberBreaksFence(w: World, op: Op, n: nat)
    requires AllSound(w) && !OpInNumber(w, op) && op.attemptId == AttemptName(n, op.caseId)
    ensures !FenceHolds(Apply(w, op))
  {
    hide AttemptName, Claimed, Fail;
    var s, e := w.cases[op.caseId], Failure(RemoteExecution, true);
    assert SoundIn(s, op.caseId, w.artifacts);
    GrantedLease(s, op.attemptId, op.owner, op.now);
    var w' := Apply(w, op);
    var r := w'.cases[op.caseId];
    HolderEnds(r, op.attemptId, op.owner, e, op.now);
    var last := FailOp(op.caseId, op.attemptId, op.owner, e, op.now);
    assert FromOtherAttempt(w', last, n);
    assert Apply(w', last).cases[op.caseId] != r;
  }

  lemma {:induction false} FenceNumbersPrefix(w: World, ops: seq<Op>, k: nat)
    requires AllSound(w) && AllTrack(w) && Numbered(ops) && FenceHoldsThroughout(w, ops) && k <= |ops|
    ensures RunInNumber(w, ops[..k])
    decreases k
  {
    hide AllTrack, AllSound, OpInNumber, Run, FenceHolds;
    if k > 0 {
      FenceNumbersPrefix(w, ops, k - 1);
      var w', op := Run(w, ops[..k - 1]), ops[k - 1];
      RunIsSound(w, ops[..k - 1]);
      RunStep(w, ops, k - 1);
      assert FenceHolds(Run(w, ops[..k]));
      if !OpInNumber(w', op) {
        OnlyClaimsOutOfNumber(w', op);
        var n: nat :| op.attemptId == AttemptName(n, op.caseId);
        OutOfNumberBreaksFence(w', op, n);
      }
      forall i | 0 <= i < k ensures OpInNumber(Run(w, ops[..k][..i]), ops[..k][i]) {
        assert ops[..k][..i] == ops[..i];
        if i < k - 1 {
          assert ops[..k - 1][..i] == ops[..i];
          assert OpInNumber(Run(w, ops[..k - 1][..i]), ops[..k - 1][i]);
        }
      }
    }
  }

  lemma OnlyClaimsOutOfNumber(w: World, op: Op)
    ensures !OpInNumber(w, op) ==> op.ClaimOp?
  {
  }

  /** The fencing theorem. Over every interleaving of numbered claims and of anything else, the fence holds
      before and after every operation exactly when every claim is in number when it is made. */
  lemma FenceHoldsExactly(w: World, ops: seq<Op>)
    requires AllSound(w) && AllTrack(w) && Numbered(ops)
    ensures FenceHoldsThroughout(w, ops) <==> RunInNumber(w, ops)
  {
    hide AllTrack, AllSound, Run, RunInNumber, Numbered, AttemptName, Apply;
    if RunInNumber(w, ops) {
      forall k, op: Op, n: nat | 0 <= k <= |ops| && FromOtherAttempt(Run(w, ops[..k]), op, n)
        ensures Apply(Run(w, ops[..k]), op) == Run(w, ops[..k])
      {
        RunInNumberPrefix(w, ops, k);
        LostLeaseIsPowerless(w, ops[..k], op, n);
      }
    }
    if FenceHoldsThroughout(w, ops) {
      FenceNumbersPrefix(w, ops, |ops|);
      assert ops[..|ops|] == ops;
    }
  }

  /** The claims of a stretch of operations all carry the token that comes next in a given world. */
  ghost predicate CarriesNextTokens(w: World, ops: seq<Op>) {
    forall op :: op in ops && op.ClaimOp? ==>
      op.caseId in w.cases && op.attemptId == AttemptName(w.cases[op.caseId].attempt + 1, op.caseId)
  }

  /** While only next tokens are claimed, no case gets past its next attempt. */
  ghost predicate AtMostNext(w: World, w': World) {
    forall c :: c in w.cases ==> c in w'.cases && w.cases[c].attempt <= w'.cases[c].attempt <= w.cases[c].attempt + 1
  }

  /** On one record: the token numbered n + 1 takes a counter that is n or n + 1 to n + 1 at most. */
  lemma NextTokenRecord(s: CaseState, artifacts: set<Digest>, op: Op, n: nat)
    requires SoundIn(s, op.caseId, artifacts) && Tracks(s) && n <= s.attempt <= n + 1
    requires op.ClaimOp? ==> op.attemptId == AttemptName(n + 1, op.caseId)
    ensures op.ClaimOp? ==> InNumber(s, op.attemptId, op.now)
    ensures n <= RecordAfter(s, artifacts, op).attempt <= n + 1
  {
    hide AttemptName, Claimed;
    if op.ClaimOp? {
      GrantedExactly(s, op.attemptId, op.owner, op.now);
    } else {
      OthersKeepAttempt(s, artifacts, op);
    }
  }

  lemma NextTokenStep(w: World, w': World, op: Op)
    requires AllSound(w') && AllTrack(w') && AtMostNext(w, w')
    requires op.ClaimOp? ==>
      op.caseId in w.cases && op.attemptId == AttemptName(w.cases[op.caseId].attempt + 1, op.caseId)
    ensures OpInNumber(w', op) && AtMostNext(w, Apply(w', op))
  {
    hide AttemptName, InNumber, Tracks, RecordAfter, WellNamed;
    if WellNamed(op) && !op.PublishOp? && op.caseId in w'.cases && op.caseId in w.cases {
      NextTokenRecord(w'.cases[op.caseId], w'.artifacts, op, w.cases[op.caseId].attempt);
    }
  }

  lemma OthersKeepAttempt(s: CaseState, artifacts: set<Digest>, op: Op)
    requires SoundIn(s, op.caseId, artifacts) && !op.ClaimOp?
    ensures RecordAfter(s, artifacts, op).attempt == s.attempt
  {
  }

  lemma {:induction false} NextTokensTrackFrom(w: World, w': World, ops: seq<Op>)
    requires AllSound(w') && AllTrack(w') && AtMostNext(w, w') && CarriesNextTokens(w, ops)
    ensures AllTrack(Run(w', ops)) && AtMostNext(w, Run(w', ops))
    decreases |ops|
  {
    hide AllTrack, AllSound, OpInNumber, AtMostNext;
    if ops != [] {
      assert ops[0] in ops;
      NextTokenStep(w, w', ops[0]);
      StepTracksExactly(w', ops[0]);
      StepKeepsSound(w', ops[0]);
      NextTokensTrackFrom(w, Apply(w', ops[0]), ops[1..]);
    }
  }

  /** If every claim of a stretch carries the token that came next at its start, once or many times, live
      or late, then every claim is in number and tokens track counters at its end. */
  lemma NextTokensTrack(w: World, ops: seq<Op>)
    requires AllSound(w) && AllTrack(w) && CarriesNextTokens(w, ops)
    ensures RunInNumber(w, ops) && AllTrack(Run(w, ops))
  {
    hide AllTrack, AllSound, OpInNumber, AtMostNext, Run;
    NothingPassed(w);
    NextTokensTrackFrom(w, w, ops);
    forall k | 0 <= k < |ops| ensures OpInNumber(Run(w, ops[..k]), ops[k]) {
      assert forall op :: op in ops[..k] ==> op in ops;
      NextTokensTrackFrom(w, w, ops[..k]);
      RunIsSound(w, ops[..k]);
      assert ops[k] in ops;
      NextTokenStep(w, Run(w, ops[..k]), ops[k]);
    }
  }

  lemma NothingPassed(w: World)
    ensures AtMostNext(w, w)
  {
  }

  const SOME_CASE: CaseId := "00000000000000000000"

  /** A claim that was queued long enough to lose its freshness. The worker of attempt 1 loses its
      lease; attempt 2 runs and fails retryably; a duplicate of the first claim, still numbered 1, is
      then granted as attempt 3 with the token and owner of attempt 1. */
  function StaleClaimHistory(owner1: Owner, owner2: Owner): seq<Op> {
    [InitializeOp(SOME_CASE, 0),
     ClaimOp(SOME_CASE, AttemptName(1, SOME_CASE), owner1, 0),
     ClaimOp(SOME_CASE, AttemptName(2, SOME_CASE), owner2, LEASE_DURATION),
     FailOp(SOME_CASE, AttemptName(2, SOME_CASE), owner2, Failure(RemoteExecution, true), LEASE_DURATION),
     ClaimOp(SOME_CASE, AttemptName(1, SOME_CASE), owner1, LEASE_DURATION)]
  }

  function SecondClaimed(a2: AttemptId, owner2: Owner): CaseState {
    CaseState(SOME_CASE, Running, 3, 2, Some(a2), Some(owner2), Some(2 * LEASE_DURATION), None, None, [LeaseExpired],
              LEASE_DURATION)
  }

  lemma EarlierStaleRecords(a1: AttemptId, a2: AttemptId, owner1: Owner, owner2: Owner)
    requires a1 != a2
    ensures Claimed(Claimed(Initial(SOME_CASE, 0), a1, owner1, 0).record, a2, owner2, LEASE_DURATION).record
      == SecondClaimed(a2, owner2)
  {
    assert Claimed(Initial(SOME_CASE, 0), a1, owner1, 0).record
        == CaseState(SOME_CASE, Running, 1, 1, Some(a1), Some(owner1), Some(LEASE_DURATION), None, None, [], 0);
  }

  lemma LaterStaleRecords(a1: AttemptId, a2: AttemptId, owner1: Owner, owner2: Owner) returns (r5: CaseState)
    requires a1 != a2
    ensures var r4 := Fail(SecondClaimed(a2, owner2), a2, owner2, Failure(RemoteExecution, true),
                           LEASE_DURATION).record;
      r5 == Claimed(r4, a1, owner1, LEASE_DURATION).record
    ensures r5.state == Running && r5.attempt == 3 && HoldsLease(r5, a1, owner1, LEASE_DURATION)
    ensures Coherent(r5) && r5.updatedAt == LEASE_DURATION
  {
    var r4 := Fail(SecondClaimed(a2, owner2), a2, owner2, Failure(RemoteExecution, true), LEASE_DURATION).record;
    assert r4 == CaseState(SOME_CASE, Pending, 4, 2, Some(a2), None, None, None, Some(RemoteExecution),
                           [LeaseExpired, RemoteExecution], LEASE_DURATION);
    r5 := Claimed(r4, a1, owner1, LEASE_DURATION).record;
  }

  /** A world holding one record of that case. */
  function OneCase(s: CaseState, artifacts: set<Digest>): World { World(map[SOME_CASE := s], artifacts) }

  lemma ApplyToOneCase(s: CaseState, artifacts: set<Digest>, op: Op)
    requires WellNamed(op) && !op.PublishOp? && op.caseId == SOME_CASE
    ensures Apply(OneCase(s, artifacts), op) == OneCase(RecordAfter(s, artifacts, op), artifacts)
  {
  }

  lemma TokensValid(owner: Owner, n: nat, now: Time, e: Failure, d: Digest)
    requires ValidOwner(owner) && n < 10
    ensures var a := AttemptName(n, SOME_CASE);
      && WellNamed(ClaimOp(SOME_CASE, a, owner, now)) && WellNamed(FailOp(SOME_CASE, a, owner, e, now))
      && WellNamed(SucceedOp(SOME_CASE, a, owner, d, now)) && WellNamed(InitializeOp(SOME_CASE, now))
      && WellNamed(PublishOp(SOME_CASE, d.payload))
  {
    NamesAreValid("0000000000000000", n, SOME_CASE);
  }

  lemma StaleHistoryListed(owner1: Owner, owner2: Owner, payload: nat)
    ensures var a1, a2, e := AttemptName(1, SOME_CASE), AttemptName(2, SOME_CASE), Failure(RemoteExecution, true);
      StaleClaimHistory(owner1, owner2) + [PublishOp(SOME_CASE, payload)]
      == [InitializeOp(SOME_CASE, 0), ClaimOp(SOME_CASE, a1, owner1, 0), ClaimOp(SOME_CASE, a2, owner2, LEASE_DURATION),
          FailOp(SOME_CASE, a2, owner2, e, LEASE_DURATION), ClaimOp(SOME_CASE, a1, owner1, LEASE_DURATION),
          PublishOp(SOME_CASE, payload)]
  {
    hide AttemptName;
  }

  lemma FirstAndLastOfOneCase(s: CaseState, payload: nat)
    requires WellNamed(InitializeOp(SOME_CASE, 0)) && WellNamed(PublishOp(SOME_CASE, payload))
    ensures Apply(EmptyWorld, InitializeOp(SOME_CASE, 0)) == OneCase(Initial(SOME_CASE, 0), {})
    ensures Apply(OneCase(s, {}), PublishOp(SOME_CASE, payload)) == OneCase(s, {Digest(SOME_CASE, payload)})
  {
    hide WellNamed;
  }

  /** The world after that history and one publication. */
  lemma StaleWorld(owner1: Owner, owner2: Owner, payload: nat) returns (r: CaseState)
    requires ValidOwner(owner1) && ValidOwner(owner2)
    ensures Run(EmptyWorld, StaleClaimHistory(owner1, owner2) + [PublishOp(SOME_CASE, payload)])
         == OneCase(r, {Digest(SOME_CASE, payload)})
    ensures r.state == Running && r.attempt == 3 && HoldsLease(r, AttemptName(1, SOME_CASE), owner1, LEASE_DURATION)
    ensures Coherent(r) && r.updatedAt == LEASE_DURATION
  {
    var e, d := Failure(RemoteExecution, true), Digest(SOME_CASE, payload);
    TokensValid(owner1, 1, 0, e, d);
    TokensValid(owner1, 1, LEASE_DURATION, e, d);
    TokensValid(owner2, 2, LEASE_DURATION, e, d);
    AttemptNameInjective(1, 2, SOME_CASE);
    hide AttemptName, WellNamed, Claimed, Fail, ValidOwner, Run, Apply, OneCase, SecondClaimed;
    var a1, a2 := AttemptName(1, SOME_CASE), AttemptName(2, SOME_CASE);
    EarlierStaleRecords(a1, a2, owner1, owner2);
    r := LaterStaleRecords(a1, a2, owner1, owner2);
    var r3 := SecondClaimed(a2, owner2);
    var r0 := Initial(SOME_CASE, 0);
    var r1 := Claimed(r0, a1, owner1, 0).record;
    var r4 := Fail(r3, a2, owner2, e, LEASE_DURATION).record;
    RunSix(EmptyWorld, InitializeOp(SOME_CASE, 0), ClaimOp(SOME_CASE, a1, owner1, 0),
           ClaimOp(SOME_CASE, a2, owner2, LEASE_DURATION), FailOp(SOME_CASE, a2, owner2, e, LEASE_DURATION),
           ClaimOp(SOME_CASE, a1, owner1, LEASE_DURATION), PublishOp(SOME_CASE, payload));
    ApplyToOneCase(r0, {}, ClaimOp(SOME_CASE, a1, owner1, 0));
    ApplyToOneCase(r1, {}, ClaimOp(SOME_CASE, a2, owner2, LEASE_DURATION));
    ApplyToOneCase(r3, {}, FailOp(SOME_CASE, a2, owner2, e, LEASE_DURATION));
    ApplyToOneCase(r4, {}, ClaimOp(SOME_CASE, a1, owner1, LEASE_DURATION));
    FirstAndLastOfOneCase(r, payload);
    StaleHistoryListed(owner1, owner2, payload);
  }

  /** Without freshness the fence fails: after that history the worker that lost the lease of
      attempt 1 completes attempt 3. */
  lemma StaleClaimDefeatsFence(owner1: Owner, owner2: Owner, payload: nat)
    requires ValidOwner(owner1) && ValidOwner(owner2)
    ensures var w := Run(EmptyWorld, StaleClaimHistory(owner1, owner2) + [PublishOp(SOME_CASE, payload)]);
            var op := SucceedOp(SOME_CASE, AttemptName(1, SOME_CASE), owner1, Digest(SOME_CASE, payload),
                                LEASE_DURATION);
      && SOME_CASE in w.cases && w.cases[SOME_CASE].attempt == 3 && w.cases[SOME_CASE].state == Running
      && SOME_CASE in Apply(w, op).cases && Apply(w, op).cases[SOME_CASE].state == Succeeded
  {
    var d := Digest(SOME_CASE, payload);
    var r := StaleWorld(owner1, owner2, payload);
    TokensValid(owner1, 1, LEASE_DURATION, Failure(RemoteExecution, true), d);
    hide AttemptName, WellNamed, Run, ValidOwner;
    ApplyToOneCase(r, {d}, SucceedOp(SOME_CASE, AttemptName(1, SOME_CASE), owner1, d, LEASE_DURATION));
  }

  lemma RunSix(w: World, o0: Op, o1: Op, o2: Op, o3: Op, o4: Op, o5: Op)
    ensures Run(w, [o0, o1, o2, o3, o4, o5]) == Apply(Apply(Apply(Apply(Apply(Apply(w, o0), o1), o2), o3), o4), o5)
  {
    hide Apply;
    var w1 := Apply(w, o0);
    var w2 := Apply(w1, o1);
    var w3 := Apply(w2, o2);
    var w4 := Apply(w3, o3);
    assert Run(w, [o0, o1, o2, o3, o4, o5]) == Run(w1, [o1, o2, o3, o4, o5]);
    assert Run(w1, [o1, o2, o3, o4, o5]) == Run(w2, [o2, o3, o4, o5]);
    assert Run(w2, [o2, o3, o4, o5]) == Run(w3, [o3, o4, o5]);
    assert Run(w3, [o3, o4, o5]) == Run(w4, [o4, o5]);
    var w5 := Apply(w4, o4);
    assert Run(w4, [o4, o5]) == Run(w5, [o5]);
    assert Run(w5, [o5]) == Run(Apply(w5, o5), []);
  }
}
