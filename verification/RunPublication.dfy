/** Publication of run artifacts by any number of concurrent publishers, each of which may crash or
    hit an I/O error between any two effects: stage, verify, mark, and rename into place. */
module RunPublication {
  import opened SweepState

  /** A file that is absent, only partly written, or whole. */
  datatype File<+T> = Absent | Torn | Whole(content: T)

  datatype Fields = Fields(bytes: nat)

  /** Run metadata. Its digest covers the case; `fields` stands for the hash of the fields archive, and
      `clock` for the wall-clock stamps that the digest leaves out. */
  datatype Metadata = Metadata(digest: Digest, fields: Fields, clock: nat)

  /** A run directory: fields archive, metadata, and the marker holding the hash of the metadata. */
  datatype Directory = Directory(fields: File<Fields>, metadata: File<Metadata>, marker: File<Metadata>)

  const EmptyDirectory := Directory(Absent, Absent, Absent)

  /** A directory opens as the run of a digest when it is marked, the marker binds the metadata, and the
      metadata binds the fields and names that digest. */
  predicate Opens(dir: Directory, d: Digest) {
    && dir.fields.Whole? && dir.metadata.Whole? && dir.marker.Whole?
    && dir.marker.content == dir.metadata.content
    && dir.metadata.content.digest == d
    && dir.metadata.content.fields == dir.fields.content
  }

  /** What opens as the run of a digest is one metadata document of that digest, the fields that it names, and a
      marker for it. */
  lemma OpensExactly(dir: Directory, d: Digest)
    ensures Opens(dir, d) <==>
      exists m: Metadata :: m.digest == d && dir == Directory(Whole(m.fields), Whole(m), Whole(m))
  {
    if Opens(dir, d) {
      var m := dir.metadata.content;
      assert dir == Directory(Whole(m.fields), Whole(m), Whole(m));
    }
  }

  datatype Phase =
    | Start | Staged | FieldsPartial | FieldsWritten | MetadataPartial | MetadataWritten
    | Checked | MarkerPartial | Marked | Returned | Abandoned | Crashed

  datatype Publisher = Publisher(metadata: Metadata, fields: Fields, phase: Phase)

  /** Disk and publishers; a publisher's staging directory carries its own key. */
  datatype System = System(targets: map<Digest, Directory>, staging: map<nat, Directory>,
    publishers: map<nat, Publisher>)

  datatype Action = Begin(metadata: Metadata, fields: Fields) | Advance | Fault | Crash

  function Move(s: System, p: nat, phase: Phase): System
    requires p in s.publishers
  {
    s.(publishers := s.publishers[p := s.publishers[p].(phase := phase)])
  }

  function Stage(s: System, p: nat, dir: Directory, phase: Phase): System
    requires p in s.publishers
  {
    Move(s.(staging := s.staging[p := dir]), p, phase)
  }

  /** Leaving the transaction removes the staging directory if it is still there. */
  function Leave(s: System, p: nat, phase: Phase): System
    requires p in s.publishers
  {
    Move(s.(staging := s.staging - {p}), p, phase)
  }

  /** Adopt what already stands at the target, if it opens. */
  function Adopt(s: System, p: nat): System
    requires p in s.publishers && s.publishers[p].metadata.digest in s.targets
  {
    var d := s.publishers[p].metadata.digest;
    Leave(s, p, if Opens(s.targets[d], d) then Returned else Abandoned)
  }

  /** The next effect of a publisher. */
  function Next(s: System, p: nat): System
    requires p in s.publishers
  {
    var me := s.publishers[p];
    var d := me.metadata.digest;
    var dir := if p in s.staging then s.staging[p] else EmptyDirectory;
    match me.phase
    case Start => if d in s.targets then Adopt(s, p) else Stage(s, p, EmptyDirectory, Staged)
    case Staged => Stage(s, p, dir.(fields := Torn), FieldsPartial)
    case FieldsPartial => Stage(s, p, dir.(fields := Whole(me.fields)), FieldsWritten)
    case FieldsWritten => Stage(s, p, dir.(metadata := Torn), MetadataPartial)
    case MetadataPartial => Stage(s, p, dir.(metadata := Whole(me.metadata)), MetadataWritten)
    case MetadataWritten =>
      if dir.fields == Whole(me.metadata.fields) && dir.metadata == Whole(me.metadata) then Move(s, p, Checked)
      else Leave(s, p, Abandoned)
    case Checked => Stage(s, p, dir.(marker := Torn), MarkerPartial)
    case MarkerPartial => Stage(s, p, dir.(marker := Whole(me.metadata)), Marked)
    case Marked =>
      if d in s.targets then Adopt(s, p)
      else Leave(s.(targets := s.targets[d := dir]), p, Returned)
    case Returned => s
    case Abandoned => s
    case Crashed => s
  }

  predicate Finished(phase: Phase) { phase in {Returned, Abandoned, Crashed} }

  function Step(s: System, p: nat, a: Action): System {
    match a
    case Begin(m, f) => if p in s.publishers then s else s.(publishers := s.publishers[p := Publisher(m, f, Start)])
    case Advance => if p in s.publishers then Next(s, p) else s
    case Fault => if p in s.publishers && !Finished(s.publishers[p].phase) then Leave(s, p, Abandoned) else s
    case Crash => if p in s.publishers && !Finished(s.publishers[p].phase) then Move(s, p, Crashed) else s
  }

  function Trace(s: System, steps: seq<(nat, Action)>): System
    decreases |steps|
  {
    if steps == [] then s else Trace(Step(s, steps[0].0, steps[0].1), steps[1..])
  }

  /** How far a publisher has got, as a number of completed effects. */
  function Rank(phase: Phase): nat {
    match phase
    case Start => 0
    case Staged => 1
    case FieldsPartial => 1
    case FieldsWritten => 2
    case MetadataPartial => 2
    case MetadataWritten => 3
    case Checked => 4
    case MarkerPartial => 4
    case Marked => 5
    case _ => 6
  }

  ghost predicate PublisherOk(s: System, p: nat) {
    p in s.publishers ==>
      var me := s.publishers[p];
      && (1 <= Rank(me.phase) <= 5 ==> p in s.staging)
      && (2 <= Rank(me.phase) <= 5 ==> s.staging[p].fields == Whole(me.fields))
      && (3 <= Rank(me.phase) <= 5 ==> s.staging[p].metadata == Whole(me.metadata))
      && (4 <= Rank(me.phase) <= 5 ==> me.fields == me.metadata.fields)
      && (5 == Rank(me.phase) ==> s.staging[p].marker == Whole(me.metadata))
      && (me.phase == Returned ==> me.metadata.digest in s.targets)
      && (me.phase in {Start, Returned, Abandoned} ==> p !in s.staging)
  }

  ghost predicate TargetsComplete(s: System) {
    forall d :: d in s.targets ==> Opens(s.targets[d], d)
  }

  ghost predicate Safe(s: System) {
    TargetsComplete(s) && (forall p :: PublisherOk(s, p)) && forall p :: p in s.staging ==> p in s.publishers
  }

  /** Only crashed publishers leave staging directories behind. */
  lemma OnlyCrashesLeaveStaging(s: System, p: nat)
    requires Safe(s) && p in s.staging
    ensures p in s.publishers && s.publishers[p].phase !in {Start, Returned, Abandoned}
  {
    assert PublisherOk(s, p);
  }

  /** Targets present before are present after, byte for byte. */
  ghost predicate TargetsKept(s: System, t: System) {
    forall d :: d in s.targets ==> d in t.targets && t.targets[d] == s.targets[d]
  }

  lemma StepIsSafe(s: System, p: nat, a: Action)
    requires Safe(s)
    ensures Safe(Step(s, p, a)) && TargetsKept(s, Step(s, p, a))
  {
    var t := Step(s, p, a);
    assert PublisherOk(s, p);
    OwnPublisher(s, p, a);
    StagingOwned(s, p, a);
    forall q ensures PublisherOk(t, q) {
      if q != p {
        assert PublisherOk(s, q);
        OtherPublisher(s, p, a, q);
      }
    }
  }

  lemma StagingOwned(s: System, p: nat, a: Action)
    requires forall q :: q in s.staging ==> q in s.publishers
    ensures forall q :: q in Step(s, p, a).staging ==> q in Step(s, p, a).publishers
  {
  }

  /** The steps that can touch a target: adopting one, or renaming into place. */
  lemma OwnTarget(s: System, p: nat)
    requires p in s.publishers && TargetsComplete(s) && PublisherOk(s, p) && s.publishers[p].phase in {Start, Marked}
    ensures TargetsComplete(Next(s, p)) && TargetsKept(s, Next(s, p)) && PublisherOk(Next(s, p), p)
  {
  }

  /** The steps inside the staging directory. */
  lemma OwnStaging(s: System, p: nat)
    requires p in s.publishers && TargetsComplete(s) && PublisherOk(s, p) && s.publishers[p].phase !in {Start, Marked}
    ensures Next(s, p).targets == s.targets && PublisherOk(Next(s, p), p)
  {
  }

  lemma OwnPublisher(s: System, p: nat, a: Action)
    requires TargetsComplete(s) && PublisherOk(s, p) && (p in s.staging ==> p in s.publishers)
    ensures TargetsComplete(Step(s, p, a)) && TargetsKept(s, Step(s, p, a)) && PublisherOk(Step(s, p, a), p)
  {
    hide Next;
    if a.Advance? && p in s.publishers {
      if s.publishers[p].phase in {Start, Marked} {
        OwnTarget(s, p);
      } else {
        OwnStaging(s, p);
      }
    }
  }

  /** A publisher's own effects reach no other staging directory and lose no target. */
  lemma NextLeavesOthers(s: System, p: nat, q: nat)
    requires q != p && p in s.publishers
    ensures var t := Next(s, p);
      && (q in s.publishers <==> q in t.publishers) && (q in s.publishers ==> t.publishers[q] == s.publishers[q])
      && (q in s.staging <==> q in t.staging) && (q in s.staging ==> t.staging[q] == s.staging[q])
      && s.targets.Keys <= t.targets.Keys
  {
  }

  lemma OtherPublisher(s: System, p: nat, a: Action, q: nat)
    requires q != p && PublisherOk(s, q)
    ensures PublisherOk(Step(s, p, a), q)
  {
    if a.Advance? && p in s.publishers {
      NextLeavesOthers(s, p, q);
    }
    hide Next;
  }

  /** In every interleaving of publishers, with crashes and I/O errors at any point, a target is either
      absent or a complete run of its own digest, it never changes once present, and a publisher that
      returned a reference left its target in place. */
  lemma {:induction false} PublicationIsCrashSafe(s: System, steps: seq<(nat, Action)>)
    requires Safe(s)
    ensures Safe(Trace(s, steps)) && TargetsKept(s, Trace(s, steps))
    decreases |steps|
  {
    if steps != [] {
      StepIsSafe(s, steps[0].0, steps[0].1);
      PublicationIsCrashSafe(Step(s, steps[0].0, steps[0].1), steps[1..]);
    }
  }

  /** What stands at a target is whole: metadata of that digest, the fields it names, and a marker for it. */
  lemma TargetsAreWhole(s: System, d: Digest)
    requires Safe(s) && d in s.targets
    ensures exists m: Metadata :: m.digest == d && s.targets[d] == Directory(Whole(m.fields), Whole(m), Whole(m))
  {
    OpensExactly(s.targets[d], d);
  }

  /** Seen from the sweep, a step of publication either changes nothing or publishes one run: exactly
      the published digests verify, and they only grow. */
  lemma StepRefinesPublish(s: System, p: nat, a: Action)
    requires Safe(s)
    ensures var t := Step(s, p, a);
      && (t.targets.Keys == s.targets.Keys
          || (p in s.publishers
              && var m := s.publishers[p].metadata;
                 && t.targets == s.targets[m.digest := Directory(Whole(m.fields), Whole(m), Whole(m))]
                 && s.publishers[p].fields == m.fields))
      && forall d :: d in t.targets && Opens(t.targets[d], d) <==> Verifies(t.targets.Keys, d.caseId, d)
  {
    StepIsSafe(s, p, a);
    assert TargetsComplete(Step(s, p, a)) && PublisherOk(s, p);
  }

  /** A publisher left alone on a sound disk finishes and leaves its run published, also when the same
      digest was published before with other wall-clock stamps. */
  lemma LonePublisherReturns(s: System, p: nat)
    requires Safe(s) && p in s.publishers && s.publishers[p].phase == Start
    requires s.publishers[p].fields == s.publishers[p].metadata.fields
    ensures var d := s.publishers[p].metadata.digest;
            var t := Trace(s, Advances(p, 9));
      d in t.targets && p in t.publishers && t.publishers[p].phase == Returned
  {
    LoneTrace(s, p, 9);
  }

  function Advances(p: nat, n: nat): seq<(nat, Action)> {
    if n == 0 then [] else [(p, Advance)] + Advances(p, n - 1)
  }

  /** Effects left before a publisher returns. */
  function Remaining(phase: Phase): nat {
    match phase
    case Start => 9
    case Staged => 8
    case FieldsPartial => 7
    case FieldsWritten => 6
    case MetadataPartial => 5
    case MetadataWritten => 4
    case Checked => 3
    case MarkerPartial => 2
    case Marked => 1
    case _ => 0
  }

  lemma {:induction false} LoneTrace(s: System, p: nat, n: nat)
    requires Safe(s) && p in s.publishers && Remaining(s.publishers[p].phase) <= n
    requires s.publishers[p].phase !in {Abandoned, Crashed}
    requires s.publishers[p].fields == s.publishers[p].metadata.fields
    ensures var t := Trace(s, Advances(p, n));
      s.publishers[p].metadata.digest in t.targets && p in t.publishers && t.publishers[p].phase == Returned
    decreases n
  {
    assert PublisherOk(s, p);
    if n > 0 {
      StepIsSafe(s, p, Advance);
      var t := Step(s, p, Advance);
      assert t.publishers[p].metadata == s.publishers[p].metadata && t.publishers[p].fields == s.publishers[p].fields;
      LoneTrace(t, p, n - 1);
    }
  }
}
