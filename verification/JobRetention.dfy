/** How long a finished job can be asked for: an hour from its end, whatever else happens in it, and no longer. */
module JobRetention {
  import Admission
  import opened JobRecords
  import opened JobStore
  import opened JobStreams
  import opened SolveJobs
  import opened SolveService
  import opened Wrappers

  /** Let these things happen, one after the other. */
  method Pass(m: SolveJobManager, guard: Admission.AdmissionController, happenings: seq<Happening>, id: JobId)
    requires m.Valid() && guard.Valid() && NewIds(happenings, m.history.Keys) && id in m.records && Over(m.records[id])
    modifies m, guard
    ensures m.Valid() && guard.Valid() && (m.closed ==> old(m.closed) || Closes in happenings)
    ensures id in m.history && forall x :: x in m.history ==> x in old(m.history) || x in IssuedBy(happenings)
    ensures id in m.records ==> m.records[id] == old(m.records[id]) || m.records[id].state == Expired
    ensures (forall h :: h in happenings ==> Before(h, old(m.records[id].terminalAt).value + 3_600_000_000)) ==>
      id in m.records && m.records[id] == old(m.records[id])
  {
    hide SolveJobManager.Valid, Admission.AdmissionController.Valid, Grown, Issued, Before, RecordSound;
    ghost var was := m.records[id];
    ghost var known := m.history.Keys;
    ManagerSound(m);
    for k := 0 to |happenings|
      invariant m.Valid() && guard.Valid() && id in known && known <= m.history.Keys
      invariant m.closed ==> old(m.closed) || Closes in happenings[..k]
      invariant m.history.Keys <= known + IssuedBy(happenings[..k])
      invariant id in m.records ==> m.records[id] == was || m.records[id].state == Expired
      invariant (forall h :: h in happenings[..k] ==> Before(h, was.terminalAt.value + 3_600_000_000)) ==>
        id in m.records && m.records[id] == was
    {
      IssuedApart(happenings, k, known);
      assert happenings[..k + 1] == happenings[..k] + [happenings[k]];
      IssuedOneMore(happenings[..k], happenings[k]);
      ghost var before := m.history;
      Happen(m, guard, happenings[k]);
      GrownKeys(before, m.history);
      assert happenings[k] in happenings[..k + 1] && forall h :: h in happenings[..k] ==> h in happenings[..k + 1];
    }
    assert happenings[..|happenings|] == happenings;
  }

  lemma GrownKeys(h: History, h': History)
    requires Grown(h, h')
    ensures h.Keys <= h'.Keys
  {
  }

  ghost function IssuedBy(happenings: seq<Happening>): set<JobId> {
    set h, id | h in happenings && id in Issued(h) :: id
  }

  lemma IssuedOneMore(happenings: seq<Happening>, h: Happening)
    ensures IssuedBy(happenings + [h]) == IssuedBy(happenings) + Issued(h)
  {
    hide Issued;
    forall id ensures id in IssuedBy(happenings + [h]) <==> id in IssuedBy(happenings) + Issued(h) {
      if id in Issued(h) {
        assert h in happenings + [h];
      }
      if id in IssuedBy(happenings) {
        var x :| x in happenings && id in Issued(x);
        assert x in happenings + [h];
      }
    }
  }

  lemma IssuedApart(happenings: seq<Happening>, k: nat, known: set<JobId>)
    requires NewIds(happenings, known) && k < |happenings|
    ensures Issued(happenings[k]) !! known + IssuedBy(happenings[..k])
  {
    hide Issued;
  }

  /** A job that is over is retained for an hour. After everything that can happen within the hour it answers a poll
      with the record it ended with, result, error and events included, and its key still answers for it: the same
      request gets the same job again, and another request a conflict. */
  method RetainedForAnHour(m: SolveJobManager, guard: Admission.AdmissionController, happenings: seq<Happening>,
                           id: JobId, polled: Time, again: Happening)
      returns (status: Result<JobRecord, JobError>, replay: Result<Accepted, SubmitError>)
    requires m.Valid() && guard.Valid() && id in m.records && Over(m.records[id]) && !m.closed
    requires Closes !in happenings && NewIds(happenings + [again], m.history.Keys)
    requires var deadline := m.records[id].terminalAt.value + 3_600_000_000;
      && (forall h :: h in happenings ==> Before(h, deadline)) && polled < deadline
      && again.Submits? && again.now < deadline && again.key == m.records[id].key
    modifies m, guard
    ensures m.Valid() && guard.Valid()
    ensures status == Ok(old(m.records[id]))
    ensures again.key.Some? && ValidKey(again.key.value) ==>
      replay == if again.requestSha == old(m.records[id]).requestSha then Ok(old(m.records[id]).accepted)
                else Err(Conflict)
  {
    hide SolveJobManager.Valid, Admission.AdmissionController.Valid, Before, Swept, Active, ExpireOne, ExpiredAt,
         Created, Admission.AdmissionController.Allows, StoreSound;
    ghost var was, known := m.records[id], m.history.Keys;
    NewIdsSplit(happenings, again, known);
    Pass(m, guard, happenings, id);
    ManagerSound(m);
    RetainedExactly(was, polled) by { RecordOf(m.Contents(), id); }
    ExpireOneRecords(m.Contents(), id, polled);
    assert m.records[id := was] == m.records;
    status := m.Status(id, polled);
    assert m.records[id] == was;
    replay := AskAgain(m, guard, again, id);
  }

  /** Ask again, under the key of a job that is over and retained. */
  method AskAgain(m: SolveJobManager, guard: Admission.AdmissionController, again: Happening, id: JobId)
      returns (replay: Result<Accepted, SubmitError>)
    requires m.Valid() && guard.Valid() && id in m.records && Over(m.records[id]) && !m.closed
    requires again.Submits? && again.id !in m.history && again.key == m.records[id].key
      && again.now < m.records[id].terminalAt.value + 3_600_000_000
    modifies m, guard
    ensures m.Valid() && guard.Valid()
    ensures again.key.Some? && ValidKey(again.key.value) ==>
      replay == if again.requestSha == old(m.records[id]).requestSha then Ok(old(m.records[id]).accepted)
                else Err(Conflict)
  {
    hide SolveJobManager.Valid, Admission.AdmissionController.Valid, Swept, Active, Created, ValidKey,
         Admission.AdmissionController.Allows, StoreSound, Promise;
    ManagerSound(m);
    SweptRetains(m.Contents(), m.limits.maxRetained, again.now, id);
    replay := m.Submit(again.requestSha, again.correlation, again.key, again.id, guard, again.visit, again.now);
  }

  lemma NewIdsSplit(happenings: seq<Happening>, again: Happening, known: set<JobId>)
    requires NewIds(happenings + [again], known)
    ensures NewIds(happenings, known) && Issued(again) !! known + IssuedBy(happenings)
  {
    hide Issued;
    var all := happenings + [again];
    assert all[|happenings|] == again && all[..|happenings|] == happenings;
    IssuedApart(all, |happenings|, known);
    forall i | 0 <= i < |happenings| ensures Issued(happenings[i]) !! known {
      assert all[i] == happenings[i];
    }
    forall i, k | 0 <= i < k < |happenings| ensures Issued(happenings[i]) !! Issued(happenings[k]) {
      assert all[i] == happenings[i] && all[k] == happenings[k];
    }
  }

  /** From the end of the hour on, whatever has happened, a poll finds it expired, with nothing to show, or no longer
      known. */
  method ExpiredAfterAnHour(m: SolveJobManager, guard: Admission.AdmissionController, happenings: seq<Happening>,
                            id: JobId, polled: Time)
      returns (status: Result<JobRecord, JobError>)
    requires m.Valid() && guard.Valid() && id in m.records && Over(m.records[id])
    requires NewIds(happenings, m.history.Keys) && polled >= m.records[id].terminalAt.value + 3_600_000_000
    modifies m, guard
    ensures m.Valid() && guard.Valid()
    ensures status == Err(NotFound)
      || (status.Ok? && status.value.state == Expired && status.value.result == None && status.value.error == None
          && status.value.events == [])
  {
    hide SolveJobManager.Valid, Admission.AdmissionController.Valid, ExpireOne, StoreSound;
    ghost var was := m.records[id];
    Pass(m, guard, happenings, id);
    ManagerSound(m);
    if id in m.records {
      RecordOf(m.Contents(), id);
      RetainedExactly(m.records[id], polled);
      if m.records[id].state == Expired {
        ExpiredShowsNothing(m.records[id]);
      }
    }
    status := m.Status(id, polled);
  }

  lemma ExpiredShowsNothing(r: JobRecord)
    requires RecordSound(r) && r.state == Expired
    ensures r.result == None && r.error == None && r.events == []
  {
  }
}
