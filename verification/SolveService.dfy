/** One service process: a job manager whose submissions all pass the same admission controller. */
module SolveService {
  import Admission
  import opened JobRecords
  import opened JobStore
  import opened JobStreams
  import opened SolveJobs

  /** The identifier factory never repeats itself, nor an identifier already given. */
  ghost predicate NewIds(happenings: seq<Happening>, known: set<JobId>) {
    && (forall i :: 0 <= i < |happenings| ==> Issued(happenings[i]) !! known)
    && forall i, k :: 0 <= i < k < |happenings| ==> Issued(happenings[i]) !! Issued(happenings[k])
  }

  class Service {
    const jobs: SolveJobManager
    const admission: Admission.AdmissionController

    ghost predicate Valid()
      reads this, jobs, admission
    {
      jobs.Valid() && admission.Valid() && Reconciled(jobs, admission)
    }

    constructor (limits: Limits, settings: Admission.Settings)
      requires limits.Valid() && settings.Valid()
      ensures Valid() && fresh(jobs) && fresh(admission) && jobs.history == map[] && admission.settings == settings
    {
      jobs := new SolveJobManager(limits);
      admission := new Admission.AdmissionController(settings);
    }

    /** Over every run of submissions, predictions, measurements, job steps, polls and shutdown: the solves
        ever admitted are the jobs ever created, day by day, and no day creates more jobs than its count and
        its accelerator seconds allow. No request that ends in a replay, a conflict, a refusal or an error
        costs anything. */
    method Serve(happenings: seq<Happening>)
      requires Valid() && NewIds(happenings, jobs.history.Keys)
      modifies jobs, admission
      ensures Valid() && Grown(old(jobs.history), jobs.history)
      ensures |admission.solvesByDay| == |jobs.history| == Admission.CountAdmitted(admission.solveRecord.decisions)
      ensures forall day :: day in jobs.checkedOn ==> Admission.WithinBudget(admission.settings, jobs.checkedOn[day])
    {
      hide StoreSound, Recorded, Admission.Faithful, Active, Spared;
      SelfGrown(jobs.history);
      for k := 0 to |happenings|
        invariant Valid() && Grown(old(jobs.history), jobs.history)
        invariant forall id :: id in jobs.history ==>
          id in old(jobs.history) || exists i :: 0 <= i < k && id in Issued(happenings[i])
      {
        Happen(jobs, admission, happenings[k]);
      }
    }
  }
}
