/**
 * The job details page: who may accept a job or advance its status, which
 * action buttons it offers, and the handlers behind those buttons. Together
 * with the worker dashboard's accept button (not part of this model), its
 * buttons are what enforces the job lifecycle open -> assigned ->
 * in-progress -> completed.
 */
module JobDetails {
  import opened Wrappers
  import opened Auth
  import opened Jobs

  const JobNotFound := "Job not found"

  /** `currentUser?.id === job.userId` */
  predicate IsJobPoster(currentUser: Option<User>, job: Job)
  {
    currentUser.Some? && currentUser.value.id == job.userId
  }

  /**
   * `currentUser?.id === job.workerId`. With nobody signed in the left side
   * is `undefined`, which equals the `workerId` of a job that has no worker.
   */
  predicate IsWorker(currentUser: Option<User>, job: Job)
  {
    if currentUser.Some? then job.workerId == Some(currentUser.value.id) else job.workerId.None?
  }

  predicate CanAcceptJob(userType: Option<UserType>, currentUser: Option<User>, job: Job)
  {
    userType == Some(Worker) && job.status == Open && !IsJobPoster(currentUser, job)
  }

  predicate CanUpdateStatus(currentUser: Option<User>, job: Job)
  {
    IsWorker(currentUser, job) && (job.status == Assigned || job.status == InProgress)
  }

  /** The action buttons of the page; `MessageCounterpart` links to the chat with the given user. */
  datatype Action = AcceptJob | MarkInProgress | MarkCompleted | MessageCounterpart(counterpartId: string)

  /** The buttons the page renders for a loaded job, in page order. */
  function Actions(userType: Option<UserType>, currentUser: Option<User>, job: Job): seq<Action>
  {
    var poster := IsJobPoster(currentUser, job);
    var worker := IsWorker(currentUser, job);
    var canUpdate := CanUpdateStatus(currentUser, job);
    (if CanAcceptJob(userType, currentUser, job) then [AcceptJob] else [])
    + (if canUpdate && job.status == Assigned then [MarkInProgress] else [])
    + (if canUpdate && job.status == InProgress then [MarkCompleted] else [])
    + (if (poster || worker) && Supplied(job.workerId)
       then [MessageCounterpart(if poster then job.workerId.value else job.userId)]
       else [])
  }

  /** The status an action button asks the registry for, if it asks for one. */
  function Requested(a: Action): Option<Status>
  {
    match a
    case AcceptJob => Some(Assigned)
    case MarkInProgress => Some(InProgress)
    case MarkCompleted => Some(Completed)
    case MessageCounterpart(_) => None
  }

  /** The lifecycle: open -> assigned -> in-progress -> completed, one step at a time. */
  predicate LegalStep(from: Status, to: Status)
  {
    || (from == Open && to == Assigned)
    || (from == Assigned && to == InProgress)
    || (from == InProgress && to == Completed)
  }

  /** Every status change the page offers is a legal lifecycle step from the job's current status. */
  lemma OfferedStepsAreLegal(userType: Option<UserType>, currentUser: Option<User>, job: Job)
    ensures forall a :: a in Actions(userType, currentUser, job) && Requested(a).Some? ==>
      LegalStep(job.status, Requested(a).value)
  {
  }

  /** Accepting is offered exactly to a worker, while the job is open, and never to its poster. */
  lemma AcceptGate(userType: Option<UserType>, currentUser: Option<User>, job: Job)
    ensures AcceptJob in Actions(userType, currentUser, job) <==>
      userType == Some(Worker) && job.status == Open && !IsJobPoster(currentUser, job)
  {
  }

  /**
   * Advancing is offered only to the job's worker: "in progress" only from
   * `assigned`, "completed" only from `in-progress`. A signed-in user must be
   * the recorded worker; with nobody signed in, only on a job with no worker.
   */
  lemma AdvanceGate(userType: Option<UserType>, currentUser: Option<User>, job: Job)
    ensures MarkInProgress in Actions(userType, currentUser, job) <==>
      job.status == Assigned && IsWorker(currentUser, job)
    ensures MarkCompleted in Actions(userType, currentUser, job) <==>
      job.status == InProgress && IsWorker(currentUser, job)
    ensures currentUser.Some? && (MarkInProgress in Actions(userType, currentUser, job) ||
                                  MarkCompleted in Actions(userType, currentUser, job)) ==>
      job.workerId == Some(currentUser.value.id)
  {
  }

  /** As written, a visitor who is not signed in is offered "in progress" on an assigned job that has no worker. */
  lemma SignedOutVisitorOnWorkerlessJob(userType: Option<UserType>, job: Job)
    requires job.status == Assigned && job.workerId.None?
    ensures MarkInProgress in Actions(userType, None, job)
  {
  }

  /**
   * The chat link appears only for a signed-in poster or worker of a job that
   * has a worker; the poster is sent to the worker, the worker to the poster.
   */
  lemma ChatLinkGate(userType: Option<UserType>, currentUser: Option<User>, job: Job, c: string)
    requires MessageCounterpart(c) in Actions(userType, currentUser, job)
    ensures currentUser.Some? && Supplied(job.workerId)
    ensures IsJobPoster(currentUser, job) ==> c == job.workerId.value
    ensures !IsJobPoster(currentUser, job) ==> job.workerId == Some(currentUser.value.id) && c == job.userId
  {
  }

  /**
   * The steps the page offers keep the worker half of the job's intended
   * shape: accepting records the signed-in worker as the job is taken, and
   * the later steps keep the worker already recorded.
   */
  lemma OfferedStepKeepsWorkerInvariant(userType: Option<UserType>, currentUser: Option<User>, job: Job, a: Action)
    requires WorkerIffTaken(job) && Consistent(currentUser, userType, currentUser.Some?)
    requires currentUser.Some? ==> currentUser.value.id != ""
    requires a in Actions(userType, currentUser, job) && Requested(a).Some?
    ensures a == AcceptJob ==>
      WorkerIffTaken(WithStatus(job, Assigned, Some(currentUser.value.id), Some(currentUser.value.name),
                                currentUser.value.profileImage))
    ensures a != AcceptJob ==> WorkerIffTaken(WithStatus(job, Requested(a).value, None, None, None))
  {
  }

  /** Once a worker has accepted, that worker is offered "in progress" and nothing else that changes the status. */
  lemma AcceptedJobOffersStart(u: User, job: Job)
    requires u.id != ""
    ensures var accepted := WithStatus(job, Assigned, Some(u.id), Some(u.name), u.profileImage);
      && accepted.workerId == Some(u.id)
      && MarkInProgress in Actions(Some(Worker), Some(u), accepted)
      && MarkCompleted !in Actions(Some(Worker), Some(u), accepted)
      && AcceptJob !in Actions(Some(Worker), Some(u), accepted)
  {
    var accepted := WithStatus(job, Assigned, Some(u.id), Some(u.name), u.profileImage);
    AdvanceGate(Some(Worker), Some(u), accepted);
    AcceptGate(Some(Worker), Some(u), accepted);
  }

  /** Once the worker has started, the worker is offered "completed" and no longer "in progress". */
  lemma StartedJobOffersCompletion(u: User, job: Job)
    requires job.workerId == Some(u.id)
    ensures var started := WithStatus(job, InProgress, None, None, None);
      && MarkCompleted in Actions(Some(Worker), Some(u), started)
      && MarkInProgress !in Actions(Some(Worker), Some(u), started)
  {
    AdvanceGate(Some(Worker), Some(u), WithStatus(job, InProgress, None, None, None));
  }

  /** A completed job offers nobody any status change. */
  lemma CompletedJobOffersNoChange(userType: Option<UserType>, currentUser: Option<User>, job: Job)
    requires job.status == Completed
    ensures forall a :: a in Actions(userType, currentUser, job) ==> Requested(a).None?
  {
    AcceptGate(userType, currentUser, job);
    AdvanceGate(userType, currentUser, job);
  }

  /**
   * The whole offered path: a worker other than the poster accepts an open
   * job, then sees only "in progress", then only "completed", and once the job
   * is completed no status change is offered at all.
   */
  lemma OfferedLifecycle(u: User, job: Job)
    requires job.status == Open && u.id != job.userId && u.id != ""
    ensures var me, ut := Some(u), Some(Worker);
      var accepted := WithStatus(job, Assigned, Some(u.id), Some(u.name), u.profileImage);
      var started := WithStatus(accepted, InProgress, None, None, None);
      var done := WithStatus(started, Completed, None, None, None);
      && AcceptJob in Actions(ut, me, job)
      && accepted.workerId == Some(u.id)
      && MarkInProgress in Actions(ut, me, accepted) && MarkCompleted !in Actions(ut, me, accepted)
      && AcceptJob !in Actions(ut, me, accepted)
      && MarkCompleted in Actions(ut, me, started) && MarkInProgress !in Actions(ut, me, started)
      && forall a :: a in Actions(ut, me, done) ==> Requested(a).None?
  {
    var accepted := WithStatus(job, Assigned, Some(u.id), Some(u.name), u.profileImage);
    var started := WithStatus(accepted, InProgress, None, None, None);
    AcceptGate(Some(Worker), Some(u), job);
    AcceptedJobOffersStart(u, job);
    StartedJobOffersCompletion(u, accepted);
    CompletedJobOffersNoChange(Some(Worker), Some(u), WithStatus(started, Completed, None, None, None));
  }

  /** The page's state: the job on display, the error banner, and whether an update is running. */
  class JobDetailsView {
    var job: Option<Job>
    var error: string
    var isUpdating: bool

    /**
     * Opening the page for the route's `id`: the job is looked up; an unknown
     * id shows "Job not found". Without an id the page has no job and no error.
     */
    constructor (store: JobStore, id: Option<string>)
      ensures Supplied(id) ==> job == FindJob(store.jobs, id.value)
      ensures Supplied(id) && job.None? ==> error == JobNotFound
      ensures Supplied(id) && job.Some? ==> error == ""
      ensures !Supplied(id) ==> job == None && error == ""
      ensures !isUpdating
    {
      job := if Supplied(id) then FindJob(store.jobs, id.value) else None;
      error := "";
      isUpdating := false;
      if Supplied(id) {
        var jobData := FindJob(store.jobs, id.value);
        job := jobData;
        if jobData.None? {
          error := JobNotFound;
        }
      }
    }

    /**
     * `handleAcceptJob`: without a signed-in user, a loaded job or an id it
     * does nothing; otherwise it asks the registry for status `assigned` with
     * the signed-in user as worker and shows the updated job. It does not
     * itself check that accepting is allowed: only the button gating does.
     */
    method HandleAcceptJob(store: JobStore, currentUser: Option<User>, id: Option<string>)
      modifies this, store`jobs
      ensures currentUser.None? || old(job).None? || !Supplied(id) ==>
        store.jobs == old(store.jobs) && job == old(job) && isUpdating == old(isUpdating)
      ensures currentUser.Some? && old(job).Some? && Supplied(id) ==>
        && store.jobs == UpdateStatusIn(old(store.jobs), id.value, Assigned, Some(currentUser.value.id),
                                        Some(currentUser.value.name), currentUser.value.profileImage)
        && job == FindJob(store.jobs, id.value)
        && !isUpdating
      ensures error == old(error)
    {
      if currentUser.None? || job.None? || !Supplied(id) {
        return;
      }
      isUpdating := true;
      var u := currentUser.value;
      store.UpdateJobStatus(id.value, Assigned, Some(u.id), Some(u.name), u.profileImage);
      job := FindJob(store.jobs, id.value);
      isUpdating := false;
    }

    /** `handleUpdateStatus`: asks the registry for the new status, with no worker fields. */
    method HandleUpdateStatus(store: JobStore, status: Status, id: Option<string>)
      requires status == InProgress || status == Completed
      modifies this, store`jobs
      ensures old(job).None? || !Supplied(id) ==>
        store.jobs == old(store.jobs) && job == old(job) && isUpdating == old(isUpdating)
      ensures old(job).Some? && Supplied(id) ==>
        && store.jobs == UpdateStatusIn(old(store.jobs), id.value, status, None, None, None)
        && job == FindJob(store.jobs, id.value)
        && !isUpdating
      ensures error == old(error)
    {
      if job.None? || !Supplied(id) {
        return;
      }
      isUpdating := true;
      store.UpdateJobStatus(id.value, status, None, None, None);
      job := FindJob(store.jobs, id.value);
      isUpdating := false;
    }
  }

  /**
   * What accepting does to the registry: a job that was found is now
   * accepted to the accepting user (whose id is not empty), and every other
   * job is untouched.
   */
  lemma AcceptAssignsCurrentUser(jobs: seq<Job>, id: string, u: User)
    requires FindJob(jobs, id).Some? && u.id != ""
    ensures var after := UpdateStatusIn(jobs, id, Assigned, Some(u.id), Some(u.name), u.profileImage);
      && FindJob(after, id).Some?
      && FindJob(after, id).value.status == Assigned
      && FindJob(after, id).value.workerId == Some(u.id)
      && FindJob(after, id).value.userId == FindJob(jobs, id).value.userId
      && forall i :: 0 <= i < |jobs| && jobs[i].id != id ==> after[i] == jobs[i]
  {
    FindAfterUpdate(jobs, id, Assigned, Some(u.id), Some(u.name), u.profileImage);
    UpdateOnlyTouchesTarget(jobs, id, Assigned, Some(u.id), Some(u.name), u.profileImage);
  }
}
