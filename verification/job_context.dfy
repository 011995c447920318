/**
 * The job registry: the list of job postings, the three per-user views
 * derived from it, and the operations that add a job and change a job's
 * status. The registry itself does not check that a status change is a
 * legal step; that rule lives in the buttons of the pages, of which the job
 * details page (module JobDetails) is modelled.
 */
module Jobs {
  import opened Wrappers
  import opened Seqs
  import opened Auth

  datatype Status = Open | Assigned | InProgress | Completed

  /** A job posting. `distance` is only set on the entries of the nearby-jobs view. */
  datatype Job = Job(
    id: string,
    title: string,
    description: string,
    category: string,
    budget: real,
    location: Location,
    status: Status,
    createdAt: string,
    userId: string,
    userName: string,
    userImage: Option<string>,
    workerId: Option<string>,
    workerName: Option<string>,
    workerImage: Option<string>,
    distance: Option<real>)

  /** What `createJob` is given: a job without its id, status, creation time and poster fields. */
  datatype JobDraft = JobDraft(
    title: string,
    description: string,
    category: string,
    budget: real,
    location: Location,
    workerId: Option<string>,
    workerName: Option<string>,
    workerImage: Option<string>,
    distance: Option<real>)

  /** The great-circle distance between two (latitude, longitude) points, as the registry is given it. */
  type Distance = (real, real, real, real) -> real

  const NotLoggedIn := "User must be logged in to create a job"

  /** The job `createJob` builds: status open, poster copied from the signed-in user, the rest from the draft. */
  function NewJob(d: JobDraft, id: string, createdAt: string, poster: User): Job
  {
    Job(id, d.title, d.description, d.category, d.budget, d.location, Open, createdAt,
        poster.id, poster.name, poster.profileImage,
        d.workerId, d.workerName, d.workerImage, d.distance)
  }

  /** JavaScript truthiness of an optional string argument: present and not empty. */
  predicate Supplied(s: Option<string>)
  {
    s.Some? && s.value != ""
  }

  /** The record `updateJobStatus` makes of a matching job: the new status, and each worker field only if supplied. */
  function WithStatus(job: Job, status: Status, workerId: Option<string>, workerName: Option<string>,
                      workerImage: Option<string>): Job
  {
    job.(status := status,
         workerId := if Supplied(workerId) then workerId else job.workerId,
         workerName := if Supplied(workerName) then workerName else job.workerName,
         workerImage := if Supplied(workerImage) then workerImage else job.workerImage)
  }

  /** The job list after `updateJobStatus`: every job with the given id is rewritten, all others are kept. */
  function UpdateStatusIn(jobs: seq<Job>, jobId: string, status: Status, workerId: Option<string>,
                          workerName: Option<string>, workerImage: Option<string>): seq<Job>
  {
    seq(|jobs|, i requires 0 <= i < |jobs| =>
      if jobs[i].id == jobId then WithStatus(jobs[i], status, workerId, workerName, workerImage) else jobs[i])
  }

  /** The update keeps the length, the order of ids, and every job with a different id. */
  lemma UpdateOnlyTouchesTarget(jobs: seq<Job>, jobId: string, status: Status, workerId: Option<string>,
                                workerName: Option<string>, workerImage: Option<string>)
    ensures var r := UpdateStatusIn(jobs, jobId, status, workerId, workerName, workerImage);
      && |r| == |jobs|
      && (forall i :: 0 <= i < |jobs| ==> r[i].id == jobs[i].id)
      && (forall i :: 0 <= i < |jobs| && jobs[i].id != jobId ==> r[i] == jobs[i])
      && (forall i :: 0 <= i < |jobs| ==> r[i].status == if jobs[i].id == jobId then status else jobs[i].status)
  {
  }

  /**
   * On a matching job the given status is set whatever the current one is
   * (there is no transition check); a worker field is overwritten only when a
   * non-empty value is supplied; the poster and all other fields stay.
   */
  lemma UpdateSetsStatusUnchecked(jobs: seq<Job>, jobId: string, status: Status, workerId: Option<string>,
                                  workerName: Option<string>, workerImage: Option<string>, i: nat)
    requires i < |jobs| && jobs[i].id == jobId
    ensures var r := UpdateStatusIn(jobs, jobId, status, workerId, workerName, workerImage)[i];
      && r.status == status
      && r.workerId == (if Supplied(workerId) then workerId else jobs[i].workerId)
      && r.workerName == (if Supplied(workerName) then workerName else jobs[i].workerName)
      && r.workerImage == (if Supplied(workerImage) then workerImage else jobs[i].workerImage)
      && r.(status := jobs[i].status, workerId := jobs[i].workerId, workerName := jobs[i].workerName,
            workerImage := jobs[i].workerImage) == jobs[i]
  {
  }

  /** Repeating a status update changes nothing more. */
  lemma UpdateIdempotent(jobs: seq<Job>, jobId: string, status: Status, workerId: Option<string>,
                          workerName: Option<string>, workerImage: Option<string>)
    ensures var once := UpdateStatusIn(jobs, jobId, status, workerId, workerName, workerImage);
      UpdateStatusIn(once, jobId, status, workerId, workerName, workerImage) == once
  {
    var once := UpdateStatusIn(jobs, jobId, status, workerId, workerName, workerImage);
    var twice := UpdateStatusIn(once, jobId, status, workerId, workerName, workerImage);
    forall i | 0 <= i < |jobs|
      ensures twice[i] == once[i]
    {
    }
  }

  /** The poster of every job survives any status update. */
  lemma UpdateKeepsPoster(jobs: seq<Job>, jobId: string, status: Status, workerId: Option<string>,
                          workerName: Option<string>, workerImage: Option<string>)
    ensures var r := UpdateStatusIn(jobs, jobId, status, workerId, workerName, workerImage);
      forall i :: 0 <= i < |jobs| ==>
        r[i].userId == jobs[i].userId && r[i].userName == jobs[i].userName && r[i].userImage == jobs[i].userImage
  {
  }

  /** The intended shape of a job: a worker is recorded exactly when the job is no longer open. */
  predicate WorkerIffTaken(j: Job)
  {
    j.workerId.Some? <==> j.status != Open
  }

  /**
   * The registry does not keep that shape by itself: reopening a taken job
   * keeps its worker, and advancing an open job without a worker records none.
   */
  lemma RegistryDoesNotKeepWorkerInvariant(jobs: seq<Job>, i: int)
    requires 0 <= i < |jobs| && WorkerIffTaken(jobs[i])
    ensures jobs[i].status != Open ==>
      !WorkerIffTaken(UpdateStatusIn(jobs, jobs[i].id, Open, None, None, None)[i])
    ensures jobs[i].status == Open ==>
      !WorkerIffTaken(UpdateStatusIn(jobs, jobs[i].id, InProgress, None, None, None)[i])
  {
  }

  /** The index of the first job with the given id, or `|jobs|` when there is none. */
  function FirstIndexOf(jobs: seq<Job>, id: string): (k: nat)
    ensures k <= |jobs|
    ensures forall i :: 0 <= i < k ==> jobs[i].id != id
    ensures k < |jobs| ==> jobs[k].id == id
  {
    if jobs == [] then 0
    else if jobs[0].id == id then 0
    else 1 + FirstIndexOf(jobs[1..], id)
  }

  /** `getJobById`: the first job with the given id, if any. */
  function FindJob(jobs: seq<Job>, id: string): (r: Option<Job>)
    ensures r.None? <==> forall i :: 0 <= i < |jobs| ==> jobs[i].id != id
    ensures r.Some? ==> r.value.id == id
    ensures r.Some? ==>
      exists i :: 0 <= i < |jobs| && jobs[i] == r.value && forall k :: 0 <= k < i ==> jobs[k].id != id
  {
    var k := FirstIndexOf(jobs, id);
    if k < |jobs| then Some(jobs[k]) else None
  }

  /** A lookup after a status update finds the updated version of the job it found before. */
  lemma FindAfterUpdate(jobs: seq<Job>, jobId: string, status: Status, workerId: Option<string>,
                         workerName: Option<string>, workerImage: Option<string>)
    ensures var r := UpdateStatusIn(jobs, jobId, status, workerId, workerName, workerImage);
      FindJob(r, jobId) ==
        if FindJob(jobs, jobId).Some?
        then Some(WithStatus(FindJob(jobs, jobId).value, status, workerId, workerName, workerImage))
        else None
  {
    var r := UpdateStatusIn(jobs, jobId, status, workerId, workerName, workerImage);
    UpdateOnlyTouchesTarget(jobs, jobId, status, workerId, workerName, workerImage);
    var k := FirstIndexOf(jobs, jobId);
    FirstIndexSameIds(jobs, r, jobId);
  }

  /** Two lists with the same ids at the same places have the same first match. */
  lemma {:induction false} FirstIndexSameIds(a: seq<Job>, b: seq<Job>, id: string)
    requires |a| == |b| && forall i :: 0 <= i < |a| ==> a[i].id == b[i].id
    ensures FirstIndexOf(a, id) == FirstIndexOf(b, id)
  {
    if a != [] && a[0].id != id {
      FirstIndexSameIds(a[1..], b[1..], id);
    }
  }

  /** Appending a job leaves every earlier lookup alone and makes a fresh id findable. */
  lemma {:induction false} FindAfterAppend(jobs: seq<Job>, job: Job, id: string)
    ensures FindJob(jobs + [job], id) ==
      if FindJob(jobs, id).Some? then FindJob(jobs, id)
      else if job.id == id then Some(job) else None
  {
    if jobs != [] {
      assert (jobs + [job])[1..] == jobs[1..] + [job];
      FindAfterAppend(jobs[1..], job, id);
    }
  }

  /** The "jobs I posted" filter. */
  function PostedBy(userId: string): Job -> bool
  {
    (j: Job) => j.userId == userId
  }

  /** The "jobs I am assigned" filter. */
  function AssignedTo(userId: string): Job -> bool
  {
    (j: Job) => j.workerId == Some(userId)
  }

  function IsOpen(j: Job): bool
  {
    j.status == Open
  }

  /** A job annotated with its distance from `here`. */
  function Annotate(j: Job, here: Location, dist: Distance): Job
  {
    j.(distance := Some(dist(here.lat, here.lng, j.location.lat, j.location.lng)))
  }

  /** `jobs.map(job => ({ ...job, distance }))` */
  function WithDistances(jobs: seq<Job>, here: Location, dist: Distance): (r: seq<Job>)
  {
    seq(|jobs|, i requires 0 <= i < |jobs| => Annotate(jobs[i], here, dist))
  }

  /** `(a.distance || 0)`: the sort key of the nearby-jobs view. */
  function DistanceKey(j: Job): real
  {
    if j.distance.Some? then j.distance.value else 0.0
  }

  /** The nearby-jobs view: the open jobs, each annotated with its distance, nearest first. */
  function NearbyJobs(jobs: seq<Job>, here: Location, dist: Distance): seq<Job>
  {
    SortBy(WithDistances(Filter(jobs, IsOpen), here, dist), DistanceKey)
  }

  /**
   * The nearby view holds exactly the open jobs, each annotated with its
   * distance from `here`, as many of them as there are open jobs, in
   * ascending order of distance.
   */
  lemma NearbyJobsSpec(jobs: seq<Job>, here: Location, dist: Distance)
    ensures var r := NearbyJobs(jobs, here, dist);
      && SortedBy(r, DistanceKey)
      && |r| == |Filter(jobs, IsOpen)|
      && (forall x :: x in r ==>
            x.status == Open && x.distance == Some(dist(here.lat, here.lng, x.location.lat, x.location.lng)))
      && (forall j :: j in jobs && IsOpen(j) ==> Annotate(j, here, dist) in r)
      && (forall x :: x in r ==> exists j :: j in jobs && IsOpen(j) && x == Annotate(j, here, dist))
      && multiset(r) == multiset(WithDistances(Filter(jobs, IsOpen), here, dist))
  {
    var open := Filter(jobs, IsOpen);
    var annotated := WithDistances(open, here, dist);
    var r := NearbyJobs(jobs, here, dist);
    assert multiset(r) == multiset(annotated);
    forall x | x in r
      ensures exists j :: j in jobs && IsOpen(j) && x == Annotate(j, here, dist)
    {
      assert x in multiset(annotated);
      var i :| 0 <= i < |annotated| && annotated[i] == x;
      assert open[i] in open;
    }
    forall j | j in jobs && IsOpen(j)
      ensures Annotate(j, here, dist) in r
    {
      assert j in open;
      var i :| 0 <= i < |open| && open[i] == j;
      assert annotated[i] == Annotate(j, here, dist);
      assert Annotate(j, here, dist) in multiset(r);
    }
  }

  /** Every entry of the nearby view is an open job of the list, annotated. */
  lemma NearbyOrigin(jobs: seq<Job>, here: Location, dist: Distance, x: Job) returns (i: nat)
    requires x in NearbyJobs(jobs, here, dist)
    ensures i < |jobs| && IsOpen(jobs[i]) && x == Annotate(jobs[i], here, dist)
  {
    var open := Filter(jobs, IsOpen);
    var annotated := WithDistances(open, here, dist);
    assert x in multiset(annotated);
    var k :| 0 <= k < |annotated| && annotated[k] == x;
    assert open[k] in open;
    i :| 0 <= i < |jobs| && jobs[i] == open[k];
  }

  /** A job that has been moved out of `open` no longer appears among the nearby jobs. */
  lemma AssignedJobLeavesNearby(jobs: seq<Job>, jobId: string, status: Status,
                                workerId: Option<string>, workerName: Option<string>,
                                workerImage: Option<string>, here: Location, dist: Distance)
    requires status != Open
    ensures var r := UpdateStatusIn(jobs, jobId, status, workerId, workerName, workerImage);
      forall x :: x in NearbyJobs(r, here, dist) ==> x.id != jobId
  {
    var r := UpdateStatusIn(jobs, jobId, status, workerId, workerName, workerImage);
    forall x | x in NearbyJobs(r, here, dist)
      ensures x.id != jobId
    {
      var i := NearbyOrigin(r, here, dist, x);
      UpdateOnlyTouchesTarget(jobs, jobId, status, workerId, workerName, workerImage);
    }
  }

  class JobStore {
    var jobs: seq<Job>
    var userJobs: seq<Job>
    var workerJobs: seq<Job>
    var nearbyJobs: seq<Job>

    /** The store as it starts, holding the jobs it was loaded with and empty views. */
    constructor (initial: seq<Job>)
      ensures jobs == initial && userJobs == [] && workerJobs == [] && nearbyJobs == []
    {
      jobs, userJobs, workerJobs, nearbyJobs := initial, [], [], [];
    }

    /**
     * `createJob`: fails when nobody is signed in, leaving the list alone;
     * otherwise appends exactly one new open job posted by the signed-in
     * user. `id` and `createdAt` are the generated id and timestamp.
     */
    method CreateJob(currentUser: Option<User>, draft: JobDraft, id: string, createdAt: string)
      returns (r: Result<Job>)
      modifies this`jobs
      ensures currentUser.None? ==> r == Err(NotLoggedIn) && jobs == old(jobs)
      ensures currentUser.Some? ==> r.Ok? && jobs == old(jobs) + [r.value]
      ensures r.Ok? ==>
        && r.value == NewJob(draft, id, createdAt, currentUser.value)
        && r.value.status == Open
        && r.value.userId == currentUser.value.id
        && r.value.userName == currentUser.value.name
        && r.value.userImage == currentUser.value.profileImage
    {
      if currentUser.None? {
        return Err(NotLoggedIn);
      }
      var newJob := NewJob(draft, id, createdAt, currentUser.value);
      jobs := jobs + [newJob];
      r := Ok(newJob);
    }

    /** `updateJobStatus`: an unconditional merge into every job with the given id. */
    method UpdateJobStatus(jobId: string, status: Status, workerId: Option<string>,
                           workerName: Option<string>, workerImage: Option<string>)
      modifies this`jobs
      ensures jobs == UpdateStatusIn(old(jobs), jobId, status, workerId, workerName, workerImage)
    {
      jobs := UpdateStatusIn(jobs, jobId, status, workerId, workerName, workerImage);
    }

    /**
     * The effect that recomputes the views whenever the signed-in user or the
     * job list changes. A homeowner's refresh touches only `userJobs`; a
     * worker's refreshes `workerJobs`, and `nearbyJobs` only when the worker
     * has a location; a profile without a role changes nothing; signing out
     * empties all three.
     */
    method RefreshViews(currentUser: Option<User>, dist: Distance)
      modifies this`userJobs, this`workerJobs, this`nearbyJobs
      ensures currentUser.None? ==> userJobs == [] && workerJobs == [] && nearbyJobs == []
      ensures currentUser.Some? && currentUser.value.userType == Some(Homeowner) ==>
        && userJobs == Filter(jobs, PostedBy(currentUser.value.id))
        && workerJobs == old(workerJobs) && nearbyJobs == old(nearbyJobs)
      ensures currentUser.Some? && currentUser.value.userType == Some(Worker) ==>
        && userJobs == old(userJobs)
        && workerJobs == Filter(jobs, AssignedTo(currentUser.value.id))
        && nearbyJobs == (if currentUser.value.location.Some?
                          then NearbyJobs(jobs, currentUser.value.location.value, dist)
                          else old(nearbyJobs))
      ensures currentUser.Some? && currentUser.value.userType.None? ==>
        userJobs == old(userJobs) && workerJobs == old(workerJobs) && nearbyJobs == old(nearbyJobs)
    {
      if currentUser.Some? {
        var u := currentUser.value;
        if u.userType == Some(Homeowner) {
          userJobs := Filter(jobs, PostedBy(u.id));
        } else if u.userType == Some(Worker) {
          workerJobs := Filter(jobs, AssignedTo(u.id));
          if u.location.Some? {
            nearbyJobs := NearbyJobs(jobs, u.location.value, dist);
          }
        }
      } else {
        userJobs := [];
        workerJobs := [];
        nearbyJobs := [];
      }
    }
  }

  /**
   * The posted-jobs and assigned-jobs views are exactly the jobs whose poster,
   * respectively worker, is the given user, in their original order.
   */
  lemma UserViewsExact(jobs: seq<Job>, userId: string)
    ensures var posted := Filter(jobs, PostedBy(userId));
      && Subseq(posted, jobs)
      && (forall j :: j in posted <==> j in jobs && j.userId == userId)
      && (forall j :: multiset(posted)[j] == if j.userId == userId then multiset(jobs)[j] else 0)
    ensures var worked := Filter(jobs, AssignedTo(userId));
      && Subseq(worked, jobs)
      && (forall j :: j in worked <==> j in jobs && j.workerId == Some(userId))
      && (forall j :: multiset(worked)[j] == if j.workerId == Some(userId) then multiset(jobs)[j] else 0)
  {
    FilterIsSubseq(jobs, PostedBy(userId));
    FilterIsSubseq(jobs, AssignedTo(userId));
  }

  /** Creating a job posted by `poster` adds it to the end of that poster's view. */
  lemma CreatedJobJoinsPosterView(jobs: seq<Job>, d: JobDraft, id: string, createdAt: string, poster: User)
    ensures Filter(jobs + [NewJob(d, id, createdAt, poster)], PostedBy(poster.id)) ==
            Filter(jobs, PostedBy(poster.id)) + [NewJob(d, id, createdAt, poster)]
  {
    FilterAppend(jobs, NewJob(d, id, createdAt, poster), PostedBy(poster.id));
  }
}
