/**
 * The homeowner dashboard's status tabs: which of the user's own jobs each
 * tab lists.
 */
module Dashboard {
  import opened Seqs
  import opened Jobs

  datatype Tab = AllJobs | OpenTab | InProgressTab | CompletedTab

  /** The filter callback of `filteredJobs` for the active tab. */
  function TabKeeps(tab: Tab): Job -> bool
  {
    match tab
    case AllJobs => (j: Job) => true
    case OpenTab => (j: Job) => j.status == Open
    case InProgressTab => (j: Job) => j.status == Assigned || j.status == InProgress
    case CompletedTab => (j: Job) => j.status == Completed
  }

  /** `filteredJobs`: the user's jobs shown under the active tab. */
  function FilteredJobs(userJobs: seq<Job>, tab: Tab): seq<Job>
  {
    Filter(userJobs, TabKeeps(tab))
  }

  /** The "all" tab lists every one of the user's jobs, in order. */
  lemma AllTabKeepsEverything(userJobs: seq<Job>)
    ensures FilteredJobs(userJobs, AllJobs) == userJobs
  {
    FilterKeepsAll(userJobs, TabKeeps(AllJobs));
  }

  /**
   * Each status tab lists exactly the user's jobs in its statuses: "open"
   * the open ones, "in progress" the assigned and in-progress ones,
   * "completed" the completed ones.
   */
  lemma StatusTabsExact(userJobs: seq<Job>)
    ensures forall j :: j in FilteredJobs(userJobs, OpenTab) <==> j in userJobs && j.status == Open
    ensures forall j :: j in FilteredJobs(userJobs, InProgressTab) <==>
      j in userJobs && (j.status == Assigned || j.status == InProgress)
    ensures forall j :: j in FilteredJobs(userJobs, CompletedTab) <==> j in userJobs && j.status == Completed
  {
  }

  /** Every tab lists its jobs in the order of the user's list. */
  lemma TabsKeepOrder(userJobs: seq<Job>, tab: Tab)
    ensures Subseq(FilteredJobs(userJobs, tab), userJobs)
  {
    FilterIsSubseq(userJobs, TabKeeps(tab));
  }

  /** Under how many of the three status tabs the job `j` is listed. */
  function StatusTabsListing(userJobs: seq<Job>, j: Job): nat
  {
    (if j in FilteredJobs(userJobs, OpenTab) then 1 else 0)
    + (if j in FilteredJobs(userJobs, InProgressTab) then 1 else 0)
    + (if j in FilteredJobs(userJobs, CompletedTab) then 1 else 0)
  }

  /**
   * The three status tabs partition the user's jobs: every job is listed
   * under exactly one of them, and together they list as many jobs as there are.
   */
  lemma {:induction false} StatusTabsPartition(userJobs: seq<Job>)
    ensures |FilteredJobs(userJobs, OpenTab)| + |FilteredJobs(userJobs, InProgressTab)|
            + |FilteredJobs(userJobs, CompletedTab)| == |userJobs|
    ensures forall j :: j in userJobs ==> StatusTabsListing(userJobs, j) == 1
  {
    if userJobs != [] {
      StatusTabsPartition(userJobs[1..]);
      assert FilteredJobs(userJobs, OpenTab) ==
        (if userJobs[0].status == Open then [userJobs[0]] else []) + FilteredJobs(userJobs[1..], OpenTab);
      assert FilteredJobs(userJobs, InProgressTab) ==
        (if userJobs[0].status == Assigned || userJobs[0].status == InProgress then [userJobs[0]] else [])
        + FilteredJobs(userJobs[1..], InProgressTab);
      assert FilteredJobs(userJobs, CompletedTab) ==
        (if userJobs[0].status == Completed then [userJobs[0]] else []) + FilteredJobs(userJobs[1..], CompletedTab);
    }
  }
}
