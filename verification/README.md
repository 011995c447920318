# Fixify core in Dafny

Fixify is a single-page marketplace. Homeowners post repair jobs. Workers
accept them and move them along the lifecycle open → assigned → in-progress
→ completed. Both sides chat about a job.

This project models the app's three client-side stores and the decision
rules of five pages:

- The job registry (`Jobs.JobStore`): creating a job, looking one up,
  updating its status, and the three per-user views (posted jobs, assigned
  jobs, nearby open jobs sorted by distance).
- The message log (`Chat.ChatStore`): sending, marking as read, unread
  counts, and the grouping of the log into one time-ordered conversation per
  job. The grouping is the imperative loop `Chat.GroupByJob`, proved to
  compute `Chat.Grouped`.
- The identity store (`Auth.AuthStore`): mock login and registration,
  logout, profile patches and location updates, keeping "authenticated
  exactly when someone is signed in, with that person's role".
- The job details page (`JobDetails`): who may accept a job or advance it,
  which buttons are offered, and the accept and status-update handlers.
- The homeowner dashboard's status tabs (`Dashboard`).
- The profile page's skill editing and save handler (`Profile`).
- The chat page's partner choice, mark-as-read effect and send guard
  (`ChatView`).
- The route guard (`Routing`).

The shared modules are `Wrappers` (`Option`, `Result`) and `Seqs`. `Seqs`
holds JavaScript's `filter` and a numeric-key `sort`, modelled as
`Seqs.Filter` and `Seqs.SortBy`, and the "is a subsequence of" relation.

Stores and page state are classes whose methods reassign their fields. The
pure parts are functions, with lemmas relating them.

Where the code differs from the documented intent, the model follows the
code:

- `updateJobStatus` checks no transitions. Any status may be set on any job,
  and the lifecycle is enforced only by the buttons the pages show: the job
  details page, modelled here, and the worker dashboard's accept button on
  nearby open jobs, which is left out.
- `currentUser?.id === job.workerId` holds for a visitor who is not signed in
  when the job has no worker, and `/job/:id` is not behind the route guard.
  Such a visitor is therefore offered "in progress" on an assigned job
  without a worker (`JobDetails.SignedOutVisitorOnWorkerlessJob`).
- A job is meant to have a worker exactly when it is no longer open
  (`Jobs.WorkerIffTaken`). The registry does not keep this, since it accepts
  any status (`Jobs.RegistryDoesNotKeepWorkerInvariant`). The steps the job
  details page offers keep it for `workerId`
  (`JobDetails.OfferedStepKeepsWorkerInvariant`). They do not keep it for
  `workerName` and `workerImage`: `...(workerName && { workerName })` drops an
  empty name, for example that of a user whose login address starts with '@'.
- The views are refreshed per role. A homeowner's refresh leaves the worker
  views as they were. A worker without a location keeps the previous nearby
  list.
- `updateProfile` does not touch the store's role field. A patch that changes
  the profile's role breaks the store's agreement, so
  `Auth.AuthStore.UpdateProfile` promises it only for patches that leave the
  role alone, which is what the profile page sends.

## Model

| member | source | states |
|---|---|---|
| Seqs.Filter | src/contexts/JobContext.tsx:127 | `filter` keeps exactly the elements satisfying the predicate, with their multiplicities, and never grows the list |
| Seqs.FilterIsSubseq | src/contexts/JobContext.tsx:127-129 | a filter result is an order-preserving subsequence of its input |
| Seqs.SortBy | src/contexts/ChatContext.tsx:93-95 | the numeric-key sort returns a permutation of its input in ascending key order |
| Auth.LocalPart | src/contexts/AuthContext.tsx:65 | `email.split('@')[0]` is a prefix of the address, contains no '@', and is followed by '@' unless it is the whole address |
| Auth.LocalPartOfAddress | src/contexts/AuthContext.tsx:65 | for `local@domain` with no '@' in `local`, the derived login name is exactly `local` |
| Auth.EmptyPatchIsIdentity | src/contexts/AuthContext.tsx:129 | merging a patch that supplies nothing leaves the profile unchanged |
| Auth.PatchIdempotent | src/contexts/AuthContext.tsx:129 | merging the same patch twice equals merging it once |
| Auth.AuthStore.constructor | src/contexts/AuthContext.tsx:42-44 | the store starts signed out: no user, null role, not authenticated |
| Auth.AuthStore.Login | src/contexts/AuthContext.tsx:58-85 | signs in a profile named after the address's local part, with the given role; only workers get a skills list; authenticated; the store's agreement holds |
| Auth.AuthStore.Register | src/contexts/AuthContext.tsx:88-115 | signs in a profile with the given name, rating 0, and an empty skills list for workers only; authenticated; agreement holds |
| Auth.AuthStore.Logout | src/contexts/AuthContext.tsx:117-122 | clears the user, sets the role to null and authenticated to false |
| Auth.AuthStore.UpdateProfile | src/contexts/AuthContext.tsx:124-133 | no-op when signed out; otherwise supplied fields override and the rest keep their values; the agreement is kept when the role is not patched |
| Auth.AuthStore.UpdateLocation | src/contexts/AuthContext.tsx:135-144 | no-op when signed out; otherwise replaces only the location; the agreement is kept |
| Jobs.FindJob | src/contexts/JobContext.tsx:179-181 | `getJobById` returns the first job with the id, and nothing exactly when no job has it |
| Jobs.UpdateOnlyTouchesTarget | src/contexts/JobContext.tsx:193-204 | a status update keeps length and id order, leaves jobs with another id unchanged, and sets the status exactly on matching jobs |
| Jobs.UpdateSetsStatusUnchecked | src/contexts/JobContext.tsx:195-200 | a matching job gets the status whatever it was; a worker field is overwritten only by a non-empty value; all other fields stay |
| Jobs.UpdateIdempotent | src/contexts/JobContext.tsx:193-204 | repeating a status update changes nothing more |
| Jobs.UpdateKeepsPoster | src/contexts/JobContext.tsx:193-204 | no status update changes any job's poster fields |
| Jobs.RegistryDoesNotKeepWorkerInvariant | src/contexts/JobContext.tsx:193-204 | from a job with a worker exactly when taken, reopening a taken job or advancing an open job with no worker fields yields a job without that shape |
| Jobs.FindAfterUpdate | src/contexts/JobContext.tsx:193-204 | after an update, the lookup finds the updated version of the job it found before, and still nothing if it found nothing |
| Jobs.FindAfterAppend | src/contexts/JobContext.tsx:172-180 | appending a job leaves earlier lookups alone and makes a fresh id findable |
| Jobs.NearbyJobsSpec | src/contexts/JobContext.tsx:133-144 | the nearby view holds exactly the open jobs, each annotated with its distance, as many as there are open jobs, each as often as it occurs, in ascending distance |
| Jobs.NearbyOrigin | src/contexts/JobContext.tsx:133-143 | every nearby entry is an annotated open job of the list |
| Jobs.AssignedJobLeavesNearby | src/contexts/JobContext.tsx:133-134 | a job moved out of `open` no longer appears among the nearby jobs |
| Jobs.UserViewsExact | src/contexts/JobContext.tsx:127-129 | the posted and assigned views are exactly the jobs whose poster, respectively worker, is the user, each as often as in the list, in original order |
| Jobs.CreatedJobJoinsPosterView | src/contexts/JobContext.tsx:162-173 | a created job is appended to the end of its poster's view |
| Jobs.JobStore.constructor | src/contexts/JobContext.tsx:107-110 | the registry starts with its loaded jobs and empty views |
| Jobs.JobStore.CreateJob | src/contexts/JobContext.tsx:156-177 | fails with "User must be logged in to create a job" and leaves the list alone when signed out; otherwise appends exactly one open job with the poster fields copied from the user |
| Jobs.JobStore.UpdateJobStatus | src/contexts/JobContext.tsx:183-208 | the job list becomes the unconditional merge into every job with the id |
| Jobs.JobStore.RefreshViews | src/contexts/JobContext.tsx:124-154 | signed out: all three views empty; homeowner: posted view only; worker: assigned view, and nearby view when a location exists; no role: nothing changes |
| Chat.EmptyOutsideJobIds | src/contexts/ChatContext.tsx:122-124 | a job without messages has an empty conversation |
| Chat.CollectByJob | src/contexts/ChatContext.tsx:82-89 | the push loop yields one bucket per job with messages, holding that job's messages in log order |
| Chat.GroupByJob | src/contexts/ChatContext.tsx:81-99 | the grouping effect computes exactly the per-job, time-ordered conversations of the log |
| Chat.GroupedPartition | src/contexts/ChatContext.tsx:84-96 | every message lies in its own job's conversation with its multiplicity; a conversation holds only its job's messages; each is sorted by time |
| Chat.GroupedSizesSum | src/contexts/ChatContext.tsx:84-89 | the conversation sizes sum to the number of messages |
| Chat.MarkReadExact | src/contexts/ChatContext.tsx:126-132 | marking keeps the length, sets `read` exactly on listed ids (never clears it), and changes no other field |
| Chat.MarkReadIdempotent | src/contexts/ChatContext.tsx:126-132 | marking the same ids twice equals marking them once |
| Chat.ChatStore.constructor | src/contexts/ChatContext.tsx:66-67 | the log starts with its loaded messages, grouped |
| Chat.ChatStore.SendMessage | src/contexts/ChatContext.tsx:101-120 | fails with "User must be logged in to send a message" and leaves the log alone when signed out; otherwise appends one unread message from the user; the grouping is kept |
| Chat.ChatStore.GetJobMessages | src/contexts/ChatContext.tsx:122-124 | returns the job's conversation in time order, empty for a job with no messages |
| Chat.ChatStore.MarkAsRead | src/contexts/ChatContext.tsx:126-136 | the log becomes the marked log; the grouping is kept |
| Chat.ChatStore.GetUnreadCount | src/contexts/ChatContext.tsx:138-144 | zero when signed out; otherwise the number of the job's messages to the user that are unread, never more than the conversation's size |
| JobDetails.OfferedStepsAreLegal | src/pages/JobDetailsPage.tsx:186-213 | every status change the page offers is a legal lifecycle step from the current status |
| JobDetails.AcceptGate | src/pages/JobDetailsPage.tsx:93-95 | accept is offered exactly to a worker, while the job is open, and never to its poster |
| JobDetails.AdvanceGate | src/pages/JobDetailsPage.tsx:94-96 | "in progress" is offered exactly from `assigned`, "completed" exactly from `in-progress`, both only to the job's worker |
| JobDetails.SignedOutVisitorOnWorkerlessJob | src/pages/JobDetailsPage.tsx:94 | a visitor who is not signed in is offered "in progress" on an assigned job without a worker |
| JobDetails.ChatLinkGate | src/pages/JobDetailsPage.tsx:216-218 | the chat link appears only for a signed-in poster or worker once a worker exists, and names the other party |
| JobDetails.AcceptedJobOffersStart | src/pages/JobDetailsPage.tsx:196-204 | after accepting, the worker is the job's worker and is offered "in progress" but neither "completed" nor accept |
| JobDetails.StartedJobOffersCompletion | src/pages/JobDetailsPage.tsx:196-213 | once started, the job's worker is offered "completed" and no longer "in progress" |
| JobDetails.CompletedJobOffersNoChange | src/pages/JobDetailsPage.tsx:186-213 | a completed job offers nobody a status change |
| JobDetails.OfferedStepKeepsWorkerInvariant | src/pages/JobDetailsPage.tsx:29-58 | under the identity store's agreement and a non-empty user id, every status change the page offers takes a job with a worker exactly when taken to another such job |
| JobDetails.OfferedLifecycle | src/pages/JobDetailsPage.tsx:186-213 | a worker who accepts an open job is then offered only "in progress", then only "completed", then no status change |
| JobDetails.AcceptAssignsCurrentUser | src/pages/JobDetailsPage.tsx:34-42 | after accepting, the job found is assigned to the accepting user, keeps its poster, and no other job changes |
| JobDetails.JobDetailsView.constructor | src/pages/JobDetailsPage.tsx:14-27 | the page loads the job for its id and shows "Job not found" for an unknown id |
| JobDetails.JobDetailsView.HandleAcceptJob | src/pages/JobDetailsPage.tsx:29-49 | a no-op without a user, a job or an id; otherwise requests `assigned` with the user's id, name and image, and shows the updated job |
| JobDetails.JobDetailsView.HandleUpdateStatus | src/pages/JobDetailsPage.tsx:51-64 | a no-op without a job or an id; otherwise requests the status with no worker fields, and shows the updated job |
| Dashboard.AllTabKeepsEverything | src/pages/UserDashboard.tsx:16 | the "all" tab lists every job, in order |
| Dashboard.StatusTabsExact | src/pages/UserDashboard.tsx:17-19 | "open" lists exactly the open jobs, "in progress" exactly the assigned and in-progress ones, "completed" exactly the completed ones |
| Dashboard.TabsKeepOrder | src/pages/UserDashboard.tsx:15-21 | every tab's list is an order-preserving subsequence of the user's jobs |
| Dashboard.StatusTabsPartition | src/pages/UserDashboard.tsx:15-21 | the three status tabs partition the jobs: each job is under exactly one, and the counts add up |
| Profile.AvailableSkillsDistinct | src/pages/ProfilePage.tsx:18-21 | the known skills are distinct and none is empty |
| Profile.SkillOptionsExact | src/pages/ProfilePage.tsx:183-184 | the selector offers exactly the known skills not in the list, each once, in fixed order |
| Profile.AppendKeepsDistinct | src/pages/ProfilePage.tsx:58-59 | appending an absent skill keeps the list free of duplicates |
| Profile.RemoveSkillExact | src/pages/ProfilePage.tsx:64-66 | removing deletes every copy, keeps every other skill with its multiplicity and order, and keeps a list free of duplicates |
| Profile.SavedProfile | src/pages/ProfilePage.tsx:33-45 | saving sets name and email, skills only for workers, and only the address of an existing location when the address is non-empty |
| Profile.ProfileForm.constructor | src/pages/ProfilePage.tsx:8-16 | the form starts with the profile's name, e-mail, address and skills, not editing, with no messages |
| Profile.ProfileForm.AddSkill | src/pages/ProfilePage.tsx:57-62 | a non-empty, absent skill is appended and the choice cleared; otherwise nothing changes; the list stays free of duplicates |
| Profile.ProfileForm.RemoveSkill | src/pages/ProfilePage.tsx:64-66 | every copy of the skill leaves the list; others keep their order |
| Profile.ProfileForm.Save | src/pages/ProfilePage.tsx:23-55 | an empty name or e-mail shows "Name and email are required" and updates nothing; otherwise the payload is merged, success is shown and editing ends |
| Profile.ProfileForm.Cancel | src/pages/ProfilePage.tsx:213-221 | leaves edit mode, clears the messages and resets the form to the profile |
| ChatView.PartnerIsOtherParty | src/pages/ChatPage.tsx:23-27 | the poster sees the worker as partner, everybody else the poster; there is a partner exactly when there is a job |
| ChatView.ChatLinkMeetsPartner | src/pages/ChatPage.tsx:23-27 | the chat link of the job details page leads to a chat whose partner is the user it names |
| ChatView.UnreadIdsExact | src/pages/ChatPage.tsx:37-39 | the selected ids are exactly those of shown messages to the user that are unread |
| ChatView.MarkingClearsUnread | src/pages/ChatPage.tsx:35-44 | after marking the selected ids, none of the job's messages to the user is unread |
| ChatView.MarkShownAsRead | src/pages/ChatPage.tsx:35-44 | with a job id and a user, marks the selected ids, calling `markAsRead` only when there are some; afterwards the job's unread count is zero |
| ChatView.SentMessageShown | src/pages/ChatPage.tsx:54 | a sent message shows up in its job's conversation |
| ChatView.Composer.constructor | src/pages/ChatPage.tsx:15-16 | the composer starts with an empty draft, not sending |
| ChatView.Composer.HandleSendMessage | src/pages/ChatPage.tsx:46-60 | a blank draft or a missing job id, counterpart or user sends nothing; otherwise the draft goes to the route's counterpart for the route's job and is cleared |
| Routing.LoginFirst | src/components/ProtectedRoute.tsx:13-15 | a visitor goes to `/login` exactly when not authenticated, whatever the route requires |
| Routing.RoleGate | src/components/ProtectedRoute.tsx:17-21 | with no required role the page is shown; with one it is shown exactly on a matching role, otherwise the user goes to `/` |
| Routing.AccessForStore | src/components/ProtectedRoute.tsx:10-21 | under the identity store's agreement, the page is shown exactly when someone is signed in with the required role, if any |

## Left out

- The Haversine distance, `deg2rad` and `toFixed(1)` rounding (src/contexts/JobContext.tsx:211-226) are floating-point trigonometry. The distance is a function parameter (`Jobs.Distance`), and only the filter and sort around it are modelled.
- localStorage and JSON persistence are not modelled: the initial load and every `setItem`/`removeItem`. Stores start from the lists their constructors are given, and the identity store starts signed out.
- The simulated latency (`setTimeout`, `async`/`await`) is not modelled. Each operation is one atomic step.
- Generated ids and timestamps (`Date.now()`, `new Date()`) are parameters. Nothing guarantees that ids are unique, so lookups and updates are stated for lists that may repeat an id.
- Message timestamps are integers in milliseconds rather than ISO strings compared through `new Date(...).getTime()`.
- React effect scheduling and re-renders are not modelled. `Jobs.JobStore.RefreshViews` and `ChatView.MarkShownAsRead` are the effects, run once on the current state. Effects that read stale closures are not captured. Neither are the stale closures of `handleAcceptJob` and `handleUpdateStatus`: their `setJob(getJobById(id))` reads the job list captured at render time, so the page first shows the job as it was before the update until the `[id, getJobById]` effect replaces it. `JobDetails.JobDetailsView.HandleAcceptJob` and `JobDetails.JobDetailsView.HandleUpdateStatus` state only that final value.
- The worker dashboard's "Accept Job" button (src/pages/WorkerDashboard.tsx:16-32, 142-149) is a second gate on accepting that is not modelled. It is offered on every job of the nearby list, behind the worker-only route guard, with no check that the worker is not the job's poster. It asks the registry for `assigned` with the signed-in user as worker, as `JobDetails.JobDetailsView.HandleAcceptJob` does.
- Navigation, date formatting, markup and styling are not modelled. Neither are the pages HomePage, Navbar, Footer, App, WorkerDashboard and PostJobPage.
- The `catch` branches of the page handlers are not modelled, because the modelled store operations never throw there.
- Chat.CollectByJob: job ids are plain map keys. The source groups into an object literal, where a job id naming an inherited property (`constructor`, `toString`, `__proto__` and the like) finds that property instead of an empty slot, and `push` on it throws. The model does not capture this.
- Chat.GroupByJob: inherits the same limitation through `Chat.CollectByJob`; for a log holding a message whose job id is an inherited property name the source effect throws.
- Chat.ChatStore.GetJobMessages: a lookup of an inherited property name (`jobChats["constructor"] || []`) returns that property in the source, not `[]`. The model returns the empty conversation.
- Chat.ChatStore.GetUnreadCount: for an inherited property name the source calls `filter` on a non-array and throws. The model returns a count.
- ChatView.MarkShownAsRead: for a route job id that names an inherited property the source effect throws on `messages.filter`. The model marks nothing.
- Seqs.SortBy: sorts by insertion, which keeps equal keys in order as the engine's stable sort does, but stability is not stated or proved. Only sortedness and the permutation are.
- Auth.AuthStore.UpdateProfile: a patch is a set of supplied fields. A key supplied with the value `undefined` is not modelled.
- ChatView.IsBlank: uses the WhiteSpace and LineTerminator code points of the ECMAScript specification for `trim`. Code points added to Unicode's space separators later are not tracked.
