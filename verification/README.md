# Group snapshots over a shared API store

The driver takes a snapshot of an etcd cluster on behalf of a group of volumes,
reports it, and deletes it again. It keeps no state of its own and takes no lock:
everything lives in the Kubernetes API store, in two ConfigMaps (snapshot records
and group records), in Job objects, and as files on a snapshot claim. Any number of
Create, Delete and Get requests run at once. What holds them together is the
optimistic concurrency of ConfigMap updates (Kubernetes API Conventions, section
"Concurrency Control and Consistency"), the uniqueness of object names, and the
order in which jobs run and records are written or removed. This project models
that protocol and proves what it guarantees over whole runs.

## How the model is laid out

| file | what it holds |
|---|---|
| `Wrappers.dfy` | optional values and results |
| `Identifiers.dfy`, `VolumeIds.dfy` | how IDs, job names and paths are printed, and how volume IDs are parsed |
| `Health.dfy` | the quorum check, with its two counting loops |
| `ConfigMaps.dfy` | a versioned ConfigMap, the manager's read-modify-write procedures on it, and any number of them at once |
| `Api.dfy` | the store, the calls, and what one call does: it is processed, or it fails without effect |
| `Machine.dfy` | the three RPCs as programs: a state names the call in flight and the handler's locals, `Advance` is what the handler does with the reply |
| `Client.dfy`, `Executor.dfy`, `Manager.dfy`, `Discovery.dfy`, `GroupController.dfy` | the handlers and their helpers as classes with loops and early returns |
| `Protocol.dfy` | the whole system: RPCs, jobs, the clock and the claims step in any order; its basic invariant |
| `Isolation.dfy`, `Validation.dfy`, `SnapshotClaims.dfy`, `Progress.dfy` | what requests leave alone, and that they end, in every run |
| `History.dfy`, `Provenance.dfy` | what must have happened before a record is written, an answer given or a record dropped |
| `Ledger.dfy`, `Records.dfy`, `Files.dfy`, `Orphans.dfy` | which records and files are in place in every reachable state |
| `JobWaits.dfy`, `Outcome.dfy`, `Cleanup.dfy` | how a Create and a cleanup end, in terms of the replies they get |
| `Times.dfy` | the clock readings in records and answers, and their order, in every run |
| `Lifecycle.dfy`, `Lookup.dfy`, `Creation.dfy`, `RoundTrip.dfy` | what an undisturbed Create, Get or Delete achieves, from any reachable state |
| `Paths.dfy`, `Possibility.dfy`, `Rejection.dfy`, `Abandonment.dfy` | what can come to pass after any history: a Create that goes through, an answer without a record, a record without its file, a snapshot out of reach |

The two views of a handler are tied together by `Client.Do`. The connection carries a
ghost copy of the RPC program, and a call may only be issued if it is the call the
program issues next; so a handler that verifies issues exactly the calls of its
program, in order, with the same arguments, on every path, whatever the replies are.
The replies come from an unconstrained function, which covers faults and every
interleaving with other clients. The system in `Protocol.dfy` interleaves those same
programs over one store, one atomic API call at a time.

`Protocol.dfy` also keeps a log of events (a label read, a health check accepted, a job
seen to succeed, a record written). The driver has no such log; it only gives the proofs a
way to say what happened before what.

## What the code does that its documentation does not say

- The comment above `CreateVolumeGroupSnapshot` (`internal/driver/groupcontroller.go:66-78`)
  promises one job per volume, run in parallel, and a rollback on error. The code runs one
  job, for the first volume's cluster, and rolls nothing back. The model follows the code.
- "Validate leader exists" (`internal/etcd/health.go:92-95, 143-146`) compares the member
  that answered the member list with the voters. It does not ask who leads. The properties
  are stated of the responder.
- `cleanupSnapshot` creates its job and passes the object it got back to an executor that
  creates it again (`internal/driver/groupcontroller.go:488-494`, `internal/job/executor.go:50-54`).
  By then the object carries a resource version, which an API server may reject. The second
  Create may therefore be answered with AlreadyExists or with another error.
  - If it is always rejected, no snapshot record is ever removed
    (`Rejection.RecordsAreNeverRemoved`), although the job that the first Create made still
    removes the file: every run that reaches the end of an undisturbed Create goes on, with
    rejections only, to a state where a Delete has ended without error, the group record is
    gone, and the snapshot is on record without the file it had
    (`Rejection.RejectionLosesTheFile`). So "a snapshot on record has its file" is not what
    the code keeps. What it keeps is `Files.FilesFollowRecords`: the file is there exactly as
    long as no delete job of the snapshot has run.
  - So a Delete after a Create restores the snapshot records exactly when that Create is
    answered with Created or AlreadyExists and the first decisive poll before the deadline
    shows a success (`RoundTrip.CreateThenDelete`), and every run that reaches the end of a
    Create goes on to a Delete that goes through without any fault and does not restore them
    (`Rejection.RestoringCanFail`).
- A Delete logs a failed cleanup and drops its group record all the same
  (`internal/driver/groupcontroller.go:349-365`). A snapshot that is still on record then
  stays there whatever Deletes follow, as long as nobody is cleaning it up already and its
  group is not given out again (`Abandonment.AbandonedSnapshotsStay`), and that can happen
  after any undisturbed Create (`Abandonment.LostForGood`).
- A Create logs a failed metadata Store and answers OK all the same
  (`internal/driver/groupcontroller.go:268-287`). `Records.AnsweredIsOnRecord` says when an
  answered snapshot is on record; without the record nothing ever removes its file
  (`Orphans.OrphansKeepTheirFile`), and that can happen to any request after any history
  (`Possibility.OrphanCanArise`).
- A metadata Delete whose Get fails for any reason is treated as a Delete of something that
  is not there (`internal/snapshot/metadata.go:138-143`); `ConfigMaps.DropMissesExactlyWhenGetFails`
  says when that leaves the key behind.

## Assumptions

- A call that fails has no effect on the store. (A lost reply to a call that did take
  effect is not modelled.)
- ConfigMaps are changed only by the driver, and are not deleted.
- Encoding a record as JSON and decoding it gives the record back, so ConfigMaps hold
  records and not strings.
- A resource version is a counter. Only its equality is used, so any scheme in which a
  write changes the version to one not used before would do.
- The store's clock counts nanoseconds since the epoch and never goes back; `Unix` divides by 10^9.
- The save command writes the file at its path and the delete command removes it; both may
  run more than once until the job has succeeded, and a job succeeds only after a run.
- Each voting member has a client URL (`internal/etcd/health.go:98` indexes the list). A member
  that cannot be dialled counts as unhealthy; the `Close` on the client returned beside that
  error (`internal/etcd/health.go:113-120`) is taken to do nothing.
- A select between the ticker and the deadline may take a tick until `grace` after the
  deadline; with ideal timers `grace` is zero, and a wait makes at most timeout / 5 s polls.
- Pod lists and etcd observations are arbitrary; claims may change at any time, and
  `SnapshotClaims` alone assumes that they are not deleted.

## Model

| member | source | states |
|---|---|---|
| Identifiers.DecimalInjective | internal/driver/groupcontroller.go:80 | a decimal numeral determines its number |
| Identifiers.DecimalReadsBack | internal/driver/groupcontroller.go:80-215 | read from left to right, the numeral that is printed for a number has that number as its value |
| Identifiers.DecimalIsNumeral | internal/driver/groupcontroller.go:80-215 | what is printed is digits only, with no leading zero but for zero itself |
| Identifiers.NumeralsArePrinted | internal/driver/groupcontroller.go:80-215 | every such string of digits is what is printed for its value |
| Identifiers.IdReadsBack | internal/driver/groupcontroller.go:80-215 | what stands before the last dash of an ID is its prefix, and what stands after it reads as its time |
| Identifiers.UnixRoundsDown | internal/driver/groupcontroller.go:80 | a second of an ID is the clock's, rounded down |
| Identifiers.IdsDetermineTheirParts | internal/driver/groupcontroller.go:80-215 | name-t determines (name, t) and name-t1-t2 determines all three, dashes in the name or not |
| Identifiers.SnapshotOfOneGroup | internal/driver/groupcontroller.go:215 | a snapshot ID belongs to one group ID only |
| Identifiers.NamesNeverCollide | internal/job/templates.go:61-79 | save job names, delete job names and file paths each determine the snapshot, and no save job is named like a delete job |
| VolumeIds.LastSlash | internal/driver/controller.go:18-24 | the position of the last slash, or -1 |
| VolumeIds.ParseVolumeId | internal/driver/controller.go:12-39 | the backward scan returns what splitting at the last slash gives, with the error cases |
| VolumeIds.ParsesItsOwnFormat | internal/driver/controller.go:12-39 | ns/pvc parses to (ns, pvc) for non-empty ns and non-empty slash-free pvc |
| VolumeIds.RebuiltFromItsParts | internal/driver/controller.go:12-39 | an accepted ID with a slash is its namespace, a slash and its name again |
| VolumeIds.SameClaim | internal/driver/controller.go:12-39 | two accepted IDs name one claim if and only if they are equal or one is the bare name and the other default/name |
| Health.ValidateHealth | internal/etcd/health.go:35-156 | Healthy if and only if a majority of the voters answered and the responder is a voter; each error exactly in its own case, with its counts |
| Health.FewVotersDown | internal/etcd/health.go:81-141 | an accepted check has at least v/2+1 voters up and at most (v-1)/2 down, and a voter answered it |
| Health.OrderDoesNotMatter | internal/etcd/health.go:65-146 | the whole verdict, error kind and counts included, is the same for any permutation of the member list |
| Health.LearnersDoNotMatter | internal/etcd/health.go:65-146 | adding or removing a learner anywhere leaves the whole verdict as it was, but for a list that had no members at all |
| Health.AcceptedChecksShareAVoter | internal/etcd/health.go:81-141 | two accepted checks of one voting membership share a voter that answered both |
| ConfigMaps.StepIsAtomic | internal/snapshot/metadata.go:66-155 | an acknowledged write applies the procedure's own edit to the contents of that moment; nothing else changes the ConfigMap; a lookup returns what is there |
| ConfigMaps.RunIsAtomic | internal/snapshot/metadata.go:66-155 | under any interleaving the contents are the acknowledged writes applied one at a time; a procedure that reports a write committed once, all others never; no two commits share a base version |
| ConfigMaps.FailedGetNeverOverwrites | internal/snapshot/metadata.go:66-90 | a Store whose Get failed on an existing ConfigMap never commits, in any continuation of the run |
| ConfigMaps.DropMissesExactlyWhenGetFails | internal/snapshot/metadata.go:138-155 | a Delete without error leaves its key in place if and only if its Get failed on a ConfigMap that holds the key |
| ConfigMaps.AloneItSucceeds | internal/snapshot/metadata.go:66-155 | undisturbed and without faults a Store or Delete ends with exactly its edit made |
| Clients.Client.Do | internal/driver/groupcontroller.go:79-509 | a call is only issued if the RPC program issues it next, and the program takes the reply |
| Executors.Executor.ExecuteSnapshotJob | internal/job/executor.go:37-88 | create or join; NotCreated exactly for another failure of Create; otherwise all that the wait saw, its verdict, and at most (timeout + grace) / 5 s polls; success exactly if the replies show the job joined and succeeded in time |
| Executors.Executor.WaitForJobCompletion | internal/job/executor.go:91-149 | ticks and polls in turn until the first poll that shows Succeeded or Failed above zero, which decides, or the first select that does not tick, which is the timeout; it ends |
| Executors.WaitedWaitsFor | internal/job/executor.go:91-149 | the verdict is that of the first readable decisive poll, Succeeded first, and otherwise timeout; the polls fit between the ticks and the deadline |
| Executors.OneWait | internal/job/executor.go:91-149 | the replies alone determine how long a wait is and how it ends |
| Managers.Manager.StoreSnapshotMetadata | internal/snapshot/metadata.go:53-106 | always two calls: a Get, and an Update that puts the record beside those it returned, or a Create if it returned none for whatever reason; success if and only if that write was acknowledged |
| Managers.Manager.RetrieveSnapshotMetadata | internal/snapshot/metadata.go:109-129 | the record under the ID in the ConfigMap the Get returned, or none |
| Managers.Manager.DeleteSnapshotMetadata | internal/snapshot/metadata.go:132-156 | a Get, and if that shows the record an Update that takes it away from the others; fails if and only if that Update failed |
| Managers.Manager.StoreGroupSnapshotMetadata | internal/snapshot/metadata.go:159-212 | the same as for snapshot records |
| Managers.Manager.RetrieveGroupSnapshotMetadata | internal/snapshot/metadata.go:215-235 | the same as for snapshot records |
| Managers.Manager.DeleteGroupSnapshotMetadata | internal/snapshot/metadata.go:238-262 | the same as for snapshot records |
| Discoveries.Discovery.DiscoverCluster | internal/etcd/discovery.go:31-50 | the cluster named by the claim's label with one endpoint per pod, or an error |
| Discoveries.Discovery.DiscoverByLabel | internal/etcd/discovery.go:52-94 | a cluster if and only if the list has pods, and then with the URL of each pod in the namespace, spelled out, in order |
| Discoveries.UrlsDetermineThePods | internal/etcd/discovery.go:75-80 | no two pods share a URL, and the list of URLs determines the list of pods |
| Discoveries.SnapshotPVCProvisioner.EnsureSnapshotPVC | internal/driver/snapshotpvc.go:37-110 | names the claim if and only if the lookup found it, or it was missing, the size parses and the Create went through or met one that was there by then; every other reply is an error |
| GroupControllers.GroupController.CreateVolumeGroupSnapshot | internal/driver/groupcontroller.go:79-314 | the handler runs the Create program; its error is the first failing check in phase order and then volume order; if no check fails it is the storage error exactly when the claim is not ensured, the save error exactly when the claim is ensured and the job is not joined and seen to succeed in time, and otherwise an OK answer with the group's ID, the snapshot's ID, the first volume, and as its two times what its last two calls read off the clock |
| GroupControllers.GroupController.ValidateClaims | internal/driver/groupcontroller.go:117-133 | stops at the first claim that is missing, unbound or not writable |
| GroupControllers.GroupController.ValidatePVCForGroup | internal/driver/groupcontroller.go:432-456 | no problem if and only if the claim was read, its phase is Bound and one of its modes is ReadWriteOnce or ReadWriteMany; each of the three problems exactly in its own case |
| GroupControllers.AcceptedClaimsAreUsable | internal/driver/groupcontroller.go:117-133 | if validation passes, the claim of every volume was read bound and writable |
| GroupControllers.NewClaimIsUsable | internal/driver/snapshotpvc.go:57-85 | a claim that provisioning makes is not bound, and passes that check once it is |
| GroupControllers.CleanupPollsTwelveTimes | internal/job/executor.go:91-149 | with ideal timers a cleanup, which waits one minute, polls twelve times if it ticks until its deadline and no poll is decisive, and never more often |
| GroupControllers.GroupController.DiscoverAll | internal/driver/groupcontroller.go:135-205 | stops at the first volume whose cluster is undiscoverable, unhealthy or unlike the first volume's |
| GroupControllers.GroupController.JudgeCluster | internal/driver/groupcontroller.go:158-191 | health before name before endpoint count |
| GroupControllers.GroupController.ParseVolumeIds | internal/driver/groupcontroller.go:97-115 | the volumes of the IDs up to the first that does not parse |
| GroupControllers.FailingCheckDecides | internal/driver/groupcontroller.go:89-205 | a failing check with none failing before it is the only possible answer |
| GroupControllers.NothingFails | internal/driver/groupcontroller.go:89-205 | if every phase passes every volume, no check has a problem |
| GroupControllers.AcceptedVolumesShareACluster | internal/driver/groupcontroller.go:145-205 | if validation passes, every volume has the first one's cluster name and endpoint count, and with its namespace and a stable pod list the identical endpoint list |
| GroupControllers.GroupController.SaveSnapshot | internal/driver/groupcontroller.go:207-256 | claim, then snapshot ID, then job; the storage error if and only if the claim is not ensured, the save error if and only if it is and the job is not created or joined and seen to succeed in time |
| GroupControllers.GroupController.StoreRecords | internal/driver/groupcontroller.go:258-287 | snapshot record before group record, each under its own time; failures are passed over |
| GroupControllers.GroupController.DeleteVolumeGroupSnapshot | internal/driver/groupcontroller.go:323-373 | the handler runs the Delete program; the only error is a missing ID; if its lookup does not show the group's record, for whatever reason, that is its only call |
| GroupControllers.GroupController.CleanupSnapshot | internal/driver/groupcontroller.go:459-509 | nil if and only if there is no record, or its job was created, then joined by the executor and seen to succeed in time, and the record's removal did not fail |
| GroupControllers.GroupController.GetVolumeGroupSnapshot | internal/driver/groupcontroller.go:380-429 | the handler runs the Get program; a missing ID is an error; NotFound if and only if the first reply does not show the group's record; else that record's snapshot, first volume and readiness, at the time of the snapshot record if the second reply shows it and else of the group record |
| Protocol.Footprint | internal/driver/groupcontroller.go:79-509 | a step of an RPC writes its own key of one ConfigMap, or makes one job under a free name, or touches no record and no job |
| Protocol.RunKeepsInv | internal/driver/groupcontroller.go:79-509 | in every reachable state the locals of each RPC, the records, the jobs and the files fit the groups created so far, and reads in flight are current or stale, never wrong |
| Protocol.GetNeverPanics | internal/driver/groupcontroller.go:392-428 | no Get indexes an empty list, and each group record sits under its own ID with source volumes |
| Protocol.UnusedGroupsAreFresh | internal/driver/groupcontroller.go:80-215 | a (name, second) pair no Create was given yet makes IDs, job names and files that are nowhere in the store |
| Protocol.LaterGroupsAreFresh | internal/driver/groupcontroller.go:80-215 | all IDs in a reachable state carry times no later than the clock, so any later second is new |
| Isolation.OthersStayUntouched | internal/driver/groupcontroller.go:323-373 | over any stretch of any run in which nothing works on a group, its records, files and jobs stay as they are |
| Isolation.DeleteFootprint | internal/driver/groupcontroller.go:323-373 | a step of a Delete drops at most its own group record or a snapshot record of that group, and leaves every other group's records, files and jobs alone |
| Isolation.ForeignJob | internal/job/templates.go:244-290 | a job of another group's snapshot has another name and another file |
| History.RunIsJustified | internal/driver/groupcontroller.go:145-282 | in every run each event comes after what justifies it: an accepted health check after the label and the pods of that very volume were read, writes and answers after the checks of all volumes and the save's success, removals after the delete job's success |
| Provenance.StampIsTheRequest | internal/driver/groupcontroller.go:79-81 | a Create that arrives with a name and volumes is only ever given a group ID for that name and those volumes |
| Provenance.RunStampsOnce | internal/driver/groupcontroller.go:80 | each Create is given one group ID only |
| Provenance.LabelsWereThere | internal/etcd/discovery.go:37-47 | a cluster label that was read was on the claim in the state it was read in |
| Provenance.EveryRecordIsVouched | internal/driver/groupcontroller.go:145-282 | each record names the volumes of one request; for each of them, by index, the label of the claim it names was read, the pods were listed and the cluster they make up passed its health check, all with the record's cluster name and one endpoint count; and the save job of the record's snapshot, in the first volume's namespace, was seen to succeed |
| Provenance.EveryAnswerIsVouched | internal/driver/groupcontroller.go:145-314 | the same for the request an OK answer is given to; the answer names its first volume and its group |
| Ledger.RecordsStayFindable | internal/driver/groupcontroller.go:349-365 | a snapshot record once stored and now gone was dropped by an RPC that had seen the delete job of that ID succeed, also when group records were dropped after failed cleanups |
| Ledger.OnlyCleanersDrop | internal/driver/groupcontroller.go:487-502 | the RPC of a removal created the delete job, then saw it succeed, then dropped the record |
| Ledger.OneCleanupPerJobObject | internal/driver/groupcontroller.go:487-491 | of two RPCs that created the cleanup job of one snapshot, the later one came after the earlier job object had expired |
| Ledger.RefusedDeleteNeverDrops | internal/driver/groupcontroller.go:349-356 | a Delete that finds the cleanup job taken changes nothing in that step and never drops a snapshot record, however the run goes on |
| Files.FilesFitInRuns | internal/job/templates.go:244-290 | in every reachable state a saved file is there unless its delete job ran, and delete jobs only ran for saved files; for a snapshot whose group one Create only was given, a file whose delete job ever ran is gone and no finished save runs again |
| Files.FilesFollowRecords | internal/driver/groupcontroller.go:459-509 | a snapshot that was ever stored has its file until its delete job runs; if one Create only was given its group, it has its file if and only if its delete job has not run, and that has run before its record is gone |
| Files.LastRunDecides | internal/job/templates.go:244-290 | whatever Creates share a group: a file is there if and only if its save job has run and its delete job has not run since |
| Files.SoleGroupsAreDistinct | internal/driver/groupcontroller.go:80 | one Create only was given a group if and only if no other was given its name in its second |
| Records.RecordsAreExact | internal/snapshot/metadata.go:53-262 | in every reachable state records in place were stored, and what was stored and not dropped is in place; a record of a group that one Create only was given is in place exactly then |
| Records.AnsweredIsOnRecord | internal/driver/groupcontroller.go:268-287 | an answered snapshot, and its group, is on record if this Create's own Store of it was acknowledged and nobody dropped it since, and only then if no other Create was given the group |
| Orphans.OnlyStoredAreCleaned | internal/driver/groupcontroller.go:459-491 | delete jobs, present and past, and cleanups in flight are only of snapshots whose Store was acknowledged |
| Orphans.OrphansKeepTheirFile | internal/driver/groupcontroller.go:268-287 | as long as no Store of an answered snapshot was acknowledged it has no record and no delete job, and its file is in place |
| Validation.FailedCreateLeavesRecords | internal/driver/groupcontroller.go:89-256 | a Create that ends in an error never changed either ConfigMap at any of its steps, and nothing at all unless it was the job that failed |
| SnapshotClaims.ClaimsFitInRuns | internal/driver/snapshotpvc.go:37-110 | if claims are not deleted, at most one Create of each snapshot claim succeeds over the whole run, and every request past provisioning has its claim |
| SnapshotClaims.RpcsNeverChangeClaims | internal/driver/snapshotpvc.go:37-110 | no step of a request changes a claim that exists |
| Progress.RequestsEnd | internal/driver/groupcontroller.go:79-509 | in every run, under any faults and interference, a request that has made a number of calls fixed by where it stood, and two more for each tick of its wait, has ended |
| Lifecycle.DeleteConverges | internal/driver/groupcontroller.go:335-372 | from any reachable state an undisturbed Delete has ended after nine calls and two more for each tick, without error, with exactly its group record gone and the snapshot record gone if and only if the cleanup succeeded |
| Lifecycle.SecondDeleteChangesNothing | internal/driver/groupcontroller.go:335-342 | after one undisturbed Delete a second one leaves the store alone at each of its steps, keeps both ConfigMaps' contents, and ends with its first call (CSI specification v1.12.0, section `DeleteVolumeGroupSnapshot`) |
| Creation.CreateTakes | internal/driver/groupcontroller.go:79-314 | an undisturbed Create of a new group that answers without error added exactly the file, the snapshot record and the group record of its answer, at times in that order between its beginning and its answer's, and its save job is over |
| Creation.SaveJobIsCreated | internal/job/executor.go:50-64 | the save job of a new group is created under a free name and not joined |
| Lookup.AloneGetReports | internal/driver/groupcontroller.go:392-428 | from any reachable state an undisturbed Get answers NotFound if and only if there is no record of the group, and else what that record and the snapshot's record say; it changes no record |
| Lookup.GetAfterDelete | internal/driver/groupcontroller.go:323-428 | an undisturbed Get after an undisturbed Delete of the group answers NotFound |
| Lookup.GetReportsWhatWasThere | internal/driver/groupcontroller.go:392-428 | in any run an OK answer of a Get is that of a record of the group that was in place while it ran, at the time of a snapshot record that was in place while it ran or its own; and the only other answer is NotFound, after a lookup that met no record or failed |
| Times.AnswerTimes | internal/driver/groupcontroller.go:259-311 | in any run the times in the records and the answer of a Create are what the clock showed in the steps that read them, and from the step that saw the save succeed they come in order: snapshot record, group record, the answer's snapshot time, its group time, now |
| Times.AnswerIsLast | internal/driver/groupcontroller.go:308 | the step that reads the answer's group time is the one that answers |
| RoundTrip.GetReportsTheCreate | internal/driver/groupcontroller.go:392-428 | an undisturbed Get after it reports the same group, snapshot, first source volume and readiness, at a time between the Create's beginning and the time it answered |
| Outcome.CreateEndsAsAnswered | internal/driver/groupcontroller.go:207-256 | in any run a Create ends OK exactly when its save job was joined and the first thing to end the wait was a poll that showed a success, with the save error exactly when it was not joined or the wait ended with a failure or the deadline, and with the storage error exactly when the lookup or Create of the claim was refused |
| Outcome.AloneCreateEnds | internal/driver/groupcontroller.go:207-256 | an undisturbed Create of a new group always gets its job created, so it ends OK, or with the save error, exactly by how its wait ended first, and with the storage error exactly when the claim was missing and its size does not parse |
| Cleanup.CleanedUpMeansAnswered | internal/driver/groupcontroller.go:487-502 | in any run a Delete goes on to remove the snapshot record exactly when the executor's Create is answered with Created or AlreadyExists and the first decisive poll, before the deadline, shows a success |
| RoundTrip.CreateThenDelete | internal/driver/groupcontroller.go:258-373 | an undisturbed Delete after it restores the group records; the snapshot records if and only if it gets those replies; and then the files too |
| Rejection.RecordsAreNeverRemoved | internal/driver/groupcontroller.go:487-497 | if job objects with a version are always rejected, every snapshot record ever stored is on record in every later state |
| Rejection.RejectionPreventsRestoring | internal/driver/groupcontroller.go:487-497 | then no undisturbed Create and Delete restore the snapshot records |
| Rejection.RestoringCanFail | internal/driver/groupcontroller.go:323-509 | every run that ends with an undisturbed Create's answer and a Delete of it about to start goes on to a run in which that Delete ends, undisturbed and without error, and does not restore the snapshot records |
| Rejection.RejectionLosesTheFile | internal/driver/groupcontroller.go:349-497 | every such run goes on, with nothing but rejections of versioned job objects, to a state in which the Delete has ended without error, the group record is gone, the snapshot record is what it was, and its file, which was there, is gone |
| Possibility.CreateCanSucceed | internal/driver/groupcontroller.go:79-314 | after any run, any request with a name and volumes that parse can be given a new group, go undisturbed and be answered OK |
| Possibility.AnswerCanLackItsRecords | internal/driver/groupcontroller.go:258-314 | every run with a Create about to store its records goes on to its OK answer with nothing written and nothing else logged |
| Possibility.OrphanCanArise | internal/driver/groupcontroller.go:258-314 | after any run, any such request can be answered OK with neither record ever stored and its file in place |
| Abandonment.AbandonedSnapshotsStay | internal/driver/groupcontroller.go:349-365 | once a group has no record and nobody is creating it or cleaning it up, and while no Create is given it again, its snapshot records are the same in every later state and its group record does not come back, whatever Deletes there are |
| Abandonment.AbandonedForGood | internal/driver/groupcontroller.go:80-365 | if the second of the group is over as well, a snapshot of it on record stays there for good |
| Abandonment.LostForGood | internal/driver/groupcontroller.go:349-497 | every run that ends with an undisturbed Create's answer and a Delete of it about to start goes on to one where the snapshot is on record without its file and its group is so abandoned |

## Left out

- A Create that fails may leave a file, a job or a claim behind: a failed job may have written its file, and `Failed > 0` ends the wait although the job may still retry. No cleanliness is claimed for that case.
- With two Creates of one name in one second the code gives both the same group ID, and their snapshots may live in different namespaces or share an ID. Of such a group, `Files.FilesFollowRecords` and `Records.RecordsAreExact` keep only the halves that do not need a sole Create; `Files.LastRunDecides` says when its files are there. Other groups are not affected.
- Timers: in runs a wait may tick any number of times before its deadline comes; that at most timeout / 5 s ticks fit in is shown of the executor itself, with ideal timers.
- Pods that outlive their job object, and an API server that loses a reply to a call it has carried out.
- JSON encoding of records, and malformed entries in a ConfigMap.
- File paths are compared as strings, so names with `/` or `..` in them are not resolved.
- The etcd endpoints and the command line in the job manifests, so what a save job writes into its file; resource quantities, images, security contexts, TLS settings, timeouts and backoff limits in the job manifests; whether the size of the snapshot claim parses is a flag of the configuration.
- Pod logs, job durations, log lines and error texts; errors are told apart by kind and volume index.
- Request cancellation: a cancelled context shows up as failing calls only.
- The fallback that counts pods when there is no health validator (`internal/etcd/discovery.go:92-104`) and `internal/job/monitor.go`, which the live path does not use.
- The gRPC server, identity service, capabilities, liveness and readiness answers, command line, metrics and signals: no state of interest.
- Restore, retention, leader election and discovery by annotation or StatefulSet, which the documentation mentions and the code does not have.
