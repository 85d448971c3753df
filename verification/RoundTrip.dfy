/** What an undisturbed Create leaves behind: Get reports it, and Delete takes
    all of it back exactly when its cleanup job is seen to succeed. */
module RoundTrip {
  import opened Identifiers
  import opened Api
  import opened Machine
  import opened Protocol
  import opened Files
  import opened Lifecycle
  import opened Lookup
  import opened JobWaits
  import opened Cleanup
  import opened Creation
  import opened Wrappers

  /* ----- Create, then Get ----- */

  /** After an undisturbed Create, an undisturbed Get reports the same group,
      snapshot, first source volume and readiness, at a time no earlier than the Create
      began and no later than the answer of the Create says. */
  lemma GetReportsTheCreate(
    run: seq<System>, steps: seq<Step>, i: nat, j: nat, id: nat, name: string, k: nat, getter: nat)
    requires CreatesAlone(run, steps, i, j, id, name) && j <= k < |run|
    requires getter in run[j].rpcs && run[j].rpcs[getter] == GetFinding(run[j].rpcs[id].created.value.groupId)
    requires Undisturbed(run, steps, j, k, getter, GroupId(name, Unix(run[i].store.clock)))
    requires getter in run[k].rpcs && Ended(run[k].rpcs[getter])
    ensures var answer, got := run[j].rpcs[id].created.value, run[k].rpcs[getter];
      && got.GetDone? && got.got.Ok?
      && got.got.value == GetResponse(answer.groupId, answer.snapshotId, answer.sourceVolumeId,
                            got.got.value.creationTime, answer.readyToUse)
      && run[i].store.clock <= got.got.value.creationTime <= answer.snapshotTime
  {
    var d := CreateTakes(run, steps, i, j, id, name);
    AloneGetReports(run, steps, j, k, getter, d.groupId);
  }

  /* ----- Create, then Delete ----- */

  /** Jobs of the group are its finished save job and its cleanup; once the
      cleanup has run the files are those of start again. */
  ghost predicate FilesLeft(d: Draft, start: Store, s: Store) {
    && (s.files == start.files || s.files == start.files + {SnapshotFile(d)})
    && forall key <- s.jobs :: SnapshotOf(d.groupId, s.jobs[key].spec.snapshotId) ==>
         JobLeft(d, s.jobs[key], s.files == start.files)
  }

  predicate JobLeft(d: Draft, job: Job, gone: bool) {
    || (job.spec == d.Job() && job.succeeded > 0)
    || (job.spec == CleanupFor(d.Job()) && (job.ran ==> gone))
  }

  /** The Delete works with the cleanup of the snapshot that was taken, and once
      it has seen that succeed the files are those of start. */
  ghost predicate CleanupStands(r: Rpc, d: Draft, start: Store, s: Store, cleaned: bool) {
    && FilesLeft(d, start, s)
    && (cleaned ==> s.files == start.files)
    && (r.CleanupCreating? ==> r.job == CleanupFor(d.Job()))
    && (r.CleanupRunning? ==> WorksOn(r.exec, CleanupFor(d.Job())))
  }

  lemma JobKeepsFilesLeft(s: System, step: Step, s': System, d: Draft, start: Store)
    requires JobActs(s, step, s') && SnapshotOf(d.groupId, s.store.jobs[step.key].spec.snapshotId)
    requires FilesLeft(d, start, s.store) && SnapshotFile(d) !in start.files
    ensures FilesLeft(d, start, s'.store)
    ensures s.store.files == start.files ==> s'.store.files == start.files
  {
    assert JobLeft(d, s.store.jobs[step.key], s.store.files == start.files);
  }

  /** Looking the snapshot up, the Delete finds the record the Create stored. */
  lemma LookupFindsTheCleanup(
    r: Rpc, d: Draft, start: Store, mid: Store, s: Store, latest: nat, reply: Reply, s': Store)
    requires r.DeleteFinding? || r.CleanupFinding?
    requires DeleteStands(r, d.groupId, mid, s, false) && Taken(d, start, mid, latest)
    requires CleanupStands(r, d, start, s, false) && Processed(s, NextCall(r), reply, s')
    ensures CleanupStands(DeletingNext(r, reply), d, start, s', false)
  {
  }

  lemma CleanupJobIsNew(d: Draft, start: Store, c: Call, s: Store, reply: Reply, s': Store)
    requires FilesLeft(d, start, s) && Processed(s, c, reply, s')
    requires c.CreateJob? && c.job == CleanupFor(d.Job())
    ensures FilesLeft(d, start, s') && s'.files == s.files
  {
  }

  lemma CleanupStarts(r: Rpc, d: Draft, start: Store, s: Store, reply: Reply, s': Store)
    requires r.CleanupCreating? && CleanupStands(r, d, start, s, false) && Processed(s, NextCall(r), reply, s')
    ensures CleanupStands(DeletingNext(r, reply), d, start, s', false)
    ensures !DeletingNext(r, reply).CleanupDropping?
  {
    CleanupJobIsNew(d, start, NextCall(r), s, reply, s');
  }

  lemma CleanupGoesOn(r: Rpc, d: Draft, start: Store, s: Store, reply: Reply, s': Store)
    requires r.CleanupRunning? && CleanupStands(r, d, start, s, false) && Processed(s, NextCall(r), reply, s')
    requires !DeletingNext(r, reply).CleanupDropping?
    ensures CleanupStands(DeletingNext(r, reply), d, start, s', false)
  {
    if r.exec.Creating? {
      CleanupJobIsNew(d, start, NextCall(r), s, reply, s');
    }
  }

  lemma CleanupSucceeds(log: seq<Event>, r: Rpc, d: Draft, start: Store, s: Store, reply: Reply, s': Store)
    requires r.CleanupRunning? && CleanupStands(r, d, start, s, false) && StoreFits(log, s)
    requires SnapshotOf(d.groupId, d.snapshotId)
    requires Processed(s, NextCall(r), reply, s') && DeletingNext(r, reply).CleanupDropping?
    requires !r.exec.Finished?
    ensures CleanupStands(DeletingNext(r, reply), d, start, s', true)
  {
    var job, key := r.exec.job, JobKey(r.exec.job);
    assert s' == s && JobFits(log, key, s.jobs[key]);
    KeyNamesTheSpec(log, key, s.jobs[key], job);
    assert JobLeft(d, s.jobs[key], s.files == start.files);
  }

  lemma DropKeepsCleanup(r: Rpc, d: Draft, start: Store, s: Store, cleaned: bool, reply: Reply, s': Store)
    requires r.CleanupDropping? || r.DroppingGroup?
    requires CleanupStands(r, d, start, s, cleaned) && Processed(s, NextCall(r), reply, s')
    ensures CleanupStands(DeletingNext(r, reply), d, start, s', cleaned)
    ensures DeletingNext(r, reply).CleanupDropping? ==> r.CleanupDropping?
  {
  }

  lemma RunningKeepsCleanup(s: System, id: nat, reply: Reply, s': System, d: Draft, start: Store)
    requires Inv(s) && Serves(s, id, reply, s') && Processed(s.store, NextCall(s.rpcs[id]), reply, s'.store)
    requires s.rpcs[id].CleanupRunning? && CleanupStands(s.rpcs[id], d, start, s.store, false)
    requires SnapshotOf(d.groupId, d.snapshotId)
    ensures CleanupStands(s'.rpcs[id], d, start, s'.store, s'.rpcs[id].CleanupDropping?)
  {
    var r := s.rpcs[id];
    if s'.rpcs[id].CleanupDropping? {
      assert Shape(s.log, id, r);
      CleanupSucceeds(s.log, r, d, start, s.store, reply, s'.store);
    } else {
      CleanupGoesOn(r, d, start, s.store, reply, s'.store);
    }
  }

  lemma ServeKeepsCleanup(s: System, id: nat, reply: Reply, s': System, d: Draft, start: Store, cleaned: bool)
    requires Inv(s) && Serves(s, id, reply, s') && Processed(s.store, NextCall(s.rpcs[id]), reply, s'.store)
    requires Deleting(s.rpcs[id]) && !s.rpcs[id].DeleteFinding? && !s.rpcs[id].CleanupFinding?
    requires SnapshotOf(d.groupId, d.snapshotId) && CleanupStands(s.rpcs[id], d, start, s.store, cleaned)
    requires s.rpcs[id].CleanupRunning? || s.rpcs[id].CleanupCreating? ==> !cleaned
    requires s.rpcs[id].CleanupDropping? ==> cleaned
    ensures CleanupStands(s'.rpcs[id], d, start, s'.store, cleaned || s'.rpcs[id].CleanupDropping?)
  {
    var r := s.rpcs[id];
    if r.CleanupRunning? {
      RunningKeepsCleanup(s, id, reply, s', d, start);
    } else if r.CleanupCreating? {
      CleanupStarts(r, d, start, s.store, reply, s'.store);
    } else {
      DropKeepsCleanup(r, d, start, s.store, cleaned, reply, s'.store);
    }
  }

  lemma OthersKeepCleanup(s: System, step: Step, s': System, id: nat, d: Draft, start: Store, cleaned: bool)
    requires Next(s, step, s') && Solo(s, step, s', id, d.groupId) && !step.Serve? && id in s.rpcs
    requires SnapshotFile(d) !in start.files && CleanupStands(s.rpcs[id], d, start, s.store, cleaned)
    ensures id in s'.rpcs && s'.rpcs[id] == s.rpcs[id] && CleanupStands(s.rpcs[id], d, start, s'.store, cleaned)
  {
    OtherSteps(s, step, s', id);
    if OnJob(step) {
      JobKeepsFilesLeft(s, step, s', d, start);
    }
  }

  lemma SoloCleanup(
    s: System, step: Step, s': System, id: nat, d: Draft, start: Store, mid: Store, latest: nat, cleaned: bool)
    requires Inv(s) && Next(s, step, s') && Solo(s, step, s', id, d.groupId) && id in s.rpcs
    requires Taken(d, start, mid, latest) && SnapshotFile(d) !in start.files
    requires DeleteStands(s.rpcs[id], d.groupId, mid, s.store, cleaned)
    requires CleanupStands(s.rpcs[id], d, start, s.store, cleaned)
    ensures id in s'.rpcs
    ensures CleanupStands(s'.rpcs[id], d, start, s'.store, cleaned || s'.rpcs[id].CleanupDropping?)
  {
    if !step.Serve? {
      OthersKeepCleanup(s, step, s', id, d, start, cleaned);
    } else if s.rpcs[id].DeleteFinding? || s.rpcs[id].CleanupFinding? {
      LookupFindsTheCleanup(s.rpcs[id], d, start, mid, s.store, latest, step.reply, s'.store);
    } else {
      ServeKeepsCleanup(s, id, step.reply, s', d, start, cleaned);
    }
  }

  lemma {:induction false} CleanupProgress(
    run: seq<System>, steps: seq<Step>, i: nat, j: nat, id: nat, d: Draft, start: Store, latest: nat)
    requires IsRun(run, steps) && i <= j < |run| && Undisturbed(run, steps, i, j, id, d.groupId)
    requires id in run[i].rpcs && run[i].rpcs[id] == DeleteFinding(d.groupId)
    requires Taken(d, start, run[i].store, latest) && SnapshotFile(d) !in start.files
    ensures id in run[j].rpcs && CleanupStands(run[j].rpcs[id], d, start, run[j].store, CleanedUp(run, i, j, id))
    decreases j - i
  {
    if i < j {
      var k := j - 1;
      CleanupProgress(run, steps, i, k, id, d, start, latest);
      DeleteProgress(run, steps, i, k, id, d.groupId);
      RunKeepsInv(run, steps, k);
      assert StepAt(run, steps, k) && SoloAt(run, steps, k, id, d.groupId);
      SoloCleanup(run[k], steps[k], run[k + 1], id, d, start, run[i].store, latest, CleanedUp(run, i, k, id));
      CleanedUpExtends(run, i, k, id);
    }
  }

  lemma FreshFile(d: Draft, start: Store)
    requires Fresh(d.groupId, start) && SnapshotOf(d.groupId, d.snapshotId)
    ensures SnapshotFile(d) !in start.files
    ensures d.groupId !in GroupsOf(start) && d.snapshotId !in SnapshotsOf(start)
  {
    assert SnapshotFile(d).path == SnapshotPath(d.snapshotId);
  }

  /** An undisturbed Create and then an undisturbed Delete: the group records are
      those from before the Create; the snapshot records are too exactly when the
      executor's Create of the cleanup job is answered with Created or AlreadyExists
      and the first decisive poll before its deadline shows a success; and then so
      are the files. */
  lemma CreateThenDelete(
    run: seq<System>, steps: seq<Step>, i: nat, j: nat, id: nat, name: string, k: nat, deleter: nat)
    requires CreatesAlone(run, steps, i, j, id, name) && j <= k < |run|
    requires deleter in run[j].rpcs && run[j].rpcs[deleter] == DeleteFinding(run[j].rpcs[id].created.value.groupId)
    requires Undisturbed(run, steps, j, k, deleter, GroupId(name, Unix(run[i].store.clock)))
    requires deleter in run[k].rpcs && Ended(run[k].rpcs[deleter])
    ensures GroupsOf(run[k].store) == GroupsOf(run[i].store)
    ensures SnapshotsOf(run[k].store) == SnapshotsOf(run[i].store) <==> JobAnswered(run, steps, j, k, deleter)
    ensures JobAnswered(run, steps, j, k, deleter) ==> run[k].store.files == run[i].store.files
  {
    var d := CreateTakes(run, steps, i, j, id, name);
    var latest := run[j].rpcs[id].created.value.snapshotTime;
    FreshFile(d, run[i].store);
    DeleteConverges(run, steps, j, k, deleter, d.groupId);
    CleanupProgress(run, steps, j, k, deleter, d, run[i].store, latest);
    CleanedUpMeansAnswered(run, steps, j, k, deleter);
    assert Target(run[j].store, d.groupId) == d.snapshotId;
  }
}
