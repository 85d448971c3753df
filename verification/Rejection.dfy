/** The Delete handler creates its cleanup job and then hands the object it got
    back, which carries a resource version by now, to an executor that creates
    it once more. This is what follows if the API server rejects such objects. */
module Rejection {
  import opened Identifiers
  import opened Api
  import opened Machine
  import opened Protocol
  import opened Ledger
  import opened Files
  import opened Lifecycle
  import opened Paths
  import opened Cleanup
  import opened Creation
  import opened RoundTrip
  import CM = ConfigMaps

  /** No job object that carries a version is ever accepted. */
  ghost predicate RejectsVersioned(run: seq<System>, steps: seq<Step>)
    requires |run| == |steps| + 1
  {
    forall k: nat :: k < |steps| ==> RejectsAt(run[k], steps[k])
  }

  /** No cleanup gets past its executor's first call. */
  predicate Stuck(r: Rpc) {
    !r.CleanupDropping? && (r.CleanupRunning? ==> r.exec.Creating? && r.exec.versioned)
  }

  ghost predicate NothingCleaned(s: System) {
    && (forall id <- s.rpcs :: Stuck(s.rpcs[id]))
    && (forall e <- s.log :: !e.DeleteSeen?)
  }

  lemma StuckStaysStuck(id: nat, r: Rpc, reply: Reply)
    requires !Ended(r) && Stuck(r) && Rejects(NextCall(r), reply)
    ensures Stuck(Advance(r, reply)) && forall e <- EventOf(id, r, reply) :: !e.DeleteSeen?
  {
    if !r.CleanupRunning? && !r.CleanupCreating? && !r.CleanupFinding? {
      OnlyLookupsStartCleanups(r, reply);
    }
  }

  lemma StepKeepsNothingCleaned(s: System, step: Step, s': System)
    requires Next(s, step, s') && NothingCleaned(s)
    requires RejectsAt(s, step)
    ensures NothingCleaned(s')
  {
    if step.Serve? {
      StuckStaysStuck(step.id, s.rpcs[step.id], step.reply);
    }
  }

  lemma {:induction false} NothingIsCleaned(run: seq<System>, steps: seq<Step>, i: nat)
    requires IsRun(run, steps) && RejectsVersioned(run, steps) && i < |run|
    ensures NothingCleaned(run[i])
    decreases i
  {
    if i > 0 {
      NothingIsCleaned(run, steps, i - 1);
      assert StepAt(run, steps, i - 1) && RejectsAt(run[i - 1], steps[i - 1]);
      StepKeepsNothingCleaned(run[i - 1], steps[i - 1], run[i - 1 + 1]);
    }
  }

  /** Then no Delete ever removes a snapshot record: whatever was stored is on
      record in every later state. */
  lemma RecordsAreNeverRemoved(run: seq<System>, steps: seq<Step>, i: nat, id: nat, record: SnapshotRecord)
    requires IsRun(run, steps) && RejectsVersioned(run, steps) && i < |run|
    requires SnapshotStored(id, record) in run[i].log
    ensures record.snapshotId in CM.Contents(run[i].store.snapshots)
  {
    NothingIsCleaned(run, steps, i);
    RecordsStayFindable(run, steps, i);
    assert !Removed(run[i].log, record.snapshotId);
  }

  /** So an undisturbed Create and Delete never restore the snapshot records. */
  lemma RejectionPreventsRestoring(
    run: seq<System>, steps: seq<Step>, i: nat, j: nat, id: nat, name: string, k: nat, deleter: nat)
    requires CreatesAlone(run, steps, i, j, id, name) && j <= k < |run| && RejectsVersioned(run, steps)
    requires deleter in run[j].rpcs && run[j].rpcs[deleter] == DeleteFinding(run[j].rpcs[id].created.value.groupId)
    requires Undisturbed(run, steps, j, k, deleter, GroupId(name, Unix(run[i].store.clock)))
    requires deleter in run[k].rpcs && Ended(run[k].rpcs[deleter])
    ensures SnapshotsOf(run[k].store) != SnapshotsOf(run[i].store)
  {
    CreateThenDelete(run, steps, i, j, id, name, k, deleter);
    CleanedUpMeansAnswered(run, steps, j, k, deleter);
    forall m | j <= m <= k && deleter in run[m].rpcs ensures !run[m].rpcs[deleter].CleanupDropping? {
      NothingIsCleaned(run, steps, m);
      assert Stuck(run[m].rpcs[deleter]);
    }
  }

  /* ----- such a Delete exists after every Create ----- */

  /** The answer of an API server that is up and rejects versioned objects. */
  ghost function Answer(s: Store, c: Call): (Reply, Store) {
    match c
    case OnGroups(call) => (Groups(CM.Serve(s.groups, call).1), s.(groups := CM.Serve(s.groups, call).0))
    case OnSnapshots(call) => (Snapshots(CM.Serve(s.snapshots, call).1), s.(snapshots := CM.Serve(s.snapshots, call).0))
    case CreateJob(job, versioned) =>
      if versioned then (Failure(CM.Other), s)
      else if JobKey(job) in s.jobs then (Failure(CM.AlreadyExists), s)
      else (Reply.Created, s.(jobs := s.jobs[JobKey(job) := Job(job, false, 0, 0)]))
    case _ => (Tick, s)
  }

  /** The RPC is a Delete that has not got as far as its executor's wait. */
  ghost predicate Answerable(s: System, id: nat) {
    id in s.rpcs && Deleting(s.rpcs[id]) && (s.rpcs[id].CleanupRunning? ==> s.rpcs[id].exec.Creating?)
  }

  ghost function After(s: System, id: nat): System
    requires Answerable(s, id)
  {
    var (reply, store) := Answer(s.store, NextCall(s.rpcs[id]));
    AfterReply(s, id, reply, store)
  }

  lemma AnswerReaches(s: System, id: nat, g: string)
    requires Answerable(s, id)
    ensures Reaches(AloneRejecting(id, g), s, After(s, id))
  {
    var (reply, store) := Answer(s.store, NextCall(s.rpcs[id]));
    ReplyReaches(AloneRejecting(id, g), s, id, reply, store);
  }

  lemma TwoAnswersReach(s: System, id: nat, g: string)
    requires Answerable(s, id) && Answerable(After(s, id), id)
    ensures Reaches(AloneRejecting(id, g), s, After(After(s, id), id))
  {
    AnswerReaches(s, id, g);
    AnswerReaches(After(s, id), id, g);
    ReachesOnwards(AloneRejecting(id, g), s, After(s, id), After(After(s, id), id));
  }

  /* Two lookups, the cleanup job, its rejection, and the group record's read and write. */

  lemma GroupLookedUp(s: System, id: nat, g: string)
    requires id in s.rpcs && s.rpcs[id] == DeleteFinding(g) && g in GroupsOf(s.store)
    ensures Answerable(s, id) && id in After(s, id).rpcs && After(s, id).store == s.store
    ensures After(s, id).rpcs[id] == CleanupFinding(g, GroupsOf(s.store)[g].snapshotId)
  {
  }

  lemma SnapshotLookedUp(s: System, id: nat, g: string, k: string)
    requires id in s.rpcs && s.rpcs[id] == CleanupFinding(g, k) && k in SnapshotsOf(s.store)
    ensures Answerable(s, id) && id in After(s, id).rpcs && After(s, id).store == s.store
    ensures var record := SnapshotsOf(s.store)[k];
      After(s, id).rpcs[id] == CleanupCreating(g, k, DeleteJob(record.namespace, k, record.pvcName))
  {
  }

  lemma LookupsAnswered(s: System, id: nat, d: Draft, start: Store, latest: nat) returns (s': System)
    requires id in s.rpcs && s.rpcs[id] == DeleteFinding(d.groupId) && Taken(d, start, s.store, latest)
    ensures Reaches(AloneRejecting(id, d.groupId), s, s') && id in s'.rpcs
    ensures s'.store == s.store && s'.rpcs[id] == CleanupCreating(d.groupId, d.snapshotId, CleanupFor(d.Job()))
  {
    GroupLookedUp(s, id, d.groupId);
    SnapshotLookedUp(After(s, id), id, d.groupId, d.snapshotId);
    s' := After(After(s, id), id);
    TwoAnswersReach(s, id, d.groupId);
  }

  lemma CleanupCreated(s: System, id: nat, group: string, snapshot: string, job: JobSpec)
    requires id in s.rpcs && s.rpcs[id] == CleanupCreating(group, snapshot, job) && JobKey(job) !in s.store.jobs
    ensures Answerable(s, id) && id in After(s, id).rpcs
    ensures After(s, id).rpcs[id] == CleanupRunning(group, snapshot, Creating(job, true))
    ensures After(s, id).store == s.store.(jobs := s.store.jobs[JobKey(job) := Job(job, false, 0, 0)])
  {
  }

  lemma CleanupTurnedDown(s: System, id: nat, group: string, snapshot: string, job: JobSpec)
    requires id in s.rpcs && s.rpcs[id] == CleanupRunning(group, snapshot, Creating(job, true))
    ensures Answerable(s, id) && id in After(s, id).rpcs
    ensures After(s, id).rpcs[id] == DropGroup(group) && After(s, id).store == s.store
  {
  }

  lemma CleanupRejected(s: System, id: nat, group: string, snapshot: string, job: JobSpec) returns (s': System)
    requires id in s.rpcs && s.rpcs[id] == CleanupCreating(group, snapshot, job) && JobKey(job) !in s.store.jobs
    ensures Reaches(AloneRejecting(id, group), s, s') && id in s'.rpcs && s'.rpcs[id] == DropGroup(group)
    ensures s'.store == s.store.(jobs := s.store.jobs[JobKey(job) := Job(job, false, 0, 0)])
  {
    CleanupCreated(s, id, group, snapshot, job);
    CleanupTurnedDown(After(s, id), id, group, snapshot, job);
    s' := After(After(s, id), id);
    TwoAnswersReach(s, id, group);
  }

  lemma GroupRead(s: System, id: nat, g: string)
    requires id in s.rpcs && s.rpcs[id] == DropGroup(g) && g in GroupsOf(s.store)
    ensures Answerable(s, id) && id in After(s, id).rpcs && After(s, id).store == s.store
    ensures After(s, id).rpcs[id] ==
      DroppingGroup(g, CM.Proc(CM.Drop(g), CM.Updating(s.store.groups.data, s.store.groups.version)))
  {
  }

  lemma GroupWritten(s: System, id: nat, g: string)
    requires id in s.rpcs && s.store.groups.Present?
    requires s.rpcs[id] ==
      DroppingGroup(g, CM.Proc(CM.Drop(g), CM.Updating(s.store.groups.data, s.store.groups.version)))
    ensures Answerable(s, id) && id in After(s, id).rpcs && After(s, id).rpcs[id] == DeleteDone(true)
    ensures After(s, id).store == s.store.(groups := After(s, id).store.groups)
    ensures GroupsOf(After(s, id).store) == GroupsOf(s.store) - {g}
  {
  }

  lemma GroupDroppedAnyway(s: System, id: nat, g: string) returns (s': System)
    requires id in s.rpcs && s.rpcs[id] == DropGroup(g) && g in GroupsOf(s.store)
    ensures Reaches(AloneRejecting(id, g), s, s') && id in s'.rpcs && s'.rpcs[id] == DeleteDone(true)
    ensures s'.store == s.store.(groups := s'.store.groups) && GroupsOf(s'.store) == GroupsOf(s.store) - {g}
  {
    GroupRead(s, id, g);
    GroupWritten(After(s, id), id, g);
    s' := After(After(s, id), id);
    TwoAnswersReach(s, id, g);
  }

  /** No cleanup of the snapshot has been created yet. */
  lemma CleanupNameIsFree(s: System, d: Draft, start: Store, latest: nat)
    requires Inv(s) && Taken(d, start, s.store, latest)
    ensures JobKey(CleanupFor(d.Job())) !in s.store.jobs
  {
    var job, key := CleanupFor(d.Job()), JobKey(CleanupFor(d.Job()));
    if key in s.store.jobs {
      assert JobFits(s.log, key, s.store.jobs[key]);
      KeyNamesTheSpec(s.log, key, s.store.jobs[key], job);
      NamesNeverCollide(d.snapshotId, d.snapshotId);
      assert false;
    }
  }

  /** Where the six calls of a Delete whose cleanup is rejected leave the store. */
  ghost predicate LeftByRejection(d: Draft, before: Store, after: Store) {
    && GroupsOf(after) == GroupsOf(before) - {d.groupId} && after.snapshots == before.snapshots
    && after.files == before.files
    && JobKey(CleanupFor(d.Job())) in after.jobs
    && after.jobs[JobKey(CleanupFor(d.Job()))] == Job(CleanupFor(d.Job()), false, 0, 0)
  }

  lemma RejectedDelete(s: System, id: nat, d: Draft, start: Store, latest: nat) returns (s': System)
    requires Inv(s) && Taken(d, start, s.store, latest)
    requires id in s.rpcs && s.rpcs[id] == DeleteFinding(d.groupId)
    ensures Reaches(AloneRejecting(id, d.groupId), s, s')
    ensures id in s'.rpcs && s'.rpcs[id] == DeleteDone(true) && LeftByRejection(d, s.store, s'.store)
  {
    var m := AloneRejecting(id, d.groupId);
    CleanupNameIsFree(s, d, start, latest);
    var found := LookupsAnswered(s, id, d, start, latest);
    var rejected := CleanupRejected(found, id, d.groupId, d.snapshotId, CleanupFor(d.Job()));
    s' := GroupDroppedAnyway(rejected, id, d.groupId);
    ReachesOnwards(m, s, found, rejected);
    ReachesOnwards(m, s, rejected, s');
  }

  /** And then the job that the Delete left behind runs. */
  ghost function AfterCleanupRun(s: System, d: Draft): System
    requires JobKey(CleanupFor(d.Job())) in s.store.jobs
  {
    var key := JobKey(CleanupFor(d.Job()));
    System(
      s.store.(
        jobs := s.store.jobs[key := s.store.jobs[key].(ran := true)],
        files := Effect(s.store.jobs[key].spec, s.store.files)),
      s.rpcs, s.log + [JobRan(key)])
  }

  lemma LeftCleanupRuns(s: System, id: nat, d: Draft, before: Store)
    requires LeftByRejection(d, before, s.store) && SnapshotOf(d.groupId, d.snapshotId)
    ensures Reaches(AloneRejecting(id, d.groupId), s, AfterCleanupRun(s, d))
    ensures SnapshotFile(d) !in AfterCleanupRun(s, d).store.files
    ensures SnapshotsOf(AfterCleanupRun(s, d).store) == SnapshotsOf(before)
    ensures GroupsOf(AfterCleanupRun(s, d).store) == GroupsOf(before) - {d.groupId}
    ensures AfterCleanupRun(s, d).rpcs == s.rpcs
  {
    var m, step := AloneRejecting(id, d.groupId), Step.Run(JobKey(CleanupFor(d.Job())));
    assert JobActs(s, step, AfterCleanupRun(s, d));
    ReachesItself(m, s);
    ReachesOneMore(m, s, s, step, AfterCleanupRun(s, d));
  }

  /** What the lost-file run ends in: the Delete is over without error, the group record
      is gone, the snapshot record is the one that was there before, and its file, which
      was there before, is gone. */
  ghost predicate LosesTheFile(before: Store, deleter: nat, after: System, group: string, snapshot: string) {
    && deleter in after.rpcs && after.rpcs[deleter] == DeleteDone(true)
    && group in GroupsOf(before) && group !in GroupsOf(after.store)
    && snapshot in SnapshotsOf(before) && SnapshotsOf(after.store) == SnapshotsOf(before)
    && FileOfRecord(SnapshotsOf(before)[snapshot]) in before.files
    && FileOfRecord(SnapshotsOf(before)[snapshot]) !in after.store.files
  }

  lemma RejectedDeleteLoses(s: System, id: nat, d: Draft, start: Store, latest: nat) returns (s': System)
    requires Inv(s) && Taken(d, start, s.store, latest)
    requires id in s.rpcs && s.rpcs[id] == DeleteFinding(d.groupId)
    ensures Reaches(AloneRejecting(id, d.groupId), s, s')
    ensures LosesTheFile(s.store, id, s', d.groupId, d.snapshotId)
  {
    var left := RejectedDelete(s, id, d, start, latest);
    LeftCleanupRuns(left, id, d, s.store);
    s' := AfterCleanupRun(left, d);
    ReachesOnwards(AloneRejecting(id, d.groupId), s, left, s');
    assert FileOfRecord(SnapshotsOf(s.store)[d.snapshotId]) == SnapshotFile(d);
  }

  lemma RejectingRun(m: Manner, run: seq<System>, steps: seq<Step>, run': seq<System>, steps': seq<Step>)
    requires |run| == |steps| + 1 && |run'| == |steps'| + 1 && run <= run' && steps <= steps'
    requires m.AloneRejecting? && Follows(m, run', steps', |steps|) && RejectsVersioned(run, steps)
    ensures RejectsVersioned(run', steps')
  {
    forall k: nat | k < |steps'| ensures RejectsAt(run'[k], steps'[k]) {
      if k < |steps| {
        assert RejectsAt(run[k], steps[k]);
      } else {
        assert ObeysAt(m, run', steps', k);
      }
    }
  }

  /** Every run that ends with an undisturbed Create's answer and a Delete of it about
      to start goes on, with nothing but rejections of versioned job objects, to a state
      in which that Delete has ended, undisturbed and without error, the group record is
      gone, and the snapshot is still on record without the file that was there. */
  lemma RejectionLosesTheFile(
    run: seq<System>, steps: seq<Step>, i: nat, id: nat, name: string, deleter: nat)
    returns (run': seq<System>, steps': seq<Step>)
    requires CreatesAlone(run, steps, i, |steps|, id, name)
    requires deleter in run[|steps|].rpcs
    requires run[|steps|].rpcs[deleter] == DeleteFinding(run[|steps|].rpcs[id].created.value.groupId)
    ensures Continues(run, steps, run', steps')
    ensures Undisturbed(run', steps', |steps|, |steps'|, deleter, GroupId(name, Unix(run[i].store.clock)))
    ensures RejectsVersioned(run, steps) ==> RejectsVersioned(run', steps')
    ensures var answer := run[|steps|].rpcs[id].created.value;
      LosesTheFile(run[|steps|].store, deleter, run'[|steps'|], answer.groupId, answer.snapshotId)
  {
    var d := CreateTakes(run, steps, i, |steps|, id, name);
    RunKeepsInv(run, steps, |steps|);
    var m, latest := AloneRejecting(deleter, d.groupId), run[|steps|].rpcs[id].created.value.snapshotTime;
    var end := RejectedDeleteLoses(run[|steps|], deleter, d, run[i].store, latest);
    run', steps' := RunReaches(m, run, steps, end);
    FollowingIsUndisturbed(m, run', steps', |steps|);
    if RejectsVersioned(run, steps) {
      RejectingRun(m, run, steps, run', steps');
    }
  }

  /** So such a Delete goes through, undisturbed and without error, and does not restore
      the snapshot records. */
  lemma RestoringCanFail(
    run: seq<System>, steps: seq<Step>, i: nat, id: nat, name: string, deleter: nat)
    returns (run': seq<System>, steps': seq<Step>)
    requires CreatesAlone(run, steps, i, |steps|, id, name)
    requires deleter in run[|steps|].rpcs
    requires run[|steps|].rpcs[deleter] == DeleteFinding(run[|steps|].rpcs[id].created.value.groupId)
    ensures Continues(run, steps, run', steps')
    ensures Undisturbed(run', steps', |steps|, |steps'|, deleter, GroupId(name, Unix(run[i].store.clock)))
    ensures deleter in run'[|steps'|].rpcs && run'[|steps'|].rpcs[deleter] == DeleteDone(true)
    ensures SnapshotsOf(run'[|steps'|].store) != SnapshotsOf(run[i].store)
  {
    var d := CreateTakes(run, steps, i, |steps|, id, name);
    FreshFile(d, run[i].store);
    run', steps' := RejectionLosesTheFile(run, steps, i, id, name, deleter);
  }
}
