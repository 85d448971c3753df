/** The snapshot files follow the records: a file is there once its record is
    stored, it goes when its delete job runs, and that is before the record goes. */
module Files {
  import opened Identifiers
  import opened Api
  import opened Machine
  import opened Protocol
  import opened History
  import opened Ledger
  import CM = ConfigMaps

  /** The ID of the group that RPC id was given. */
  ghost predicate OwnsGroup(log: seq<Event>, id: nat, g: string) {
    exists q, t :: GroupStamped(id, q, t) in log && g == GroupId(q.name, t)
  }

  /** RPC id was given the group that the snapshot is of. */
  ghost predicate BelongsTo(log: seq<Event>, id: nat, snapshot: string) {
    exists g :: OwnsGroup(log, id, g) && SnapshotOf(g, snapshot)
  }

  /** At most one Create was given the group. */
  ghost predicate SoleGroup(log: seq<Event>, g: string) {
    forall a, b :: OwnsGroup(log, a, g) && OwnsGroup(log, b, g) ==> a == b
  }

  /** At most one Create was given the group that the snapshot is of. */
  ghost predicate OneMaker(log: seq<Event>, snapshot: string) {
    forall a, b :: BelongsTo(log, a, snapshot) && BelongsTo(log, b, snapshot) ==> a == b
  }

  lemma SameMaker(log: seq<Event>, a: nat, b: nat, snapshot: string)
    requires OneMaker(log, snapshot) && BelongsTo(log, a, snapshot) && BelongsTo(log, b, snapshot)
    ensures a == b
  {
  }

  /** One Create means one for that name in that second; other groups do not matter. */
  lemma SoleGroupsAreDistinct(log: seq<Event>, name: string, time: nat)
    ensures SoleGroup(log, GroupId(name, time)) <==>
      forall e, f | e in log && f in log && e.GroupStamped? && f.GroupStamped? ::
        e.request.name == name == f.request.name && e.time == time == f.time ==> e.rpc == f.rpc
  {
    var g := GroupId(name, time);
    forall e | e in log && e.GroupStamped? && e.request.name == name && e.time == time
      ensures OwnsGroup(log, e.rpc, g)
    {
      assert GroupStamped(e.rpc, e.request, e.time) in log;
    }
    forall id | OwnsGroup(log, id, g)
      ensures exists e :: e in log && e.GroupStamped? && e.rpc == id && e.request.name == name && e.time == time
    {
      var q, t :| GroupStamped(id, q, t) in log && g == GroupId(q.name, t);
      IdsDetermineTheirParts(name, time, 0, q.name, t, 0);
      var e := GroupStamped(id, q, t);
      assert e in log && e.rpc == id && e.request.name == name && e.time == time;
    }
  }

  /** A snapshot has one maker exactly when its group has. */
  lemma OneMakerOfSoleGroup(log: seq<Event>, g: string, snapshot: string)
    requires SnapshotOf(g, snapshot)
    ensures OneMaker(log, snapshot) <==> SoleGroup(log, g)
  {
    forall id ensures BelongsTo(log, id, snapshot) <==> OwnsGroup(log, id, g) {
      if BelongsTo(log, id, snapshot) {
        var h :| OwnsGroup(log, id, h) && SnapshotOf(h, snapshot);
        SnapshotOfOneGroup(g, h, snapshot);
      }
    }
  }

  lemma OwnsGroupGrows(log: seq<Event>, more: seq<Event>, id: nat, g: string)
    requires OwnsGroup(log, id, g)
    ensures OwnsGroup(log + more, id, g)
  {
    var q, t :| GroupStamped(id, q, t) in log && g == GroupId(q.name, t);
    assert GroupStamped(id, q, t) in log + more;
  }

  lemma BelongsGrows(log: seq<Event>, more: seq<Event>, id: nat, snapshot: string)
    requires BelongsTo(log, id, snapshot)
    ensures BelongsTo(log + more, id, snapshot)
  {
    var g :| OwnsGroup(log, id, g) && SnapshotOf(g, snapshot);
    OwnsGroupGrows(log, more, id, g);
  }

  /** What is sole now was sole before. */
  lemma OneMakerBefore(log: seq<Event>, more: seq<Event>, snapshot: string)
    requires OneMaker(log + more, snapshot)
    ensures OneMaker(log, snapshot)
  {
    forall a, b | BelongsTo(log, a, snapshot) && BelongsTo(log, b, snapshot) ensures a == b {
      BelongsGrows(log, more, a, snapshot);
      BelongsGrows(log, more, b, snapshot);
    }
  }

  lemma SoleGroupBefore(log: seq<Event>, more: seq<Event>, g: string)
    requires SoleGroup(log + more, g)
    ensures SoleGroup(log, g)
  {
    forall a, b | OwnsGroup(log, a, g) && OwnsGroup(log, b, g) ensures a == b {
      OwnsGroupGrows(log, more, a, g);
      OwnsGroupGrows(log, more, b, g);
    }
  }

  lemma NamedBelongs(log: seq<Event>, id: nat, d: Draft)
    requires Named(log, id, d)
    ensures OwnsGroup(log, id, d.groupId) && BelongsTo(log, id, d.snapshotId)
  {
    assert GroupStamped(id, d.Request(), d.stamp) in log;
    assert OwnsGroup(log, id, d.groupId);
  }

  predicate IsSave(job: JobSpec) {
    job == SaveJob(job.namespace, job.snapshotId, SNAPSHOT_CLAIM)
  }

  /** The save job that writes the file a cleanup removes, and the other way round. */
  function SaveFor(job: JobSpec): JobSpec {
    SaveJob(job.namespace, job.snapshotId, job.claim)
  }

  function CleanupFor(job: JobSpec): JobSpec {
    DeleteJob(job.namespace, job.snapshotId, job.claim)
  }

  ghost predicate WasSaved(log: seq<Event>, job: JobSpec) {
    exists id :: SaveSeen(id, job) in log
  }

  ghost predicate CleanupRan(log: seq<Event>, job: JobSpec) {
    JobRan(JobKey(CleanupFor(job))) in log
  }

  predicate PastSaving(r: Rpc) {
    (Taking(r) && !r.Saving?) || r.CreateDone?
  }

  /** Who saw which save succeed. */
  ghost predicate SavesFit(s: System) {
    SaversFit(s) && OneSaveEach(s.log)
  }

  ghost predicate SaversFit(s: System) {
    forall e <- s.log :: e.SaveSeen? ==>
      && e.rpc in s.rpcs && PastSaving(s.rpcs[e.rpc])
      && IsSave(e.job) && BelongsTo(s.log, e.rpc, e.job.snapshotId)
  }

  ghost predicate OneSaveEach(log: seq<Event>) {
    forall e, f :: e in log && f in log && e.SaveSeen? && f.SaveSeen? && e.rpc == f.rpc ==> e.job == f.job
  }

  ghost predicate RpcSaved(log: seq<Event>, r: Rpc) {
    && (r.CleanupCreating? ==> WasSaved(log, SaveFor(r.job)))
    && (r.CleanupRunning? && !r.exec.Finished? ==> WasSaved(log, SaveFor(r.exec.job)))
  }

  /** Records and cleanups are of snapshots whose save was seen to succeed. */
  ghost predicate SavedFirst(s: System) {
    && (forall k <- CM.Contents(s.store.snapshots) ::
          var record := CM.Contents(s.store.snapshots)[k];
          WasSaved(s.log, SaveJob(record.namespace, k, record.pvcName)))
    && (forall id <- s.rpcs :: RpcSaved(s.log, s.rpcs[id]))
    && (forall key <- s.store.jobs :: s.store.jobs[key].spec.operation.Delete? ==>
          WasSaved(s.log, SaveFor(s.store.jobs[key].spec)))
  }

  /** A saved file is there unless its cleanup ran. */
  ghost predicate FilesThere(s: System) {
    RanFilesThere(s) && SeenFilesThere(s)
  }

  ghost predicate RanFilesThere(s: System) {
    forall key <- s.store.jobs :: s.store.jobs[key].spec.operation.Save? && s.store.jobs[key].ran ==>
      FileOf(s.store.jobs[key].spec) in s.store.files || CleanupRan(s.log, s.store.jobs[key].spec)
  }

  ghost predicate SeenFilesThere(s: System) {
    forall e <- s.log :: e.SaveSeen? ==> FileOf(e.job) in s.store.files || CleanupRan(s.log, e.job)
  }

  /** A delete job that ran, or was seen to succeed, is remembered. */
  ghost predicate RunsLogged(s: System) {
    && (forall key <- s.store.jobs :: s.store.jobs[key].ran ==> JobRan(key) in s.log)
    && (forall e <- s.log :: e.DeleteSeen? ==> JobRan(JobKey(e.job)) in s.log)
  }

  /** Only what was saved is ever cleaned up. */
  ghost predicate CleanupsSaved(log: seq<Event>) {
    forall job :: IsSave(job) && CleanupRan(log, job) ==> WasSaved(log, job)
  }

  /** A save that was seen to succeed never runs again. */
  ghost predicate NoRerun(s: System) {
    forall e <- s.log :: e.SaveSeen? && JobKey(e.job) in s.store.jobs && OneMaker(s.log, e.job.snapshotId) ==>
      s.store.jobs[JobKey(e.job)].succeeded > 0
  }

  /** Once its delete job has run, a file stays gone. */
  ghost predicate CleanedGone(s: System) {
    forall job :: IsSave(job) && CleanupRan(s.log, job) && OneMaker(s.log, job.snapshotId) ==>
      FileOf(job) !in s.store.files
  }

  ghost predicate FilesFit(s: System) {
    && SavesFit(s) && SavedFirst(s) && FilesThere(s)
    && RunsLogged(s) && CleanupsSaved(s.log) && NoRerun(s) && CleanedGone(s)
  }

  lemma KeyNamesTheSpec(log: seq<Event>, key: Key, job: Job, spec: JobSpec)
    requires JobFits(log, key, job) && key == JobKey(spec)
    requires IsSave(spec) || IsCleanup(spec, spec.snapshotId)
    ensures job.spec == spec
  {
    NamesNeverCollide(job.spec.snapshotId, spec.snapshotId);
    NamesNeverCollide(spec.snapshotId, job.spec.snapshotId);
  }

  lemma FileNamesTheSnapshot(a: JobSpec, b: JobSpec)
    requires IsSave(a) || IsCleanup(a, a.snapshotId)
    requires IsSave(b) || IsCleanup(b, b.snapshotId)
    requires FileOf(a) == FileOf(b)
    ensures a.snapshotId == b.snapshotId && a.namespace == b.namespace
    ensures SaveFor(a) == SaveFor(b) && CleanupFor(a) == CleanupFor(b)
  {
    NamesNeverCollide(a.snapshotId, b.snapshotId);
  }

  lemma SavedGrows(log: seq<Event>, more: seq<Event>)
    ensures forall job :: WasSaved(log, job) ==> WasSaved(log + more, job)
    ensures forall id, k :: BelongsTo(log, id, k) ==> BelongsTo(log + more, id, k)
  {
    forall job | WasSaved(log, job) ensures WasSaved(log + more, job) {
      var id :| SaveSeen(id, job) in log;
      assert SaveSeen(id, job) in log + more;
    }
    forall id, k | BelongsTo(log, id, k) ensures BelongsTo(log + more, id, k) {
      BelongsGrows(log, more, id, k);
    }
  }

  /* ----- one RPC step ----- */

  /** The job an RPC is polling. */
  ghost predicate Polls(r: Rpc, job: JobSpec) {
    (r.Saving? || r.CleanupRunning?) && r.exec == Polling(job)
  }

  lemma SuccessIsAPoll(log: seq<Event>, id: nat, r: Rpc, reply: Reply, e: Event)
    requires !Ended(r) && Shape(log, id, r) && e in EventOf(id, r, reply) && (e.SaveSeen? || e.DeleteSeen?)
    ensures Polls(r, e.job) && reply.JobIs? && reply.succeeded > 0 && e.rpc == id
    ensures if e.SaveSeen? then r.Saving? && e.job == r.d.Job() && PastSaving(Advance(r, reply)) else r.CleanupRunning?
    ensures IsSave(e.job) || IsCleanup(e.job, e.job.snapshotId)
  {
    SuccessIsSeen(id, r, reply, e);
  }

  /** Only an executor's last poll sees a success. */
  lemma SuccessIsSeen(id: nat, r: Rpc, reply: Reply, e: Event)
    requires !Ended(r) && e in EventOf(id, r, reply) && (e.SaveSeen? || e.DeleteSeen?)
    ensures e.rpc == id && if e.SaveSeen? then
        r.Saving? && e.job == r.d.Job() && TakingNext(r, reply) == StampingRecord(r.d)
      else r.CleanupRunning? && r.exec.Polling? && e.job == r.exec.job && DeletingNext(r, reply).CleanupDropping?
  {
  }

  /** A success event comes from a poll that found the job succeeded. */
  lemma SuccessWasPolled(s: System, id: nat, reply: Reply, s': System, e: Event)
    requires Inv(s) && Serves(s, id, reply, s') && e in EventOf(id, s.rpcs[id], reply)
    requires e.SaveSeen? || e.DeleteSeen?
    ensures s'.store == s.store && e.rpc == id
    ensures e.SaveSeen? ==> s.rpcs[id].Saving? && e.job == s.rpcs[id].d.Job() && PastSaving(s'.rpcs[id])
    ensures e.DeleteSeen? ==> s.rpcs[id].CleanupRunning? && s.rpcs[id].exec == Polling(e.job)
    ensures IsSave(e.job) || IsCleanup(e.job, e.job.snapshotId)
    ensures JobKey(e.job) in s.store.jobs && s.store.jobs[JobKey(e.job)].spec == e.job
    ensures s.store.jobs[JobKey(e.job)].succeeded > 0 && s.store.jobs[JobKey(e.job)].ran
  {
    assert Shape(s.log, id, s.rpcs[id]);
    SuccessIsAPoll(s.log, id, s.rpcs[id], reply, e);
    var key := JobKey(e.job);
    assert JobFits(s.log, key, s.store.jobs[key]);
    KeyNamesTheSpec(s.log, key, s.store.jobs[key], e.job);
  }

  lemma PastSavingLasts(r: Rpc, reply: Reply)
    requires !Ended(r) && PastSaving(r)
    ensures PastSaving(Advance(r, reply))
    ensures forall e <- EventOf(0, r, reply) :: !e.SaveSeen?
  {
  }

  lemma NoSecondSave(s: System, id: nat, reply: Reply, s': System)
    requires Inv(s) && SavesFit(s) && Serves(s, id, reply, s')
    ensures OneSaveEach(s'.log)
  {
    assert forall e, f :: e in EventOf(id, s.rpcs[id], reply) && f in EventOf(id, s.rpcs[id], reply) ==> e == f;
    forall e | e in EventOf(id, s.rpcs[id], reply) && e.SaveSeen?
      ensures e.rpc == id && forall f <- s.log :: !(f.SaveSeen? && f.rpc == id)
    {
      SuccessWasPolled(s, id, reply, s', e);
    }
  }

  lemma NewSaveFits(s: System, id: nat, reply: Reply, s': System, e: Event)
    requires Inv(s) && Serves(s, id, reply, s') && e in EventOf(id, s.rpcs[id], reply) && e.SaveSeen?
    ensures e.rpc == id && PastSaving(s'.rpcs[id]) && IsSave(e.job) && BelongsTo(s.log, id, e.job.snapshotId)
  {
    var r := s.rpcs[id];
    assert Shape(s.log, id, r);
    SuccessIsAPoll(s.log, id, r, reply, e);
    NamedBelongs(s.log, id, r.d);
  }

  lemma ServeKeepsSaves(s: System, id: nat, reply: Reply, s': System)
    requires Inv(s) && SavesFit(s) && Serves(s, id, reply, s')
    ensures SavesFit(s')
  {
    var r, more := s.rpcs[id], EventOf(id, s.rpcs[id], reply);
    SavedGrows(s.log, more);
    NoSecondSave(s, id, reply, s');
    if PastSaving(r) {
      PastSavingLasts(r, reply);
    }
    forall e | e in s'.log && e.SaveSeen?
      ensures e.rpc in s'.rpcs && PastSaving(s'.rpcs[e.rpc])
      ensures IsSave(e.job) && BelongsTo(s'.log, e.rpc, e.job.snapshotId)
    {
      if e !in s.log {
        NewSaveFits(s, id, reply, s', e);
      }
    }
  }

  lemma FoundRecordWasSaved(s: System, r: Rpc, reply: Reply, store': Store)
    requires SavedFirst(s) && r.CleanupFinding? && Exec(s.store, OnSnapshots(CM.Get), reply, store')
    ensures RpcSaved(s.log, DeletingNext(r, reply))
  {
    if FoundSnapshot(r.snapshot, reply).Some? {
      var record := CM.Contents(s.store.snapshots)[r.snapshot];
      assert WasSaved(s.log, SaveJob(record.namespace, r.snapshot, record.pvcName));
    }
  }

  lemma CleanupKeepsJob(log: seq<Event>, r: Rpc, reply: Reply)
    requires (r.CleanupCreating? || r.CleanupRunning?) && RpcSaved(log, r)
    ensures RpcSaved(log, DeletingNext(r, reply))
  {
  }

  lemma OnlyLookupsStartCleanups(r: Rpc, reply: Reply)
    requires !Ended(r) && !r.CleanupFinding? && !r.CleanupCreating? && !r.CleanupRunning?
    ensures !Advance(r, reply).CleanupCreating? && !Advance(r, reply).CleanupRunning?
  {
    var r' := Advance(r, reply);
    if Checking(r) {
      assert Checking(r') || Taking(r') || Ended(r');
    } else if Taking(r) {
      assert Taking(r') || Ended(r');
    }
  }

  lemma ServedRpcSaved(s: System, id: nat, reply: Reply, s': System)
    requires SavedFirst(s) && Serves(s, id, reply, s')
    ensures RpcSaved(s.log, s'.rpcs[id])
  {
    var r := s.rpcs[id];
    if r.CleanupFinding? {
      FoundRecordWasSaved(s, r, reply, s'.store);
    } else if r.CleanupCreating? || r.CleanupRunning? {
      assert RpcSaved(s.log, r);
      CleanupKeepsJob(s.log, r, reply);
    } else {
      OnlyLookupsStartCleanups(r, reply);
    }
  }

  lemma ServedRecordsSaved(s: System, id: nat, reply: Reply, s': System)
    requires Inv(s) && HistoryHolds(s) && SavedFirst(s) && Serves(s, id, reply, s')
    ensures forall k <- CM.Contents(s'.store.snapshots) ::
      var record := CM.Contents(s'.store.snapshots)[k];
      WasSaved(s.log, SaveJob(record.namespace, k, record.pvcName))
  {
    var r := s.rpcs[id];
    assert Shape(s.log, id, r) && UpToDate(r, s.store) && Backed(s.log, id, r);
    Footprint(s.store, s.log, id, r, reply, s'.store);
    if r.StoringSnapshot? {
      assert SaveSeen(id, r.d.Job()) in s.log;
    }
  }

  lemma ServedJobsSaved(s: System, id: nat, reply: Reply, s': System)
    requires Inv(s) && SavedFirst(s) && Serves(s, id, reply, s')
    ensures s'.store.files == s.store.files
    ensures forall key <- s'.store.jobs :: key in s.store.jobs ==> s'.store.jobs[key] == s.store.jobs[key]
    ensures forall key <- s'.store.jobs :: key !in s.store.jobs ==>
      && !s'.store.jobs[key].ran
      && (s'.store.jobs[key].spec.operation.Delete? ==> WasSaved(s.log, SaveFor(s'.store.jobs[key].spec)))
      && (s'.store.jobs[key].spec.operation.Save? ==>
            s.rpcs[id].Saving? && s'.store.jobs[key].spec == s.rpcs[id].d.Job())
    ensures s.store.jobs.Keys <= s'.store.jobs.Keys
  {
    var r := s.rpcs[id];
    assert Shape(s.log, id, r) && UpToDate(r, s.store) && RpcSaved(s.log, r);
    Footprint(s.store, s.log, id, r, reply, s'.store);
  }

  lemma ServeKeepsSavedFirst(s: System, id: nat, reply: Reply, s': System)
    requires Inv(s) && HistoryHolds(s) && SavedFirst(s) && Serves(s, id, reply, s')
    ensures SavedFirst(s')
  {
    var more := EventOf(id, s.rpcs[id], reply);
    SavedGrows(s.log, more);
    ServedRpcSaved(s, id, reply, s');
    ServedRecordsSaved(s, id, reply, s');
    ServedJobsSaved(s, id, reply, s');
    forall j | j in s'.rpcs ensures RpcSaved(s'.log, s'.rpcs[j]) {
      assert RpcSaved(s.log, s'.rpcs[j]) by {
        if j != id {
          assert s'.rpcs[j] == s.rpcs[j];
        }
      }
    }
  }

  lemma ServeKeepsFilesThere(s: System, id: nat, reply: Reply, s': System)
    requires Inv(s) && SavedFirst(s) && FilesThere(s) && Serves(s, id, reply, s')
    ensures FilesThere(s')
  {
    var more := EventOf(id, s.rpcs[id], reply);
    ServedJobsSaved(s, id, reply, s');
    forall e | e in s'.log && e.SaveSeen? ensures FileOf(e.job) in s'.store.files || CleanupRan(s'.log, e.job) {
      if e in more {
        SuccessWasPolled(s, id, reply, s', e);
        assert s.store.jobs[JobKey(e.job)].ran;
      } else {
        assert e in s.log;
      }
    }
  }

  /** A Create that makes a save job has not seen one succeed, and nobody else
      has seen that one succeed. */
  lemma NewSaveIsNew(s: System, id: nat, e: Event)
    requires Inv(s) && SavesFit(s)
    requires id in s.rpcs && s.rpcs[id].Saving? && e in s.log && e.SaveSeen? && OneMaker(s.log, e.job.snapshotId)
    ensures JobKey(e.job) != JobKey(s.rpcs[id].d.Job())
  {
    var d := s.rpcs[id].d;
    assert Shape(s.log, id, s.rpcs[id]);
    if JobKey(e.job) == JobKey(d.Job()) {
      NamesNeverCollide(e.job.snapshotId, d.snapshotId);
      NamedBelongs(s.log, id, d);
      SameMaker(s.log, e.rpc, id, d.snapshotId);
    }
  }

  lemma ServeKeepsNoRerun(s: System, id: nat, reply: Reply, s': System)
    requires Inv(s) && SavesFit(s) && SavedFirst(s) && NoRerun(s) && Serves(s, id, reply, s')
    ensures NoRerun(s')
  {
    ServedJobsSaved(s, id, reply, s');
    forall e | e in s'.log && e.SaveSeen? && JobKey(e.job) in s'.store.jobs && OneMaker(s'.log, e.job.snapshotId)
      ensures s'.store.jobs[JobKey(e.job)].succeeded > 0
    {
      OneMakerBefore(s.log, EventOf(id, s.rpcs[id], reply), e.job.snapshotId);
      if e in EventOf(id, s.rpcs[id], reply) {
        SuccessWasPolled(s, id, reply, s', e);
      } else if JobKey(e.job) !in s.store.jobs {
        SavedJobIsNotRecreated(s, id, reply, s', e);
      }
    }
  }

  lemma RpcsRunNothing(id: nat, r: Rpc, reply: Reply)
    requires !Ended(r)
    ensures |EventOf(id, r, reply)| <= 1 && forall e <- EventOf(id, r, reply) :: !e.JobRan?
  {
  }

  lemma ServeKeepsRuns(s: System, id: nat, reply: Reply, s': System)
    requires Inv(s) && SavedFirst(s) && RunsLogged(s) && Serves(s, id, reply, s')
    ensures RunsLogged(s')
  {
    ServedJobsSaved(s, id, reply, s');
    forall e | e in s'.log && e.DeleteSeen? ensures JobRan(JobKey(e.job)) in s'.log {
      if e in EventOf(id, s.rpcs[id], reply) {
        SuccessWasPolled(s, id, reply, s', e);
      }
    }
  }

  lemma ServeKeepsCleaned(s: System, id: nat, reply: Reply, s': System)
    requires CleanupsSaved(s.log) && CleanedGone(s) && Serves(s, id, reply, s')
    ensures CleanupsSaved(s'.log) && CleanedGone(s')
  {
    var more := EventOf(id, s.rpcs[id], reply);
    ConfigMapCall(s.store, NextCall(s.rpcs[id]), reply, s'.store);
    RpcsRunNothing(id, s.rpcs[id], reply);
    SavedGrows(s.log, more);
    forall job | IsSave(job) && CleanupRan(s'.log, job) ensures CleanupRan(s.log, job) && WasSaved(s'.log, job) {
    }
    forall job | IsSave(job) && CleanupRan(s'.log, job) && OneMaker(s'.log, job.snapshotId)
      ensures FileOf(job) !in s'.store.files
    {
      OneMakerBefore(s.log, more, job.snapshotId);
    }
  }

  lemma SavedJobIsNotRecreated(s: System, id: nat, reply: Reply, s': System, e: Event)
    requires Inv(s) && SavesFit(s) && SavedFirst(s) && Serves(s, id, reply, s')
    requires e in s.log && e.SaveSeen? && JobKey(e.job) !in s.store.jobs && OneMaker(s.log, e.job.snapshotId)
    ensures JobKey(e.job) !in s'.store.jobs
  {
    var key := JobKey(e.job);
    if key in s'.store.jobs {
      ServedStoreAgain(s, id, reply, s');
      assert JobFits(s.log, key, s'.store.jobs[key]);
      KeyNamesTheSpec(s.log, key, s'.store.jobs[key], e.job);
      ServedJobsSaved(s, id, reply, s');
      NewSaveIsNew(s, id, e);
      assert false;
    }
  }

  lemma ServedStoreAgain(s: System, id: nat, reply: Reply, s': System)
    requires Inv(s) && Serves(s, id, reply, s')
    ensures StoreFits(s.log, s'.store)
  {
    assert Shape(s.log, id, s.rpcs[id]) && UpToDate(s.rpcs[id], s.store);
    ServedStore(s.store, s.log, id, s.rpcs[id], reply, s'.store);
  }

  /* ----- one job step ----- */

  lemma JobStepsSeeNothing(step: Step)
    requires OnJob(step)
    ensures forall e <- JobEvents(step) :: !e.SaveSeen? && !e.DeleteSeen?
  {
  }

  lemma JobStepKeepsSavers(s: System, step: Step, s': System)
    requires SavesFit(s) && JobActs(s, step, s')
    ensures SavesFit(s')
  {
    SavedGrows(s.log, JobEvents(step));
    JobStepsSeeNothing(step);
  }

  lemma JobStepKeepsSaves(s: System, step: Step, s': System)
    requires SavedFirst(s) && JobActs(s, step, s')
    ensures SavedFirst(s')
  {
    SavedGrows(s.log, JobEvents(step));
    JobStepsSeeNothing(step);
    forall key | key in s'.store.jobs ensures key in s.store.jobs && s'.store.jobs[key].spec == s.store.jobs[key].spec {
    }
    forall j | j in s'.rpcs ensures RpcSaved(s'.log, s'.rpcs[j]) {
      assert RpcSaved(s.log, s.rpcs[j]);
    }
  }

  /** What a run of a job does to the file of any driver job. */
  lemma RunMovesFile(s: System, step: Step, s': System, job: JobSpec)
    requires StoreFits(s.log, s.store) && JobActs(s, step, s')
    requires IsSave(job) || IsCleanup(job, job.snapshotId)
    ensures FileOf(job) in s.store.files && FileOf(job) !in s'.store.files ==> CleanupRan(s'.log, job)
    ensures FileOf(job) !in s.store.files && FileOf(job) in s'.store.files ==>
      && JobKey(SaveFor(job)) == step.key && step.key in s.store.jobs
      && s.store.jobs[step.key].succeeded == 0
    ensures CleanupRan(s.log, job) ==> CleanupRan(s'.log, job)
    ensures step.Run? && step.key == JobKey(job) ==>
      (FileOf(job) in s'.store.files <==> IsSave(job))
  {
    var spec := s.store.jobs[step.key].spec;
    assert JobFits(s.log, step.key, s.store.jobs[step.key]);
    if step.Run? {
      if step.key == JobKey(job) {
        KeyNamesTheSpec(s.log, step.key, s.store.jobs[step.key], job);
      }
      if FileOf(spec) == FileOf(job) {
        FileNamesTheSnapshot(spec, job);
      }
    }
  }

  /** The file a save job wrote outlives every step but the run of its cleanup. */
  lemma SavedFileStays(s: System, step: Step, s': System, job: JobSpec)
    requires StoreFits(s.log, s.store) && JobActs(s, step, s') && IsSave(job)
    requires FileOf(job) in s.store.files || CleanupRan(s.log, job) || (step.Run? && step.key == JobKey(job))
    ensures FileOf(job) in s'.store.files || CleanupRan(s'.log, job)
  {
    RunMovesFile(s, step, s', job);
  }

  lemma RanFileStays(s: System, step: Step, s': System, key: Key)
    requires StoreFits(s.log, s.store) && RanFilesThere(s) && JobActs(s, step, s')
    requires key in s.store.jobs && s.store.jobs[key].spec.operation.Save?
    requires s.store.jobs[key].ran || (step.Run? && step.key == key)
    ensures FileOf(s.store.jobs[key].spec) in s'.store.files || CleanupRan(s'.log, s.store.jobs[key].spec)
  {
    assert JobFits(s.log, key, s.store.jobs[key]);
    SavedFileStays(s, step, s', s.store.jobs[key].spec);
  }

  lemma JobStepKeepsRanFiles(s: System, step: Step, s': System)
    requires StoreFits(s.log, s.store) && RanFilesThere(s) && JobActs(s, step, s')
    ensures RanFilesThere(s')
  {
    forall key | key in s'.store.jobs && s'.store.jobs[key].spec.operation.Save? && s'.store.jobs[key].ran
      ensures FileOf(s'.store.jobs[key].spec) in s'.store.files || CleanupRan(s'.log, s'.store.jobs[key].spec)
    {
      RanFileStays(s, step, s', key);
    }
  }

  lemma JobStepKeepsSeenFiles(s: System, step: Step, s': System)
    requires StoreFits(s.log, s.store) && SaversFit(s) && SeenFilesThere(s) && JobActs(s, step, s')
    ensures SeenFilesThere(s')
  {
    forall e | e in s'.log && e.SaveSeen? ensures FileOf(e.job) in s'.store.files || CleanupRan(s'.log, e.job) {
      assert e in s.log;
      SavedFileStays(s, step, s', e.job);
    }
  }

  /** Once its save was seen to succeed, a missing file does not come back. */
  lemma SavedFileStaysGone(s: System, step: Step, s': System, job: JobSpec)
    requires StoreFits(s.log, s.store) && NoRerun(s) && JobActs(s, step, s') && OneMaker(s.log, job.snapshotId)
    requires IsSave(job) && WasSaved(s.log, job) && FileOf(job) !in s.store.files
    ensures FileOf(job) !in s'.store.files
  {
    RunMovesFile(s, step, s', job);
    var id :| SaveSeen(id, job) in s.log;
    assert JobKey(job) in s.store.jobs ==> s.store.jobs[JobKey(job)].succeeded > 0;
  }

  lemma JobStepKeepsNoRerun(s: System, step: Step, s': System)
    requires NoRerun(s) && JobActs(s, step, s')
    ensures NoRerun(s')
  {
    forall e | e in s'.log && e.SaveSeen? && JobKey(e.job) in s'.store.jobs && OneMaker(s'.log, e.job.snapshotId)
      ensures s'.store.jobs[JobKey(e.job)].succeeded > 0
    {
      assert e in s.log;
      OneMakerBefore(s.log, JobEvents(step), e.job.snapshotId);
    }
  }

  lemma JobStepKeepsRuns(s: System, step: Step, s': System)
    requires RunsLogged(s) && JobActs(s, step, s')
    ensures RunsLogged(s')
  {
    JobStepsSeeNothing(step);
  }

  /** The first run of a delete job finds its file saved, and takes it away. */
  lemma CleanupRuns(s: System, step: Step, s': System, job: JobSpec)
    requires StoreFits(s.log, s.store) && SavedFirst(s) && JobActs(s, step, s')
    requires IsSave(job) && !CleanupRan(s.log, job) && CleanupRan(s'.log, job)
    ensures WasSaved(s.log, job) && FileOf(job) !in s'.store.files
  {
    var key := JobKey(CleanupFor(job));
    assert step == Step.Run(key);
    assert JobFits(s.log, key, s.store.jobs[key]);
    KeyNamesTheSpec(s.log, key, s.store.jobs[key], CleanupFor(job));
    assert SaveFor(s.store.jobs[key].spec) == job;
    RunMovesFile(s, step, s', CleanupFor(job));
  }

  lemma JobStepKeepsCleanedFile(s: System, step: Step, s': System, job: JobSpec)
    requires StoreFits(s.log, s.store) && SavedFirst(s) && CleanupsSaved(s.log) && NoRerun(s) && CleanedGone(s)
    requires JobActs(s, step, s') && IsSave(job) && CleanupRan(s'.log, job)
    ensures WasSaved(s'.log, job)
    ensures OneMaker(s'.log, job.snapshotId) ==> FileOf(job) !in s'.store.files
  {
    SavedGrows(s.log, JobEvents(step));
    if !CleanupRan(s.log, job) {
      CleanupRuns(s, step, s', job);
    } else if OneMaker(s'.log, job.snapshotId) {
      OneMakerBefore(s.log, JobEvents(step), job.snapshotId);
      SavedFileStaysGone(s, step, s', job);
    }
  }

  lemma JobStepKeepsCleaned(s: System, step: Step, s': System)
    requires StoreFits(s.log, s.store) && SavedFirst(s) && CleanupsSaved(s.log) && NoRerun(s) && CleanedGone(s)
    requires JobActs(s, step, s')
    ensures CleanupsSaved(s'.log) && CleanedGone(s')
  {
    forall job | IsSave(job) && CleanupRan(s'.log, job)
      ensures WasSaved(s'.log, job)
      ensures OneMaker(s'.log, job.snapshotId) ==> FileOf(job) !in s'.store.files
    {
      JobStepKeepsCleanedFile(s, step, s', job);
    }
  }

  lemma SeenCleanupsAreCleanups(log: seq<Event>, e: Event)
    requires AllJustified(log) && e in log && e.DeleteSeen?
    ensures IsCleanup(e.job, e.job.snapshotId)
  {
    var k :| 0 <= k < |log| && log[k] == e;
    assert Justified(log[..k], log[k]);
  }

  /* ----- runs ----- */

  lemma IdleStepKeepsFiles(s: System, step: Step, s': System)
    requires FilesFit(s) && Idles(s, step, s')
    ensures FilesFit(s')
  {
    forall j | j in s'.rpcs ensures RpcSaved(s'.log, s'.rpcs[j]) {
      if j in s.rpcs {
        assert RpcSaved(s.log, s.rpcs[j]);
      }
    }
  }

  lemma ServeKeepsFiles(s: System, id: nat, reply: Reply, s': System)
    requires Inv(s) && HistoryHolds(s) && FilesFit(s) && Serves(s, id, reply, s')
    ensures FilesFit(s')
  {
    ServeKeepsSaves(s, id, reply, s');
    ServeKeepsSavedFirst(s, id, reply, s');
    ServeKeepsFilesThere(s, id, reply, s');
    ServeKeepsRuns(s, id, reply, s');
    ServeKeepsNoRerun(s, id, reply, s');
    ServeKeepsCleaned(s, id, reply, s');
  }

  lemma JobStepKeepsFiles(s: System, step: Step, s': System)
    requires Inv(s) && FilesFit(s) && JobActs(s, step, s')
    ensures FilesFit(s')
  {
    JobStepKeepsSavers(s, step, s');
    JobStepKeepsSaves(s, step, s');
    JobStepKeepsRanFiles(s, step, s');
    JobStepKeepsSeenFiles(s, step, s');
    JobStepKeepsRuns(s, step, s');
    JobStepKeepsNoRerun(s, step, s');
    JobStepKeepsCleaned(s, step, s');
  }

  lemma StepKeepsFiles(s: System, step: Step, s': System)
    requires Inv(s) && HistoryHolds(s) && FilesFit(s) && Next(s, step, s')
    ensures FilesFit(s')
  {
    if step.Serve? {
      ServeKeepsFiles(s, step.id, step.reply, s');
    } else if OnJob(step) {
      JobStepKeepsFiles(s, step, s');
    } else {
      IdleStepKeepsFiles(s, step, s');
    }
  }

  lemma RunKeepsFilesFit(run: seq<System>, steps: seq<Step>, k: nat)
    requires IsRun(run, steps) && k < |steps| && FilesFit(run[k])
    ensures FilesFit(run[k + 1])
  {
    RunKeepsInv(run, steps, k);
    RunIsJustified(run, steps, k);
    assert StepAt(run, steps, k);
    StepKeepsFiles(run[k], steps[k], run[k + 1]);
  }

  lemma {:induction false} FilesFitInRuns(run: seq<System>, steps: seq<Step>, i: nat)
    requires IsRun(run, steps) && i < |run|
    ensures FilesFit(run[i])
    decreases i
  {
    if i > 0 {
      FilesFitInRuns(run, steps, i - 1);
      RunKeepsFilesFit(run, steps, i - 1);
    }
  }

  function FileOfRecord(record: SnapshotRecord): File {
    File(record.namespace, record.pvcName, SnapshotPath(record.snapshotId))
  }

  /** The save that vouches for a stored record. */
  lemma StoredWasSaved(log: seq<Event>, id: nat, record: SnapshotRecord)
    requires AllJustified(log) && SnapshotStored(id, record) in log
    ensures record.pvcName == SNAPSHOT_CLAIM
    ensures SaveSeen(id, SaveJob(record.namespace, record.snapshotId, record.pvcName)) in log
  {
    var k :| 0 <= k < |log| && log[k] == SnapshotStored(id, record);
    assert Justified(log[..k], log[k]);
    var d :| Vouched(log[..k], id, d) && record == SnapshotRecordOf(d, record.creationTime);
    assert SaveSeen(id, d.Job()) in log[..k];
  }

  /** One Create makes one save of the snapshot, in one namespace. */
  lemma OneSaveOfTheSnapshot(s: System, a: nat, job: JobSpec, b: nat, other: JobSpec)
    requires SavesFit(s) && OneMaker(s.log, job.snapshotId) && job.snapshotId == other.snapshotId
    requires SaveSeen(a, job) in s.log && SaveSeen(b, other) in s.log
    ensures job == other
  {
    SameMaker(s.log, a, b, job.snapshotId);
    assert SaveSeen(a, job).rpc == SaveSeen(b, other).rpc;
  }

  lemma RemovedHasCleanup(log: seq<Event>, snapshot: string) returns (job: JobSpec)
    requires AllJustified(log) && Removed(log, snapshot)
    ensures IsCleanup(job, snapshot) && exists id :: DeleteSeen(id, job) in log
  {
    var j :| SnapshotDropped(j, snapshot) in log && SawDeleted(log, j, snapshot);
    job :| DeleteSeen(j, job) in log && job.snapshotId == snapshot;
    SeenCleanupsAreCleanups(log, DeleteSeen(j, job));
  }

  lemma RemovedWasCleaned(s: System, id: nat, job: JobSpec)
    requires AllJustified(s.log) && SavesFit(s) && RunsLogged(s) && CleanupsSaved(s.log)
    requires OneMaker(s.log, job.snapshotId) && IsSave(job)
    requires SaveSeen(id, job) in s.log && Removed(s.log, job.snapshotId)
    ensures CleanupRan(s.log, job)
  {
    var cleanup := RemovedHasCleanup(s.log, job.snapshotId);
    assert CleanupFor(SaveFor(cleanup)) == cleanup && CleanupRan(s.log, SaveFor(cleanup));
    var x :| SaveSeen(x, SaveFor(cleanup)) in s.log;
    OneSaveOfTheSnapshot(s, id, job, x, SaveFor(cleanup));
  }

  /** In every reachable state, for every snapshot whose record was ever stored: until
      a delete job of it has run its file is in place; and if one Create only was given
      its group, the file is in place exactly as long as no delete job of it has run,
      and one has run before the record is gone. */
  lemma FilesFollowRecords(run: seq<System>, steps: seq<Step>, i: nat, id: nat, record: SnapshotRecord)
    requires IsRun(run, steps) && i < |run| && SnapshotStored(id, record) in run[i].log
    ensures var cleaned := JobRan(Key(record.namespace, DeleteJobName(record.snapshotId))) in run[i].log;
      && (!cleaned ==> FileOfRecord(record) in run[i].store.files)
      && (OneMaker(run[i].log, record.snapshotId) ==>
            && (FileOfRecord(record) in run[i].store.files <==> !cleaned)
            && (record.snapshotId !in CM.Contents(run[i].store.snapshots) ==> cleaned))
  {
    FilesFitInRuns(run, steps, i);
    RunIsJustified(run, steps, i);
    RecordsStayFindable(run, steps, i);
    StoredWasSaved(run[i].log, id, record);
    var job := SaveJob(record.namespace, record.snapshotId, record.pvcName);
    assert FileOf(job) in run[i].store.files || CleanupRan(run[i].log, job);
    if OneMaker(run[i].log, record.snapshotId) && record.snapshotId !in CM.Contents(run[i].store.snapshots) {
      RemovedWasCleaned(run[i], id, job);
    }
  }

  /* ----- whatever Creates there are ----- */

  /** The save job has run, and the delete job has not run since. */
  ghost predicate SavedLast(log: seq<Event>, job: JobSpec) {
    exists i ::
      && 0 <= i < |log| && log[i] == JobRan(JobKey(job))
      && JobRan(JobKey(CleanupFor(job))) !in log[i..]
  }

  /** How one more event changes that. */
  ghost predicate KeptBy(was: bool, more: seq<Event>, job: JobSpec) {
    more == [JobRan(JobKey(job))] || (was && more != [JobRan(JobKey(CleanupFor(job)))])
  }

  lemma LastRunMoves(log: seq<Event>, more: seq<Event>, job: JobSpec)
    requires |more| <= 1 && IsSave(job)
    ensures SavedLast(log + more, job) <==> KeptBy(SavedLast(log, job), more, job)
  {
    NamesNeverCollide(job.snapshotId, job.snapshotId);
    var log', cleanup := log + more, JobRan(JobKey(CleanupFor(job)));
    if SavedLast(log', job) {
      var i :| 0 <= i < |log'| && log'[i] == JobRan(JobKey(job)) && cleanup !in log'[i..];
      if i < |log| {
        assert log'[i..] == log[i..] + more;
      } else {
        assert more == [log'[i]];
      }
    }
    if more == [JobRan(JobKey(job))] {
      assert log'[|log|..] == more;
    } else if KeptBy(SavedLast(log, job), more, job) {
      var i :| 0 <= i < |log| && log[i] == JobRan(JobKey(job)) && cleanup !in log[i..];
      assert log'[i..] == log[i..] + more;
      assert more != [] ==> more == [more[0]];
    }
  }

  lemma JobRunDecides(s: System, step: Step, s': System, job: JobSpec)
    requires StoreFits(s.log, s.store) && JobActs(s, step, s') && IsSave(job)
    ensures FileOf(job) in s'.store.files <==> KeptBy(FileOf(job) in s.store.files, JobEvents(step), job)
  {
    var spec := s.store.jobs[step.key].spec;
    assert JobFits(s.log, step.key, s.store.jobs[step.key]);
    if step.Run? {
      if FileOf(spec) == FileOf(job) {
        FileNamesTheSnapshot(spec, job);
      }
      if step.key == JobKey(job) {
        KeyNamesTheSpec(s.log, step.key, s.store.jobs[step.key], job);
      } else if step.key == JobKey(CleanupFor(job)) {
        KeyNamesTheSpec(s.log, step.key, s.store.jobs[step.key], CleanupFor(job));
      }
    }
  }

  lemma ServeDecides(s: System, id: nat, reply: Reply, s': System, job: JobSpec)
    requires Serves(s, id, reply, s')
    ensures |EventOf(id, s.rpcs[id], reply)| <= 1
    ensures FileOf(job) in s'.store.files <==>
      KeptBy(FileOf(job) in s.store.files, EventOf(id, s.rpcs[id], reply), job)
  {
    ConfigMapCall(s.store, NextCall(s.rpcs[id]), reply, s'.store);
    RpcsRunNothing(id, s.rpcs[id], reply);
    assert JobRan(JobKey(job)) !in EventOf(id, s.rpcs[id], reply);
    assert JobRan(JobKey(CleanupFor(job))) !in EventOf(id, s.rpcs[id], reply);
  }

  lemma StepDecides(s: System, step: Step, s': System, job: JobSpec) returns (more: seq<Event>)
    requires Inv(s) && Next(s, step, s') && IsSave(job)
    ensures s'.log == s.log + more && |more| <= 1
    ensures FileOf(job) in s'.store.files <==> KeptBy(FileOf(job) in s.store.files, more, job)
  {
    if step.Serve? {
      more := EventOf(step.id, s.rpcs[step.id], step.reply);
      ServeDecides(s, step.id, step.reply, s', job);
    } else if OnJob(step) {
      more := JobEvents(step);
      JobRunDecides(s, step, s', job);
    } else {
      more := [];
    }
  }

  /** In every reachable state, however many Creates were given one group: a file is in
      place exactly when its save job has run and its delete job has not run since. */
  lemma {:induction false} LastRunDecides(run: seq<System>, steps: seq<Step>, i: nat, job: JobSpec)
    requires IsRun(run, steps) && i < |run| && IsSave(job)
    ensures FileOf(job) in run[i].store.files <==> SavedLast(run[i].log, job)
    decreases i
  {
    if i > 0 {
      LastRunDecides(run, steps, i - 1, job);
      RunKeepsInv(run, steps, i - 1);
      assert StepAt(run, steps, i - 1);
      var more := StepDecides(run[i - 1], steps[i - 1], run[i - 1 + 1], job);
      LastRunMoves(run[i - 1].log, more, job);
    }
  }
}
