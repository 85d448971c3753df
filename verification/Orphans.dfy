/** A snapshot whose Store was never acknowledged is an orphan: no delete job of it
    is ever made, so its file stays. */
module Orphans {
  import opened Identifiers
  import opened Api
  import opened Machine
  import opened Protocol
  import opened History
  import opened Ledger
  import opened Files
  import opened Records
  import CM = ConfigMaps

  ghost predicate CleansStored(log: seq<Event>, r: Rpc) {
    r.CleanupCreating? || r.CleanupRunning? ==> SnapshotStoredIn(log, r.snapshot)
  }

  /** Only stored snapshots are cleaned up: by RPCs, by jobs, and in the past. */
  ghost predicate OnlyStoredCleaned(s: System) {
    && (forall id <- s.rpcs :: CleansStored(s.log, s.rpcs[id]))
    && (forall key <- s.store.jobs :: s.store.jobs[key].spec.operation.Delete? ==>
          SnapshotStoredIn(s.log, s.store.jobs[key].spec.snapshotId))
    && OnlyStoredRan(s.log)
  }

  ghost predicate OnlyStoredRan(log: seq<Event>) {
    forall namespace, k :: JobRan(Key(namespace, DeleteJobName(k))) in log ==> SnapshotStoredIn(log, k)
  }

  lemma OnRecordWasStored(s: System, k: string)
    requires Inv(s) && Accounted(s) && k in CM.Contents(s.store.snapshots)
    ensures SnapshotStoredIn(s.log, k)
  {
    var record := CM.Contents(s.store.snapshots)[k];
    assert SnapshotFits(s.log, k, record) && StoredBefore(s.log, record);
    var id :| SnapshotStored(id, record) in s.log;
  }

  lemma FoundWasStored(s: System, r: Rpc, reply: Reply, store': Store)
    requires Inv(s) && Accounted(s) && r.CleanupFinding? && Exec(s.store, OnSnapshots(CM.Get), reply, store')
    ensures CleansStored(s.log, DeletingNext(r, reply))
  {
    if FoundSnapshot(r.snapshot, reply).Some? {
      OnRecordWasStored(s, r.snapshot);
    }
  }

  lemma CleanupKeepsItsSnapshot(log: seq<Event>, r: Rpc, reply: Reply)
    requires (r.CleanupCreating? || r.CleanupRunning?) && CleansStored(log, r)
    ensures CleansStored(log, DeletingNext(r, reply))
  {
  }

  lemma ServedCleansStored(s: System, id: nat, reply: Reply, s': System)
    requires Inv(s) && Accounted(s) && OnlyStoredCleaned(s) && Serves(s, id, reply, s')
    ensures CleansStored(s.log, s'.rpcs[id])
  {
    var r := s.rpcs[id];
    if r.CleanupFinding? {
      FoundWasStored(s, r, reply, s'.store);
    } else if r.CleanupCreating? || r.CleanupRunning? {
      assert CleansStored(s.log, r);
      CleanupKeepsItsSnapshot(s.log, r, reply);
    } else {
      OnlyLookupsStartCleanups(r, reply);
    }
  }

  /** The delete job an RPC makes is of the snapshot it cleans up. */
  lemma MadeJobsAreStored(store: Store, log: seq<Event>, id: nat, r: Rpc, reply: Reply, store': Store)
    requires !Ended(r) && Shape(log, id, r) && UpToDate(r, store) && Exec(store, NextCall(r), reply, store')
    requires CleansStored(log, r)
    requires forall key <- store.jobs :: store.jobs[key].spec.operation.Delete? ==>
      SnapshotStoredIn(log, store.jobs[key].spec.snapshotId)
    ensures forall key <- store'.jobs :: store'.jobs[key].spec.operation.Delete? ==>
      SnapshotStoredIn(log, store'.jobs[key].spec.snapshotId)
  {
    Footprint(store, log, id, r, reply, store');
  }

  lemma StoredCleanedGrows(log: seq<Event>, more: seq<Event>, r: Rpc)
    requires CleansStored(log, r)
    ensures CleansStored(log + more, r)
  {
    if r.CleanupCreating? || r.CleanupRunning? {
      StoredInGrows(log, more, r.snapshot);
    }
  }

  lemma ServeKeepsStoredCleaned(s: System, id: nat, reply: Reply, s': System)
    requires Inv(s) && Accounted(s) && OnlyStoredCleaned(s) && Serves(s, id, reply, s')
    ensures OnlyStoredCleaned(s')
  {
    var r, more := s.rpcs[id], EventOf(id, s.rpcs[id], reply);
    assert Shape(s.log, id, r) && UpToDate(r, s.store) && CleansStored(s.log, r);
    ServedCleansStored(s, id, reply, s');
    MadeJobsAreStored(s.store, s.log, id, r, reply, s'.store);
    forall j | j in s'.rpcs ensures CleansStored(s'.log, s'.rpcs[j]) {
      assert j != id ==> s'.rpcs[j] == s.rpcs[j];
      StoredCleanedGrows(s.log, more, s'.rpcs[j]);
    }
    forall key | key in s'.store.jobs && s'.store.jobs[key].spec.operation.Delete?
      ensures SnapshotStoredIn(s'.log, s'.store.jobs[key].spec.snapshotId)
    {
      StoredInGrows(s.log, more, s'.store.jobs[key].spec.snapshotId);
    }
    assert forall e <- more :: !e.JobRan?;
    RanGrows(s.log, more);
  }

  lemma RanGrows(log: seq<Event>, more: seq<Event>)
    requires OnlyStoredRan(log)
    requires forall namespace, k :: JobRan(Key(namespace, DeleteJobName(k))) in more ==> SnapshotStoredIn(log, k)
    ensures OnlyStoredRan(log + more)
  {
    forall namespace, k | JobRan(Key(namespace, DeleteJobName(k))) in log + more
      ensures SnapshotStoredIn(log + more, k)
    {
      StoredInGrows(log, more, k);
    }
  }

  /** A job with the name of a delete job is that delete job. */
  lemma DeleteNameIsDelete(log: seq<Event>, key: Key, job: Job, k: string)
    requires JobFits(log, key, job) && key.name == DeleteJobName(k)
    ensures job.spec.operation.Delete? && job.spec.snapshotId == k
  {
    NamesNeverCollide(job.spec.snapshotId, k);
  }

  lemma JobStepKeepsStoredCleaned(s: System, step: Step, s': System)
    requires Inv(s) && OnlyStoredCleaned(s) && JobActs(s, step, s')
    ensures OnlyStoredCleaned(s')
  {
    var more := JobEvents(step);
    forall namespace, k | JobRan(Key(namespace, DeleteJobName(k))) in more ensures SnapshotStoredIn(s.log, k) {
      assert JobFits(s.log, step.key, s.store.jobs[step.key]);
      DeleteNameIsDelete(s.log, step.key, s.store.jobs[step.key], k);
    }
    RanGrows(s.log, more);
    forall j | j in s'.rpcs ensures CleansStored(s'.log, s'.rpcs[j]) {
      assert CleansStored(s.log, s.rpcs[j]);
      StoredCleanedGrows(s.log, more, s.rpcs[j]);
    }
    forall key | key in s'.store.jobs && s'.store.jobs[key].spec.operation.Delete?
      ensures SnapshotStoredIn(s'.log, s'.store.jobs[key].spec.snapshotId)
    {
      StoredInGrows(s.log, more, s'.store.jobs[key].spec.snapshotId);
    }
  }

  lemma IdleStepKeepsStoredCleaned(s: System, step: Step, s': System)
    requires OnlyStoredCleaned(s) && Idles(s, step, s')
    ensures OnlyStoredCleaned(s')
  {
    forall j | j in s'.rpcs ensures CleansStored(s'.log, s'.rpcs[j]) {
      if j in s.rpcs {
        assert CleansStored(s.log, s.rpcs[j]);
      }
    }
  }

  lemma StepKeepsStoredCleaned(s: System, step: Step, s': System)
    requires Inv(s) && Accounted(s) && OnlyStoredCleaned(s) && Next(s, step, s')
    ensures OnlyStoredCleaned(s')
  {
    if step.Serve? {
      ServeKeepsStoredCleaned(s, step.id, step.reply, s');
    } else if OnJob(step) {
      JobStepKeepsStoredCleaned(s, step, s');
    } else {
      IdleStepKeepsStoredCleaned(s, step, s');
    }
  }

  lemma {:induction false} OnlyStoredAreCleaned(run: seq<System>, steps: seq<Step>, i: nat)
    requires IsRun(run, steps) && i < |run|
    ensures OnlyStoredCleaned(run[i])
    decreases i
  {
    if i > 0 {
      OnlyStoredAreCleaned(run, steps, i - 1);
      RunKeepsInv(run, steps, i - 1);
      RecordsStayFindable(run, steps, i - 1);
      assert StepAt(run, steps, i - 1);
      StepKeepsStoredCleaned(run[i - 1], steps[i - 1], run[i - 1 + 1]);
    }
  }

  /** As long as no Store of an answered snapshot's record has been acknowledged, no
      delete job of the snapshot is there or has ever run, and its file is in place,
      although nothing on record leads to it. */
  lemma OrphansKeepTheirFile(run: seq<System>, steps: seq<Step>, i: nat, id: nat) returns (namespace: string)
    requires IsRun(run, steps) && i < |run|
    requires id in run[i].rpcs && run[i].rpcs[id].CreateDone? && run[i].rpcs[id].created.Ok?
    requires !SnapshotStoredIn(run[i].log, run[i].rpcs[id].created.value.snapshotId)
    ensures var k := run[i].rpcs[id].created.value.snapshotId;
      && k !in CM.Contents(run[i].store.snapshots)
      && FileOf(SaveJob(namespace, k, SNAPSHOT_CLAIM)) in run[i].store.files
      && (forall key <- run[i].store.jobs :: key.name != DeleteJobName(k))
      && (forall other :: JobRan(Key(other, DeleteJobName(k))) !in run[i].log)
  {
    var s, answer := run[i], run[i].rpcs[id].created.value;
    RunKeepsInv(run, steps, i);
    RunIsJustified(run, steps, i);
    FilesFitInRuns(run, steps, i);
    RecordsStayFindable(run, steps, i);
    OnlyStoredAreCleaned(run, steps, i);
    namespace := AnswerWasSaved(s, id);
    var job := SaveJob(namespace, answer.snapshotId, SNAPSHOT_CLAIM);
    assert FileOf(job) in s.store.files || CleanupRan(s.log, job);
    UnstoredIsNowhere(s, answer.snapshotId);
  }

  lemma AnswerWasSaved(s: System, id: nat) returns (namespace: string)
    requires HistoryHolds(s) && id in s.rpcs && s.rpcs[id].CreateDone? && s.rpcs[id].created.Ok?
    ensures SaveSeen(id, SaveJob(namespace, s.rpcs[id].created.value.snapshotId, SNAPSHOT_CLAIM)) in s.log
  {
    var answer := s.rpcs[id].created.value;
    assert Backed(s.log, id, s.rpcs[id]);
    var d :| Vouched(s.log, id, d) && answer == ResponseOf(d, answer.snapshotTime, answer.groupTime);
    namespace := d.Namespace();
  }

  lemma UnstoredIsNowhere(s: System, k: string)
    requires Inv(s) && Accounted(s) && OnlyStoredCleaned(s) && !SnapshotStoredIn(s.log, k)
    ensures k !in CM.Contents(s.store.snapshots)
    ensures forall key <- s.store.jobs :: key.name != DeleteJobName(k)
    ensures forall namespace :: JobRan(Key(namespace, DeleteJobName(k))) !in s.log
  {
    if k in CM.Contents(s.store.snapshots) {
      OnRecordWasStored(s, k);
    }
    forall key | key in s.store.jobs ensures key.name != DeleteJobName(k) {
      assert JobFits(s.log, key, s.store.jobs[key]);
      if key.name == DeleteJobName(k) {
        DeleteNameIsDelete(s.log, key, s.store.jobs[key], k);
      }
    }
  }
}
