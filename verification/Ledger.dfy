/** Which snapshots are on record, and who may take one off the record. */
module Ledger {
  import opened Api
  import opened Machine
  import opened Protocol
  import opened History
  import CM = ConfigMaps

  ghost predicate StoredBefore(log: seq<Event>, record: SnapshotRecord) {
    exists id :: SnapshotStored(id, record) in log
  }

  ghost predicate GroupStoredBefore(log: seq<Event>, record: GroupRecord) {
    exists id :: GroupStored(id, record) in log
  }

  /** Some RPC dropped the snapshot after it saw a delete job of it succeed. */
  ghost predicate Removed(log: seq<Event>, snapshot: string) {
    exists id :: SnapshotDropped(id, snapshot) in log && SawDeleted(log, id, snapshot)
  }

  /** The records are exactly accounted for: whatever is on record was stored,
      and whatever was stored is still on record unless it was removed. */
  ghost predicate Accounted(s: System) {
    && (forall k <- CM.Contents(s.store.snapshots) :: StoredBefore(s.log, CM.Contents(s.store.snapshots)[k]))
    && (forall g <- CM.Contents(s.store.groups) :: GroupStoredBefore(s.log, CM.Contents(s.store.groups)[g]))
    && NoneLost(s.log, CM.Contents(s.store.snapshots).Keys)
  }

  /** Every snapshot stored so far is among those on record or was removed. */
  ghost predicate NoneLost(log: seq<Event>, onRecord: set<string>) {
    forall e <- log :: e.SnapshotStored? ==> e.record.snapshotId in onRecord || Removed(log, e.record.snapshotId)
  }

  lemma RemovedGrows(log: seq<Event>, more: seq<Event>, snapshot: string)
    requires Removed(log, snapshot)
    ensures Removed(log + more, snapshot)
  {
    var id :| SnapshotDropped(id, snapshot) in log && SawDeleted(log, id, snapshot);
    var job :| DeleteSeen(id, job) in log && job.snapshotId == snapshot;
    assert DeleteSeen(id, job) in log + more;
    assert SnapshotDropped(id, snapshot) in log + more;
  }

  lemma StoredGrows(log: seq<Event>, more: seq<Event>)
    ensures forall record :: StoredBefore(log, record) ==> StoredBefore(log + more, record)
    ensures forall record :: GroupStoredBefore(log, record) ==> GroupStoredBefore(log + more, record)
  {
    forall record | StoredBefore(log, record) ensures StoredBefore(log + more, record) {
      var id :| SnapshotStored(id, record) in log;
      assert SnapshotStored(id, record) in log + more;
    }
    forall record | GroupStoredBefore(log, record) ensures GroupStoredBefore(log + more, record) {
      var id :| GroupStored(id, record) in log;
      assert GroupStored(id, record) in log + more;
    }
  }

  /** Records can only be added, or leave together with their removal. */
  lemma NoneLostMoves(log: seq<Event>, onRecord: set<string>, more: seq<Event>, after: set<string>)
    requires NoneLost(log, onRecord)
    requires forall e <- more :: e.SnapshotStored? ==> e.record.snapshotId in after
    requires forall k <- onRecord :: k in after || Removed(log + more, k)
    ensures NoneLost(log + more, after)
  {
    forall e | e in log + more && e.SnapshotStored?
      ensures e.record.snapshotId in after || Removed(log + more, e.record.snapshotId)
    {
      if e in log && Removed(log, e.record.snapshotId) {
        RemovedGrows(log, more, e.record.snapshotId);
      }
    }
  }

  lemma AccountsGrow(s: System, s': System, more: seq<Event>)
    requires Accounted(s) && s'.log == s.log + more
    requires s'.store.snapshots == s.store.snapshots && s'.store.groups == s.store.groups
    requires forall e <- more :: !e.SnapshotStored?
    ensures Accounted(s')
  {
    StoredGrows(s.log, more);
    var onRecord := CM.Contents(s.store.snapshots).Keys;
    NoneLostMoves(s.log, onRecord, more, onRecord);
  }

  /** The one event and the one map entry a step can change go together. */
  ghost predicate SnapshotsFollow(
    log: seq<Event>, id: nat, before: map<string, SnapshotRecord>, more: seq<Event>, after: map<string, SnapshotRecord>)
  {
    || (after == before && forall e <- more :: !e.SnapshotStored?)
    || (exists record :: more == [SnapshotStored(id, record)] && after == before[record.snapshotId := record])
    || (exists k :: more == [SnapshotDropped(id, k)] && after == before - {k} && SawDeleted(log, id, k))
  }

  lemma ServedSnapshots(s: System, id: nat, reply: Reply, s': System)
    requires Inv(s) && HistoryHolds(s) && Serves(s, id, reply, s')
    ensures SnapshotsFollow(s.log, id, CM.Contents(s.store.snapshots),
              EventOf(id, s.rpcs[id], reply), CM.Contents(s'.store.snapshots))
  {
    var r := s.rpcs[id];
    assert Shape(s.log, id, r) && UpToDate(r, s.store) && Backed(s.log, id, r);
    Footprint(s.store, s.log, id, r, reply, s'.store);
    WritesAreLogged(s.log, id, r, reply);
  }

  lemma WritesAreLogged(log: seq<Event>, id: nat, r: Rpc, reply: Reply)
    requires !Ended(r) && Shape(log, id, r)
    ensures if reply == Snapshots(CM.Written) && r.StoringSnapshot? then
        EventOf(id, r, reply) == [SnapshotStored(id, r.snapshotProc.req.record)]
      else if reply == Snapshots(CM.Written) && r.CleanupDropping? then
        EventOf(id, r, reply) == [SnapshotDropped(id, r.snapshot)]
      else forall e <- EventOf(id, r, reply) :: !e.SnapshotStored?
  {
  }

  lemma ServedGroups(s: System, id: nat, reply: Reply, s': System)
    requires Inv(s) && Serves(s, id, reply, s')
    ensures var before, after, r := CM.Contents(s.store.groups), CM.Contents(s'.store.groups), s.rpcs[id];
      forall g <- after :: (g in before && after[g] == before[g])
        || (r.StoringGroup? && r.groupProc.req.Store? && after[g] == r.groupProc.req.record
            && EventOf(id, r, reply) == [GroupStored(id, after[g])])
  {
    var r := s.rpcs[id];
    assert Shape(s.log, id, r) && UpToDate(r, s.store);
    Footprint(s.store, s.log, id, r, reply, s'.store);
  }

  lemma ServeKeepsStored(s: System, id: nat, reply: Reply, s': System)
    requires Inv(s) && HistoryHolds(s) && Accounted(s) && Serves(s, id, reply, s')
    ensures forall g <- CM.Contents(s'.store.groups) :: GroupStoredBefore(s'.log, CM.Contents(s'.store.groups)[g])
  {
    var r, more := s.rpcs[id], EventOf(id, s.rpcs[id], reply);
    StoredGrows(s.log, more);
    ServedGroups(s, id, reply, s');
    var after := CM.Contents(s'.store.groups);
    forall g | g in after ensures GroupStoredBefore(s'.log, after[g]) {
      if more == [GroupStored(id, after[g])] {
        assert GroupStored(id, after[g]) in s'.log;
      }
    }
  }

  lemma FollowingKeepsAccounts(
    log: seq<Event>, id: nat, before: map<string, SnapshotRecord>, more: seq<Event>, after: map<string, SnapshotRecord>)
    requires SnapshotsFollow(log, id, before, more, after) && NoneLost(log, before.Keys)
    requires forall k <- before :: StoredBefore(log, before[k])
    ensures NoneLost(log + more, after.Keys)
    ensures forall k <- after :: StoredBefore(log + more, after[k])
  {
    StoredGrows(log, more);
    forall k | k in after ensures StoredBefore(log + more, after[k]) {
      if more == [SnapshotStored(id, after[k])] {
        assert SnapshotStored(id, after[k]) in log + more;
      }
    }
    forall k | k in before && k !in after ensures Removed(log + more, k) {
      assert more == [SnapshotDropped(id, k)];
      var job :| DeleteSeen(id, job) in log && job.snapshotId == k;
      assert DeleteSeen(id, job) in log + more && SnapshotDropped(id, k) in log + more;
    }
    NoneLostMoves(log, before.Keys, more, after.Keys);
  }

  lemma ServeKeepsAccounts(s: System, id: nat, reply: Reply, s': System)
    requires Inv(s) && HistoryHolds(s) && Accounted(s) && Serves(s, id, reply, s')
    ensures Accounted(s')
  {
    ServeKeepsStored(s, id, reply, s');
    ServedSnapshots(s, id, reply, s');
    FollowingKeepsAccounts(s.log, id, CM.Contents(s.store.snapshots),
      EventOf(id, s.rpcs[id], reply), CM.Contents(s'.store.snapshots));
  }

  lemma OtherStepsKeepAccounts(s: System, step: Step, s': System)
    requires Accounted(s) && Next(s, step, s') && !step.Serve?
    ensures Accounted(s')
  {
    AccountsGrow(s, s', if OnJob(step) then JobEvents(step) else []);
  }

  lemma StepKeepsAccounts(s: System, step: Step, s': System)
    requires Inv(s) && HistoryHolds(s) && Accounted(s) && Next(s, step, s')
    ensures Accounted(s')
  {
    if step.Serve? {
      ServeKeepsAccounts(s, step.id, step.reply, s');
    } else {
      OtherStepsKeepAccounts(s, step, s');
    }
  }

  /** In every reachable state a snapshot record that was once stored and is no
      longer there was dropped by an RPC that had seen the delete job of that
      snapshot succeed; dropping a group record never loses a snapshot record. */
  lemma {:induction false} RecordsStayFindable(run: seq<System>, steps: seq<Step>, i: nat)
    requires IsRun(run, steps) && i < |run|
    ensures Accounted(run[i])
    decreases i
  {
    if i > 0 {
      RecordsStayFindable(run, steps, i - 1);
      RunKeepsInv(run, steps, i - 1);
      RunIsJustified(run, steps, i - 1);
      assert StepAt(run, steps, i - 1);
      StepKeepsAccounts(run[i - 1], steps[i - 1], run[i]);
    }
  }

  lemma PrefixVouches(log: seq<Event>, k: nat, id: nat, d: Draft)
    requires k <= |log| && Vouched(log[..k], id, d)
    ensures Vouched(log, id, d)
  {
    assert log == log[..k] + log[k..];
    VouchedGrows(log[..k], log[k..], id, d);
  }

  lemma StoredSnapshotIsVouched(log: seq<Event>, id: nat, record: SnapshotRecord) returns (d: Draft)
    requires AllJustified(log) && SnapshotStored(id, record) in log
    ensures Vouched(log, id, d) && record == SnapshotRecordOf(d, record.creationTime)
  {
    var k :| 0 <= k < |log| && log[k] == SnapshotStored(id, record);
    assert Justified(log[..k], log[k]);
    d :| Vouched(log[..k], id, d) && record == SnapshotRecordOf(d, record.creationTime);
    PrefixVouches(log, k, id, d);
  }

  lemma StoredGroupIsVouched(log: seq<Event>, id: nat, record: GroupRecord) returns (d: Draft)
    requires AllJustified(log) && GroupStored(id, record) in log
    ensures Vouched(log, id, d) && record == GroupRecordOf(d, record.creationTime)
  {
    var k :| 0 <= k < |log| && log[k] == GroupStored(id, record);
    assert Justified(log[..k], log[k]);
    d :| Vouched(log[..k], id, d) && record == GroupRecordOf(d, record.creationTime);
    PrefixVouches(log, k, id, d);
  }

  /* ----- one cleanup at a time ----- */

  ghost predicate ExpiresBetween(log: seq<Event>, key: Key, i: int, j: int) {
    exists m :: i < m < j <= |log| && 0 <= m && log[m] == JobExpired(key)
  }

  ghost predicate Creates(e: Event, key: Key) {
    e.JobCreated? && e.key == key
  }

  /** A created job is in the store until it expires, and is only created again after that. */
  ghost predicate JobsAlternate(log: seq<Event>, jobs: set<Key>) {
    && (forall i, key :: 0 <= i < |log| && Creates(log[i], key) ==> key in jobs || ExpiresBetween(log, key, i, |log|))
    && (forall i, j, key :: 0 <= i < j < |log| && Creates(log[i], key) && Creates(log[j], key) ==>
          ExpiresBetween(log, key, i, j))
  }

  lemma ExpiryGrows(log: seq<Event>, more: seq<Event>, key: Key, i: int, j: int)
    requires 0 <= i < j <= |log| && ExpiresBetween(log, key, i, j)
    ensures ExpiresBetween(log + more, key, i, j) && ExpiresBetween(log + more, key, i, |log + more|)
  {
    var m :| i < m < j && log[m] == JobExpired(key);
    assert (log + more)[m] == JobExpired(key);
  }

  /** What a step can do to the set of jobs and to the log. */
  ghost predicate MovesJobs(jobs: set<Key>, more: seq<Event>, jobs': set<Key>) {
    && |more| <= 1
    && (forall key <- jobs :: key in jobs' || more == [JobExpired(key)])
    && (more != [] && more[0].JobCreated? ==> more[0].key !in jobs && more[0].key in jobs')
  }

  lemma ServeMovesJobs(s: System, id: nat, reply: Reply, s': System)
    requires Inv(s) && Serves(s, id, reply, s')
    ensures MovesJobs(s.store.jobs.Keys, EventOf(id, s.rpcs[id], reply), s'.store.jobs.Keys)
  {
    var r := s.rpcs[id];
    assert Shape(s.log, id, r) && UpToDate(r, s.store);
    Footprint(s.store, s.log, id, r, reply, s'.store);
  }

  lemma StepMovesJobs(s: System, step: Step, s': System) returns (more: seq<Event>)
    requires Inv(s) && Next(s, step, s')
    ensures s'.log == s.log + more && MovesJobs(s.store.jobs.Keys, more, s'.store.jobs.Keys)
  {
    if step.Serve? {
      ServeMovesJobs(s, step.id, step.reply, s');
      more := EventOf(step.id, s.rpcs[step.id], step.reply);
    } else if OnJob(step) {
      more := JobEvents(step);
    } else {
      more := [];
    }
  }

  lemma AlternationMoves(log: seq<Event>, jobs: set<Key>, more: seq<Event>, jobs': set<Key>)
    requires JobsAlternate(log, jobs) && MovesJobs(jobs, more, jobs')
    ensures JobsAlternate(log + more, jobs')
  {
    var n, log' := |log|, log + more;
    forall i, key | 0 <= i < |log'| && Creates(log'[i], key)
      ensures key in jobs' || ExpiresBetween(log', key, i, |log'|)
    {
      if i < n {
        assert Creates(log[i], key);
        if ExpiresBetween(log, key, i, n) {
          ExpiryGrows(log, more, key, i, n);
        } else if key !in jobs' {
          assert log'[n] == JobExpired(key);
        }
      }
    }
    forall i, j, key | 0 <= i < j < |log'| && Creates(log'[i], key) && Creates(log'[j], key)
      ensures ExpiresBetween(log', key, i, j)
    {
      assert Creates(log[i], key);
      if j < n {
        assert Creates(log[j], key);
        ExpiryGrows(log, more, key, i, j);
      } else {
        assert log'[j] == more[0];
        ExpiryGrows(log, more, key, i, n);
      }
    }
  }

  lemma {:induction false} JobsAlternateInRuns(run: seq<System>, steps: seq<Step>, i: nat)
    requires IsRun(run, steps) && i < |run|
    ensures JobsAlternate(run[i].log, run[i].store.jobs.Keys)
    decreases i
  {
    if i > 0 {
      JobsAlternateInRuns(run, steps, i - 1);
      RunKeepsInv(run, steps, i - 1);
      assert StepAt(run, steps, i - 1);
      var more := StepMovesJobs(run[i - 1], steps[i - 1], run[i]);
      AlternationMoves(run[i - 1].log, run[i - 1].store.jobs.Keys, more, run[i].store.jobs.Keys);
    }
  }

  /** A Delete that finds the cleanup job taken gets an error, goes on to the
      group record, and leaves the whole store as it was. */
  lemma TakenCleanupIsRefused(s: System, id: nat, reply: Reply, s': System)
    requires Serves(s, id, reply, s') && s.rpcs[id].CleanupCreating?
    requires JobKey(s.rpcs[id].job) in s.store.jobs
    ensures s'.store == s.store && s'.log == s.log
    ensures s'.rpcs[id] == DropGroup(s.rpcs[id].group)
  {
  }

  /** What is left of a Delete that has done with its snapshot. */
  predicate PastCleanup(r: Rpc) {
    r.DroppingGroup? || r.DeleteDone?
  }

  lemma DropsEndCleanup(log: seq<Event>, id: nat, r: Rpc, reply: Reply)
    requires !Ended(r) && Shape(log, id, r)
    ensures PastCleanup(r) ==> PastCleanup(Advance(r, reply))
    ensures forall e <- EventOf(id, r, reply) :: e.SnapshotDropped? ==>
      e.rpc == id && !PastCleanup(r) && PastCleanup(Advance(r, reply))
  {
  }

  /** An RPC that has dropped a snapshot is past its cleanup. */
  ghost predicate DropsAreOver(s: System) {
    forall e <- s.log :: e.SnapshotDropped? ==> e.rpc in s.rpcs && PastCleanup(s.rpcs[e.rpc])
  }

  /** RPC id is past its cleanup and has dropped no snapshot. */
  ghost predicate DroppedNone(s: System, id: nat) {
    && id in s.rpcs && PastCleanup(s.rpcs[id])
    && forall e <- s.log :: !(e.SnapshotDropped? && e.rpc == id)
  }

  lemma StepKeepsDrops(s: System, step: Step, s': System)
    requires Inv(s) && Next(s, step, s')
    requires DropsAreOver(s)
    ensures DropsAreOver(s')
  {
    if step.Serve? {
      assert Shape(s.log, step.id, s.rpcs[step.id]);
      DropsEndCleanup(s.log, step.id, s.rpcs[step.id], step.reply);
    }
  }

  lemma StepDropsNone(s: System, step: Step, s': System, id: nat)
    requires Inv(s) && Next(s, step, s') && DroppedNone(s, id)
    ensures DroppedNone(s', id)
  {
    if step.Serve? {
      assert Shape(s.log, step.id, s.rpcs[step.id]);
      DropsEndCleanup(s.log, step.id, s.rpcs[step.id], step.reply);
    }
  }

  lemma RunDropsNone(run: seq<System>, steps: seq<Step>, k: nat, id: nat)
    requires IsRun(run, steps) && k < |steps| && DroppedNone(run[k], id)
    ensures DroppedNone(run[k + 1], id)
  {
    RunKeepsInv(run, steps, k);
    assert StepAt(run, steps, k);
    StepDropsNone(run[k], steps[k], run[k + 1], id);
  }

  lemma {:induction false} DropsAreOverInRuns(run: seq<System>, steps: seq<Step>, i: nat)
    requires IsRun(run, steps) && i < |run|
    ensures DropsAreOver(run[i])
    decreases i
  {
    if i > 0 {
      DropsAreOverInRuns(run, steps, i - 1);
      RunKeepsInv(run, steps, i - 1);
      assert StepAt(run, steps, i - 1);
      StepKeepsDrops(run[i - 1], steps[i - 1], run[i - 1 + 1]);
    }
  }

  lemma {:induction false} DroppedNoneLasts(run: seq<System>, steps: seq<Step>, i: nat, j: nat, id: nat)
    requires IsRun(run, steps) && i <= j < |run| && DroppedNone(run[i], id)
    ensures DroppedNone(run[j], id)
    decreases j - i
  {
    if i < j {
      DroppedNoneLasts(run, steps, i, j - 1, id);
      RunDropsNone(run, steps, j - 1, id);
    }
  }

  /** A Delete that finds the cleanup job taken changes nothing in that step and
      never drops a snapshot record, however the run goes on. */
  lemma RefusedDeleteNeverDrops(run: seq<System>, steps: seq<Step>, k: nat, j: nat, id: nat, reply: Reply)
    requires IsRun(run, steps) && k < j < |run| && steps[k] == Step.Serve(id, reply)
    requires id in run[k].rpcs && run[k].rpcs[id].CleanupCreating?
    requires JobKey(run[k].rpcs[id].job) in run[k].store.jobs
    ensures run[k + 1].store == run[k].store
    ensures forall e <- run[j].log :: !(e.SnapshotDropped? && e.rpc == id)
  {
    assert StepAt(run, steps, k);
    TakenCleanupIsRefused(run[k], id, reply, run[k + 1]);
    DropsAreOverInRuns(run, steps, k);
    DroppedNoneLasts(run, steps, k + 1, j, id);
  }

  /** Of any two RPCs that passed the Create of one cleanup job, the later one
      came after the earlier job object had expired. */
  lemma OneCleanupPerJobObject(run: seq<System>, steps: seq<Step>, n: nat, i: nat, j: nat, key: Key)
    requires IsRun(run, steps) && n < |run|
    requires i < j < |run[n].log| && Creates(run[n].log[i], key) && Creates(run[n].log[j], key)
    ensures exists m :: i < m < j && run[n].log[m] == JobExpired(key)
  {
    JobsAlternateInRuns(run, steps, n);
    assert ExpiresBetween(run[n].log, key, i, j);
  }

  /** The RPC of a removal created the delete job, then saw it succeed, then dropped the record. */
  ghost predicate Cleaned(log: seq<Event>, k: nat)
    requires k < |log| && log[k].SnapshotDropped?
  {
    exists job, j, i ::
      && 0 <= i < j < k
      && log[j] == DeleteSeen(log[k].rpc, job) && log[i] == JobCreated(log[k].rpc, JobKey(job))
      && job == DeleteJob(job.namespace, log[k].snapshot, SNAPSHOT_CLAIM)
  }

  lemma Where<T>(s: seq<T>, n: nat, x: T) returns (i: nat)
    requires n <= |s| && x in s[..n]
    ensures i < n && s[i] == x
  {
    i :| 0 <= i < n && s[..n][i] == x;
  }

  lemma SeenCleanupWasCreated(log: seq<Event>, j: nat) returns (i: nat)
    requires AllJustified(log) && j < |log| && log[j].DeleteSeen?
    ensures i < j && log[i] == JobCreated(log[j].rpc, JobKey(log[j].job))
    ensures IsCleanup(log[j].job, log[j].job.snapshotId)
  {
    assert Justified(log[..j], log[j]);
    i := Where(log, j, JobCreated(log[j].rpc, JobKey(log[j].job)));
  }

  lemma DropWasSeen(log: seq<Event>, k: nat) returns (j: nat)
    requires AllJustified(log) && k < |log| && log[k].SnapshotDropped?
    ensures j < k && log[j].DeleteSeen? && log[j].rpc == log[k].rpc && log[j].job.snapshotId == log[k].snapshot
  {
    assert Justified(log[..k], log[k]);
    var job :| DeleteSeen(log[k].rpc, job) in log[..k] && job.snapshotId == log[k].snapshot;
    j := Where(log, k, DeleteSeen(log[k].rpc, job));
  }

  lemma JustifiedDropsAreCleaned(log: seq<Event>, k: nat)
    requires AllJustified(log) && k < |log| && log[k].SnapshotDropped?
    ensures Cleaned(log, k)
  {
    var j := DropWasSeen(log, k);
    var i := SeenCleanupWasCreated(log, j);
    assert log[j] == DeleteSeen(log[k].rpc, log[j].job);
  }

  lemma OnlyCleanersDrop(run: seq<System>, steps: seq<Step>, n: nat, k: nat)
    requires IsRun(run, steps) && n < |run|
    requires k < |run[n].log| && run[n].log[k].SnapshotDropped?
    ensures Cleaned(run[n].log, k)
  {
    RunIsJustified(run, steps, n);
    JustifiedDropsAreCleaned(run[n].log, k);
  }
}
