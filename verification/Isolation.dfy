/** Work on one group leaves every other group alone. */
module Isolation {
  import opened Identifiers
  import opened Api
  import opened Machine
  import opened Protocol
  import CM = ConfigMaps

  ghost function At<K, V>(m: map<K, V>, k: K): set<V> {
    if k in m then {m[k]} else {}
  }

  /** What group h owns in a store: its group record, the records of its
      snapshots, their files on every claim, and their jobs. */
  datatype Slice = Slice(
    group: set<GroupRecord>, snapshots: map<string, SnapshotRecord>, files: set<File>, jobs: map<Key, Job>)

  ghost function SliceOf(h: string, s: Store): Slice {
    Slice(
      At(CM.Contents(s.groups), h),
      map k | k in CM.Contents(s.snapshots) && SnapshotOf(h, k) :: CM.Contents(s.snapshots)[k],
      set f | f in s.files && OwnsFile(h, f),
      map key | key in s.jobs && OwnsJob(h, key) :: s.jobs[key])
  }

  ghost predicate OwnsFile(h: string, f: File) {
    exists k :: SnapshotOf(h, k) && f.path == SnapshotPath(k)
  }

  ghost predicate OwnsJob(h: string, key: Key) {
    exists k :: SnapshotOf(h, k) && (key.name == SaveJobName(k) || key.name == DeleteJobName(k))
  }

  /** The same, one owned thing at a time. */
  ghost predicate SameSlice(h: string, s: Store, s': Store) {
    SameRecords(h, s, s') && SameFiles(h, s, s') && SameJobs(h, s, s')
  }

  ghost predicate SameRecords(h: string, s: Store, s': Store) {
    && At(CM.Contents(s.groups), h) == At(CM.Contents(s'.groups), h)
    && forall k :: SnapshotOf(h, k) ==> At(CM.Contents(s.snapshots), k) == At(CM.Contents(s'.snapshots), k)
  }

  ghost predicate SameFiles(h: string, s: Store, s': Store) {
    forall k, f: File :: SnapshotOf(h, k) && f.path == SnapshotPath(k) ==> (f in s.files <==> f in s'.files)
  }

  ghost predicate SameJobs(h: string, s: Store, s': Store) {
    forall k, key: Key :: SnapshotOf(h, k) && (key.name == SaveJobName(k) || key.name == DeleteJobName(k)) ==>
      At(s.jobs, key) == At(s'.jobs, key)
  }

  lemma SameRecordsAreEqual(h: string, s: Store, s': Store)
    requires SameRecords(h, s, s')
    ensures SliceOf(h, s).group == SliceOf(h, s').group && SliceOf(h, s).snapshots == SliceOf(h, s').snapshots
  {
    var m, m' := CM.Contents(s.snapshots), CM.Contents(s'.snapshots);
    forall k | (k in m || k in m') && SnapshotOf(h, k) ensures k in m && k in m' && m[k] == m'[k] {
      assert At(m, k) == At(m', k);
      EqualAt(m, m', k);
    }
  }

  lemma SameJobsAreEqual(h: string, s: Store, s': Store)
    requires SameJobs(h, s, s')
    ensures SliceOf(h, s).jobs == SliceOf(h, s').jobs
  {
    forall key | (key in s.jobs || key in s'.jobs) && OwnsJob(h, key)
      ensures key in s.jobs && key in s'.jobs && s.jobs[key] == s'.jobs[key]
    {
      EqualAt(s.jobs, s'.jobs, key);
    }
  }

  lemma SameSlicesAreEqual(h: string, s: Store, s': Store)
    requires SameSlice(h, s, s')
    ensures SliceOf(h, s) == SliceOf(h, s')
  {
    SameRecordsAreEqual(h, s, s');
    SameJobsAreEqual(h, s, s');
    assert SliceOf(h, s).files == SliceOf(h, s').files;
  }

  lemma EqualAt<K, V>(m: map<K, V>, m': map<K, V>, k: K)
    requires k in m || k in m'
    ensures At(m, k) == At(m', k) <==> k in m && k in m' && m[k] == m'[k]
  {
    if k in m && k in m' && At(m, k) == At(m', k) {
      assert m[k] in At(m', k);
    } else if k in m && k !in m' {
      assert m[k] in At(m, k);
    } else if k !in m {
      assert m'[k] in At(m', k);
    }
  }

  ghost predicate WorksFor(r: Rpc, g: string) {
    || (Checking(r) && !r.CreateStamping? && r.d.groupId == g)
    || (Taking(r) && r.d.groupId == g)
    || (Deleting(r) && r.group == g)
  }

  /** The step belongs to group g: an RPC that creates or deletes g, or a job of one of its snapshots. */
  ghost predicate StepFor(s: System, step: Step, g: string) {
    || (step.Serve? && step.id in s.rpcs && WorksFor(s.rpcs[step.id], g))
    || (OnJob(step) && step.key in s.store.jobs && SnapshotOf(g, s.store.jobs[step.key].spec.snapshotId))
  }

  ghost predicate Elsewhere(s: System, step: Step, h: string) {
    !StepFor(s, step, h)
  }

  /** The group of an RPC is not h, so neither are its snapshot and its job. */
  lemma ForeignNames(log: seq<Event>, id: nat, r: Rpc, h: string, k: string)
    requires !Ended(r) && Shape(log, id, r) && !WorksFor(r, h) && SnapshotOf(h, k)
    ensures Taking(r) ==> r.d.snapshotId != k && r.d.groupId != h
    ensures r.CleanupDropping? ==> r.snapshot != k
    ensures NextCall(r).CreateJob? ==>
      NextCall(r).job.name != SaveJobName(k) && NextCall(r).job.name != DeleteJobName(k)
  {
    if Taking(r) {
      if r.d.snapshotId == k {
        SnapshotOfOneGroup(r.d.groupId, h, k);
      }
      NamesNeverCollide(r.d.snapshotId, k);
    } else if r.CleanupCreating? || r.CleanupRunning? || r.CleanupDropping? {
      if r.snapshot == k {
        SnapshotOfOneGroup(r.group, h, k);
      }
      NamesNeverCollide(r.snapshot, k);
      NamesNeverCollide(k, r.snapshot);
    }
  }

  lemma ForeignRpc(log: seq<Event>, id: nat, r: Rpc, h: string)
    requires !Ended(r) && Shape(log, id, r) && !WorksFor(r, h)
    ensures Taking(r) ==> r.d.groupId != h && !SnapshotOf(h, r.d.snapshotId)
    ensures r.CleanupDropping? ==> !SnapshotOf(h, r.snapshot)
    ensures NextCall(r).CreateJob? ==> forall k :: SnapshotOf(h, k) ==>
      NextCall(r).job.name != SaveJobName(k) && NextCall(r).job.name != DeleteJobName(k)
  {
    forall k | SnapshotOf(h, k)
      ensures Taking(r) ==> r.d.snapshotId != k && r.d.groupId != h
      ensures r.CleanupDropping? ==> r.snapshot != k
      ensures NextCall(r).CreateJob? ==>
        NextCall(r).job.name != SaveJobName(k) && NextCall(r).job.name != DeleteJobName(k)
    {
      ForeignNames(log, id, r, h, k);
    }
  }

  /** A step of a foreign RPC, seen on the store alone. */
  lemma ForeignStep(store: Store, log: seq<Event>, id: nat, r: Rpc, reply: Reply, store': Store, h: string)
    requires !Ended(r) && Shape(log, id, r) && UpToDate(r, store) && Exec(store, NextCall(r), reply, store')
    requires !WorksFor(r, h)
    ensures SameSlice(h, store, store')
  {
    Footprint(store, log, id, r, reply, store');
    ForeignRpc(log, id, r, h);
  }

  lemma ServeLeavesOthers(s: System, id: nat, reply: Reply, s': System, h: string)
    requires Inv(s) && Serves(s, id, reply, s') && !WorksFor(s.rpcs[id], h)
    ensures SameSlice(h, s.store, s'.store)
  {
    assert Shape(s.log, id, s.rpcs[id]) && UpToDate(s.rpcs[id], s.store);
    ForeignStep(s.store, s.log, id, s.rpcs[id], reply, s'.store, h);
  }

  /** A job of another group has another name and another file. */
  lemma ForeignJob(log: seq<Event>, key: Key, job: Job, h: string)
    requires JobFits(log, key, job) && !SnapshotOf(h, job.spec.snapshotId)
    ensures forall k :: SnapshotOf(h, k) ==>
      job.spec.path != SnapshotPath(k) && key.name != SaveJobName(k) && key.name != DeleteJobName(k)
  {
    var spec := job.spec;
    forall k | SnapshotOf(h, k)
      ensures spec.path != SnapshotPath(k) && key.name != SaveJobName(k) && key.name != DeleteJobName(k)
    {
      NamesNeverCollide(spec.snapshotId, k);
      NamesNeverCollide(k, spec.snapshotId);
    }
  }

  lemma JobLeavesOthers(s: System, step: Step, s': System, h: string)
    requires JobActs(s, step, s') && Elsewhere(s, step, h) && JobFits(s.log, step.key, s.store.jobs[step.key])
    ensures SameSlice(h, s.store, s'.store)
  {
    ForeignJob(s.log, step.key, s.store.jobs[step.key], h);
  }

  lemma StepLeavesOthers(s: System, step: Step, s': System, h: string)
    requires Inv(s) && Next(s, step, s') && Elsewhere(s, step, h)
    ensures SliceOf(h, s.store) == SliceOf(h, s'.store)
  {
    if step.Serve? {
      ServeLeavesOthers(s, step.id, step.reply, s', h);
      SameSlicesAreEqual(h, s.store, s'.store);
    } else if OnJob(step) {
      assert JobFits(s.log, step.key, s.store.jobs[step.key]);
      JobLeavesOthers(s, step, s', h);
      SameSlicesAreEqual(h, s.store, s'.store);
    }
  }

  /** Nothing works on h from the i-th to the j-th state of the run. */
  ghost predicate Spared(run: seq<System>, steps: seq<Step>, i: nat, j: nat, h: string)
    requires |run| == |steps| + 1 && i <= j < |run|
  {
    forall k :: i <= k < j ==> Elsewhere(run[k], steps[k], h)
  }

  /** Over any stretch of any run: as long as nothing works on h, h keeps its
      records, files and jobs, whatever is created and deleted beside it. */
  lemma {:induction false} OthersStayUntouched(run: seq<System>, steps: seq<Step>, i: nat, j: nat, h: string)
    requires IsRun(run, steps) && i <= j < |run| && Spared(run, steps, i, j, h)
    ensures SliceOf(h, run[i].store) == SliceOf(h, run[j].store)
    decreases j - i
  {
    if i < j {
      OthersStayUntouched(run, steps, i, j - 1, h);
      RunKeepsInv(run, steps, j - 1);
      assert StepAt(run, steps, j - 1);
      StepLeavesOthers(run[j - 1], steps[j - 1], run[j - 1 + 1], h);
    }
  }

  /** All that a step of a Delete of g can do to the records: drop g's record, or
      drop one snapshot of g. */
  ghost predicate DropsAtMostItsOwn(r: Rpc, s: Store, s': Store)
    requires Deleting(r)
  {
    && CM.Contents(s'.groups) in {CM.Contents(s.groups), CM.Contents(s.groups) - {r.group}}
    && s'.files == s.files
    && (CM.Contents(s'.snapshots) == CM.Contents(s.snapshots)
        || (r.CleanupDropping? && SnapshotOf(r.group, r.snapshot)
            && CM.Contents(s'.snapshots) == CM.Contents(s.snapshots) - {r.snapshot}))
  }

  lemma DeleteDropsItsOwn(s: System, id: nat, reply: Reply, s': System)
    requires Inv(s) && Serves(s, id, reply, s') && Deleting(s.rpcs[id])
    ensures DropsAtMostItsOwn(s.rpcs[id], s.store, s'.store)
  {
    assert Shape(s.log, id, s.rpcs[id]) && UpToDate(s.rpcs[id], s.store);
    Footprint(s.store, s.log, id, s.rpcs[id], reply, s'.store);
  }

  /** In every run a step of a Delete of g leaves every other group alone, and of
      g's records drops at most its group record or one snapshot record. */
  lemma DeleteFootprint(run: seq<System>, steps: seq<Step>, i: nat)
    requires IsRun(run, steps) && i < |steps| && steps[i].Serve?
    requires steps[i].id in run[i].rpcs && Deleting(run[i].rpcs[steps[i].id])
    ensures var r := run[i].rpcs[steps[i].id];
      && DropsAtMostItsOwn(r, run[i].store, run[i + 1].store)
      && forall h :: h != r.group ==> SliceOf(h, run[i].store) == SliceOf(h, run[i + 1].store)
  {
    RunKeepsInv(run, steps, i);
    var s, s', id := run[i], run[i + 1], steps[i].id;
    assert StepAt(run, steps, i);
    DeleteDropsItsOwn(s, id, steps[i].reply, s');
    forall h | h != s.rpcs[id].group ensures SliceOf(h, s.store) == SliceOf(h, s'.store) {
      StepLeavesOthers(s, steps[i], s', h);
    }
  }
}
