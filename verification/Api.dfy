/** The Kubernetes API store the driver shares with everybody else, the calls
    the driver makes on it, and what one call does. */
module Api {
  import opened Identifiers
  import CM = ConfigMaps
  import Health

  /* ----- stored objects ----- */

  datatype Key = Key(namespace: string, name: string)

  datatype Claim = Claim(phase: string, accessModes: seq<string>, labels: map<string, string>)

  datatype SnapshotRecord = SnapshotRecord(
    snapshotId: string, sourceVolumeId: string, clusterName: string, creationTime: nat,
    readyToUse: bool, pvcName: string, namespace: string)

  datatype GroupRecord = GroupRecord(
    groupSnapshotId: string, snapshotId: string, sourceVolumeIds: seq<string>, clusterName: string,
    snapshotPVCName: string, snapshotPVCNamespace: string, creationTime: nat, readyToUse: bool)

  datatype Operation = Save | Delete

  /** What matters of a job manifest: where it runs, its name, the claim it
      mounts at /snapshots and the file its command saves or removes. */
  datatype JobSpec = JobSpec(
    namespace: string, name: string, operation: Operation, snapshotId: string, claim: string, path: string)

  /** ran: the pod of the job has performed the job's effect at least once. */
  datatype Job = Job(spec: JobSpec, ran: bool, succeeded: nat, failed: nat)

  datatype File = File(namespace: string, claim: string, path: string)

  datatype Store = Store(
    snapshots: CM.ConfigMap<SnapshotRecord>,
    groups: CM.ConfigMap<GroupRecord>,
    jobs: map<Key, Job>,
    claims: map<Key, Claim>,
    files: set<File>,
    clock: nat)

  function SaveJob(namespace: string, snapshotId: string, claim: string): JobSpec {
    JobSpec(namespace, SaveJobName(snapshotId), Save, snapshotId, claim, SnapshotPath(snapshotId))
  }

  function DeleteJob(namespace: string, snapshotId: string, claim: string): JobSpec {
    JobSpec(namespace, DeleteJobName(snapshotId), Delete, snapshotId, claim, SnapshotPath(snapshotId))
  }

  function JobKey(j: JobSpec): Key {
    Key(j.namespace, j.name)
  }

  function FileOf(j: JobSpec): File {
    File(j.namespace, j.claim, j.path)
  }

  /* ----- calls ----- */

  datatype Call =
    | Now
    | GetClaim(key: Key)
    | CreateClaim(key: Key, claim: Claim)
    | ListPods(namespace: string, labelKey: string, labelValue: string)
    | CheckHealth(endpoints: seq<string>)
    | CreateJob(job: JobSpec, versioned: bool)
    | Await
    | PollJob(key: Key)
    | OnSnapshots(snapshotCall: CM.Call<SnapshotRecord>)
    | OnGroups(groupCall: CM.Call<GroupRecord>)

  datatype Reply =
    | Time(now: nat)
    | ClaimIs(claim: Claim)
    | PodsAre(names: seq<string>)
    | Observed(observation: Health.Observation)
    | Created
    | JobIs(succeeded: nat, failed: nat)
    | Tick
    | Deadline
    | Snapshots(snapshotReply: CM.Reply<SnapshotRecord>)
    | Groups(groupReply: CM.Reply<GroupRecord>)
    | Failure(fault: CM.Fault)

  /** The call was processed. Pods and etcd members are not part of the store,
      so any pod list and any observation may come back. A job object that
      already carries a resource version may be rejected instead of created. */
  ghost predicate Processed(s: Store, c: Call, r: Reply, s': Store) {
    match c
    case Now => r == Time(s.clock) && s' == s
    case GetClaim(k) =>
      s' == s && r == if k in s.claims then ClaimIs(s.claims[k]) else Failure(CM.NotFound)
    case CreateClaim(k, claim) =>
      if k in s.claims then s' == s && r == Failure(CM.AlreadyExists)
      else s' == s.(claims := s.claims[k := claim]) && r == Created
    case ListPods(_, _, _) => s' == s && r.PodsAre?
    case CheckHealth(_) => s' == s && r.Observed?
    case CreateJob(job, versioned) =>
      || (versioned && s' == s && r == Failure(CM.Other))
      || if JobKey(job) in s.jobs then s' == s && r == Failure(CM.AlreadyExists)
         else s' == s.(jobs := s.jobs[JobKey(job) := Job(job, false, 0, 0)]) && r == Created
    case Await => s' == s && (r == Tick || r == Deadline)
    case PollJob(k) =>
      s' == s && r == if k in s.jobs then JobIs(s.jobs[k].succeeded, s.jobs[k].failed) else Failure(CM.NotFound)
    case OnSnapshots(call) =>
      && s' == s.(snapshots := CM.Serve(s.snapshots, call).0)
      && r == Snapshots(CM.Serve(s.snapshots, call).1)
    case OnGroups(call) =>
      && s' == s.(groups := CM.Serve(s.groups, call).0)
      && r == Groups(CM.Serve(s.groups, call).1)
  }

  /** The call failed; a failed call has no effect. Reading the clock and
      waiting for the timer cannot fail. */
  ghost predicate Faulted(s: Store, c: Call, r: Reply, s': Store) {
    && s' == s
    && !c.Now? && !c.Await?
    && r == match c
            case OnSnapshots(_) => Snapshots(CM.Error(CM.Other))
            case OnGroups(_) => Groups(CM.Error(CM.Other))
            case _ => Failure(CM.Other)
  }

  ghost predicate Exec(s: Store, c: Call, r: Reply, s': Store) {
    Processed(s, c, r, s') || Faulted(s, c, r, s')
  }

  /** A call on one ConfigMap is an Exec of that ConfigMap and leaves the rest alone. */
  lemma ConfigMapCall(s: Store, c: Call, r: Reply, s': Store)
    requires Exec(s, c, r, s')
    ensures c.OnSnapshots? ==>
      && r.Snapshots? && CM.Exec(s.snapshots, c.snapshotCall, r.snapshotReply, s'.snapshots)
      && s' == s.(snapshots := s'.snapshots)
    ensures c.OnGroups? ==>
      && r.Groups? && CM.Exec(s.groups, c.groupCall, r.groupReply, s'.groups)
      && s' == s.(groups := s'.groups)
    ensures !c.OnSnapshots? ==> s'.snapshots == s.snapshots
    ensures !c.OnGroups? ==> s'.groups == s.groups
    ensures s'.files == s.files && s'.clock == s.clock
  {
  }
}
