/** The three group RPCs as programs that issue one call at a time. A state
    names the call in flight and the locals the handler holds; Advance is what
    the handler does between one reply and the next call. */
module Machine {
  import opened Identifiers
  import opened Api
  import opened VolumeIds
  import opened Wrappers
  import CM = ConfigMaps
  import Health

  const SNAPSHOT_CLAIM := "etcd-snapshots"

  /** The controller's configuration, as far as it decides anything below. */
  datatype Config = Config(clusterLabelKey: string, pvcSizeParses: bool)

  datatype ClusterInfo = ClusterInfo(name: string, namespace: string, endpoints: seq<string>)

  datatype ClaimProblem = ClaimMissing | ClaimNotBound | ClaimNotWritable

  datatype CreateError =
    | NameRequired
    | VolumesRequired
    | BadVolumeId(index: nat)
    | ClaimRejected(index: nat, problem: ClaimProblem)
    | DiscoveryFailed(index: nat)
    | ClusterUnhealthy(index: nat)
    | ClusterMismatch(index: nat)
    | EndpointsDiffer(index: nat)
    | StorageFailed
    | SaveFailed

  datatype CreateResponse = CreateResponse(
    groupId: string, snapshotId: string, sourceVolumeId: string,
    snapshotTime: nat, groupTime: nat, readyToUse: bool)

  datatype GetResponse = GetResponse(
    groupId: string, snapshotId: string, sourceVolumeId: string, creationTime: nat, readyToUse: bool)

  datatype GetError = IdRequired | GroupNotFound | IndexOutOfRange

  /** What a Create was asked for, and with which configuration. */
  datatype CreateRequest = CreateRequest(cfg: Config, name: string, ids: seq<string>)

  /* ----- the job executor ----- */

  datatype Verdict = Succeeded | Failed | TimedOut | NotCreated

  datatype ExecStage =
    | Creating(job: JobSpec, versioned: bool)
    | Awaiting(job: JobSpec)
    | Polling(job: JobSpec)
    | Finished(verdict: Verdict)

  /** A finished executor issues no call; the last case is never used. */
  function ExecCall(e: ExecStage): Call {
    match e
    case Creating(job, versioned) => CreateJob(job, versioned)
    case Awaiting(_) => Await
    case Polling(job) => PollJob(JobKey(job))
    case Finished(_) => Await
  }

  function ExecAdvance(e: ExecStage, r: Reply): ExecStage {
    match e
    case Creating(job, _) =>
      if r == Reply.Created || r == Failure(CM.AlreadyExists) then Awaiting(job) else Finished(NotCreated)
    case Awaiting(job) => if r.Tick? then Polling(job) else Finished(TimedOut)
    case Polling(job) =>
      if !r.JobIs? then Awaiting(job)
      else if r.succeeded > 0 then Finished(Succeeded)
      else if r.failed > 0 then Finished(Failed)
      else Awaiting(job)
    case Finished(_) => e
  }

  /* ----- the snapshot claim ----- */

  datatype ClaimStage = Looking | Making | Done(ok: bool)

  function NewClaim(): Claim {
    Claim("", ["ReadWriteOnce"], map["app" := "etcd-snapshot-driver"])
  }

  function ClaimCall(p: ClaimStage, namespace: string): Call {
    if p.Making? then CreateClaim(Key(namespace, SNAPSHOT_CLAIM), NewClaim())
    else GetClaim(Key(namespace, SNAPSHOT_CLAIM))
  }

  function ClaimAdvance(cfg: Config, p: ClaimStage, r: Reply): ClaimStage {
    match p
    case Looking =>
      if r.ClaimIs? then Done(true)
      else if r != Failure(CM.NotFound) then Done(false)
      else if cfg.pvcSizeParses then Making else Done(false)
    case Making => Done(r == Reply.Created || r == Failure(CM.AlreadyExists))
    case Done(_) => p
  }

  /* ----- checks on replies ----- */

  function ClaimVerdict(r: Reply): Option<ClaimProblem> {
    if !r.ClaimIs? then Some(ClaimMissing)
    else if r.claim.phase != "Bound" then Some(ClaimNotBound)
    else if "ReadWriteOnce" !in r.claim.accessModes && "ReadWriteMany" !in r.claim.accessModes
    then Some(ClaimNotWritable)
    else None
  }

  function Endpoint(pod: string, namespace: string): string {
    "https://" + pod + "." + namespace + ".svc.cluster.local:2379"
  }

  function Endpoints(pods: seq<string>, namespace: string): (endpoints: seq<string>)
    ensures |endpoints| == |pods|
  {
    if pods == [] then []
    else Endpoints(pods[..|pods| - 1], namespace) + [Endpoint(pods[|pods| - 1], namespace)]
  }

  ghost predicate HealthPasses(info: ClusterInfo, r: Reply) {
    r.Observed? && Health.Accepts(info.endpoints, r.observation)
  }

  predicate SameCluster(a: ClusterInfo, b: ClusterInfo) {
    a.name == b.name && |a.endpoints| == |b.endpoints|
  }

  /* ----- the RPCs ----- */

  /** What CreateVolumeGroupSnapshot has settled so far; later fields are filled
      in as the phases complete. */
  datatype Draft = Draft(
    cfg: Config, name: string, ids: seq<string>, volumes: seq<Volume>,
    stamp: nat, groupId: string, cluster: ClusterInfo, snapshotId: string)
  {
    function Request(): CreateRequest {
      CreateRequest(cfg, name, ids)
    }

    function Namespace(): string {
      VolumeAt(0).namespace
    }

    function VolumeAt(i: nat): Volume {
      if i < |volumes| then volumes[i] else Volume("", "")
    }

    function FirstId(): string {
      if |ids| > 0 then ids[0] else ""
    }

    function Job(): JobSpec {
      SaveJob(Namespace(), snapshotId, SNAPSHOT_CLAIM)
    }
  }

  function VolumeKey(v: Volume): Key {
    Key(v.namespace, v.name)
  }

  /** Where the claim is that holds the snapshot of the draft. */
  function SnapshotClaimKey(d: Draft): Key {
    Key(d.Namespace(), SNAPSHOT_CLAIM)
  }

  datatype Rpc =
    // CreateVolumeGroupSnapshot
    | CreateStamping(cfg: Config, name: string, ids: seq<string>)
    | Validating(d: Draft, i: nat)
    | ReadingClaim(d: Draft, i: nat)
    | ListingPods(d: Draft, i: nat, cluster: string)
    | CheckingHealth(d: Draft, i: nat, info: ClusterInfo)
    | Provisioning(d: Draft, claim: ClaimStage)
    | StampingSnapshot(d: Draft)
    | Saving(d: Draft, exec: ExecStage)
    | StampingRecord(d: Draft)
    | StoringSnapshot(d: Draft, snapshotProc: CM.Proc<SnapshotRecord>)
    | StampingGroup(d: Draft)
    | StoringGroup(d: Draft, groupProc: CM.Proc<GroupRecord>)
    | StampingReply(d: Draft)
    | StampingGroupReply(d: Draft, snapshotTime: nat)
    | CreateDone(created: Result<CreateResponse, CreateError>)
    // DeleteVolumeGroupSnapshot
    | DeleteFinding(group: string)
    | CleanupFinding(group: string, snapshot: string)
    | CleanupCreating(group: string, snapshot: string, job: JobSpec)
    | CleanupRunning(group: string, snapshot: string, exec: ExecStage)
    | CleanupDropping(group: string, snapshot: string, snapshotProc: CM.Proc<SnapshotRecord>)
    | DroppingGroup(group: string, groupProc: CM.Proc<GroupRecord>)
    | DeleteDone(deleted: bool)
    // GetVolumeGroupSnapshot
    | GetFinding(group: string)
    | GetDetailing(group: string, record: GroupRecord)
    | GetDone(got: Result<GetResponse, GetError>)

  predicate Ended(r: Rpc) {
    r.CreateDone? || r.DeleteDone? || r.GetDone?
  }

  function BeginCreate(cfg: Config, name: string, ids: seq<string>): Rpc {
    CreateStamping(cfg, name, ids)
  }

  /** deleted is false for the one error a Delete returns, a missing ID. */
  function BeginDelete(group: string): Rpc {
    if group == "" then DeleteDone(false) else DeleteFinding(group)
  }

  function BeginGet(group: string): Rpc {
    if group == "" then GetDone(Err(IdRequired)) else GetFinding(group)
  }

  function CreateFails(e: CreateError): Rpc {
    CreateDone(Err(e))
  }

  /** The volumes of the leading IDs that parse. */
  function ParseAll(ids: seq<string>): (volumes: seq<Volume>)
    ensures |volumes| <= |ids|
    ensures forall k :: 0 <= k < |volumes| ==> Parse(ids[k]) == Some(volumes[k])
    ensures |volumes| < |ids| ==> Parse(ids[|volumes|]).None?
  {
    if ids == [] then []
    else
      var n := |ids| - 1;
      var front := ParseAll(ids[..n]);
      if |front| < n || Parse(ids[n]).None? then front else front + [Parse(ids[n]).value]
  }

  const NO_CLUSTER := ClusterInfo("", "", [])

  function NewDraft(cfg: Config, name: string, ids: seq<string>, now: nat): Draft {
    Draft(cfg, name, ids, ParseAll(ids), Unix(now), GroupId(name, Unix(now)), NO_CLUSTER, "")
  }

  /** Phases 1 and 2 make no call. */
  function AfterStamp(cfg: Config, name: string, ids: seq<string>, now: nat): Rpc {
    if name == "" then CreateFails(NameRequired)
    else if |ids| == 0 then CreateFails(VolumesRequired)
    else if |ParseAll(ids)| < |ids| then CreateFails(BadVolumeId(|ParseAll(ids)|))
    else Validating(NewDraft(cfg, name, ids, now), 0)
  }

  /** Where the claim checks stand once the first i volumes have passed. */
  function ClaimTurn(d: Draft, i: nat): Rpc {
    if i < |d.volumes| then Validating(d, i) else ReadingClaim(d, 0)
  }

  /** Where discovery stands once the first i volumes have passed. */
  function ClusterTurn(d: Draft, i: nat): Rpc {
    if i < |d.volumes| then ReadingClaim(d, i) else Provisioning(d, Looking)
  }

  function AfterValidation(d: Draft, i: nat, r: Reply): Rpc {
    match ClaimVerdict(r)
    case Some(problem) => CreateFails(ClaimRejected(i, problem))
    case None => ClaimTurn(d, i + 1)
  }

  function AfterClaim(d: Draft, i: nat, r: Reply): Rpc {
    if r.ClaimIs? && d.cfg.clusterLabelKey in r.claim.labels
    then ListingPods(d, i, r.claim.labels[d.cfg.clusterLabelKey])
    else CreateFails(DiscoveryFailed(i))
  }

  function AfterPods(d: Draft, i: nat, cluster: string, r: Reply): Rpc {
    var namespace := d.VolumeAt(i).namespace;
    if r.PodsAre? && |r.names| > 0
    then CheckingHealth(d, i, ClusterInfo(cluster, namespace, Endpoints(r.names, namespace)))
    else CreateFails(DiscoveryFailed(i))
  }

  ghost function AfterHealth(d: Draft, i: nat, info: ClusterInfo, r: Reply): Rpc {
    if !HealthPasses(info, r) then CreateFails(ClusterUnhealthy(i))
    else if i > 0 && info.name != d.cluster.name then CreateFails(ClusterMismatch(i))
    else if i > 0 && |info.endpoints| != |d.cluster.endpoints| then CreateFails(EndpointsDiffer(i))
    else ClusterTurn(if i == 0 then d.(cluster := info) else d, i + 1)
  }

  function WithClaim(d: Draft, p: ClaimStage): Rpc {
    match p
    case Done(ok) => if ok then StampingSnapshot(d) else CreateFails(StorageFailed)
    case _ => Provisioning(d, p)
  }

  function AfterSnapshotStamp(d: Draft, now: nat): Rpc {
    var d' := d.(snapshotId := Stamped(d.groupId, Unix(now)));
    Saving(d', Creating(d'.Job(), false))
  }

  function SnapshotRecordOf(d: Draft, now: nat): SnapshotRecord {
    SnapshotRecord(d.snapshotId, d.FirstId(), d.cluster.name, now, true, SNAPSHOT_CLAIM, d.Namespace())
  }

  function GroupRecordOf(d: Draft, now: nat): GroupRecord {
    GroupRecord(d.groupId, d.snapshotId, d.ids, d.cluster.name, SNAPSHOT_CLAIM, d.Namespace(), now, true)
  }

  function ResponseOf(d: Draft, snapshotTime: nat, groupTime: nat): CreateResponse {
    CreateResponse(d.groupId, d.snapshotId, d.FirstId(), snapshotTime, groupTime, true)
  }

  /** Puts an executor stage into the RPC that runs it; a finished executor
      hands control back to the handler. */
  function WithExec(r: Rpc, e: ExecStage): Rpc
    requires r.Saving? || r.CleanupRunning?
  {
    match e
    case Finished(v) =>
      (match r
       case Saving(d, _) => if v.Succeeded? then StampingRecord(d) else CreateFails(SaveFailed)
       case CleanupRunning(group, snapshot, _) =>
         if v.Succeeded? then CleanupDropping(group, snapshot, CM.Begin(CM.Drop(snapshot)))
         else DropGroup(group))
    case _ => r.(exec := e)
  }

  function DropGroup(group: string): Rpc {
    DroppingGroup(group, CM.Begin(CM.Drop(group)))
  }

  /** Metadata failures are logged and the handlers carry on. */
  function WithSnapshotProc(r: Rpc, p: CM.Proc<SnapshotRecord>): Rpc
    requires r.StoringSnapshot? || r.CleanupDropping?
  {
    if !p.stage.Ended? then r.(snapshotProc := p)
    else if r.StoringSnapshot? then StampingGroup(r.d)
    else DropGroup(r.group)
  }

  function WithGroupProc(r: Rpc, p: CM.Proc<GroupRecord>): Rpc
    requires r.StoringGroup? || r.DroppingGroup?
  {
    if !p.stage.Ended? then r.(groupProc := p)
    else if r.StoringGroup? then StampingReply(r.d)
    else DeleteDone(true)
  }

  /** The outcome of looking one group record up. */
  function FoundGroup(group: string, r: Reply): Option<GroupRecord> {
    if r.Groups? && r.groupReply.Object? && group in r.groupReply.data
    then Some(r.groupReply.data[group]) else None
  }

  function FoundSnapshot(snapshot: string, r: Reply): Option<SnapshotRecord> {
    if r.Snapshots? && r.snapshotReply.Object? && snapshot in r.snapshotReply.data
    then Some(r.snapshotReply.data[snapshot]) else None
  }

  function AfterDetail(group: string, record: GroupRecord, r: Reply): Rpc {
    var time := match FoundSnapshot(record.snapshotId, r)
                case Some(snapshot) => snapshot.creationTime
                case None => record.creationTime;
    if |record.sourceVolumeIds| == 0 then GetDone(Err(IndexOutOfRange))
    else GetDone(Ok(GetResponse(group, record.snapshotId, record.sourceVolumeIds[0], time, record.readyToUse)))
  }

  function SnapshotReplyOf(r: Reply): CM.Reply<SnapshotRecord> {
    if r.Snapshots? then r.snapshotReply else CM.Error(CM.Other)
  }

  function GroupReplyOf(r: Reply): CM.Reply<GroupRecord> {
    if r.Groups? then r.groupReply else CM.Error(CM.Other)
  }

  function TimeOf(r: Reply): nat {
    if r.Time? then r.now else 0
  }

  /** Create up to the moment its snapshot has an ID. */
  predicate Checking(r: Rpc) {
    || r.CreateStamping? || r.Validating? || r.ReadingClaim? || r.ListingPods? || r.CheckingHealth?
    || r.Provisioning? || r.StampingSnapshot?
  }

  /** Create from that moment on. */
  predicate Taking(r: Rpc) {
    || r.Saving? || r.StampingRecord? || r.StoringSnapshot? || r.StampingGroup? || r.StoringGroup?
    || r.StampingReply? || r.StampingGroupReply?
  }

  predicate Deleting(r: Rpc) {
    || r.DeleteFinding? || r.CleanupFinding? || r.CleanupCreating? || r.CleanupRunning?
    || r.CleanupDropping? || r.DroppingGroup?
  }

  function NextCall(r: Rpc): Call
    requires !Ended(r)
  {
    if Checking(r) then CheckingCall(r)
    else if Taking(r) then TakingCall(r)
    else if Deleting(r) then DeletingCall(r)
    else if r.GetFinding? then OnGroups(CM.Get)
    else OnSnapshots(CM.Get)
  }

  function CheckingCall(r: Rpc): Call
    requires Checking(r)
  {
    match r
    case CreateStamping(_, _, _) => Now
    case Validating(d, i) => GetClaim(VolumeKey(d.VolumeAt(i)))
    case ReadingClaim(d, i) => GetClaim(VolumeKey(d.VolumeAt(i)))
    case ListingPods(d, i, cluster) => ListPods(d.VolumeAt(i).namespace, d.cfg.clusterLabelKey, cluster)
    case CheckingHealth(_, _, info) => CheckHealth(info.endpoints)
    case Provisioning(d, p) => ClaimCall(p, d.Namespace())
    case StampingSnapshot(_) => Now
  }

  function TakingCall(r: Rpc): Call
    requires Taking(r)
  {
    match r
    case Saving(_, e) => ExecCall(e)
    case StoringSnapshot(_, p) => OnSnapshots(CM.NextCall(p))
    case StoringGroup(_, p) => OnGroups(CM.NextCall(p))
    case _ => Now
  }

  function DeletingCall(r: Rpc): Call
    requires Deleting(r)
  {
    match r
    case DeleteFinding(_) => OnGroups(CM.Get)
    case CleanupFinding(_, _) => OnSnapshots(CM.Get)
    case CleanupCreating(_, _, job) => CreateJob(job, false)
    case CleanupRunning(_, _, e) => ExecCall(e)
    case CleanupDropping(_, _, p) => OnSnapshots(CM.NextCall(p))
    case DroppingGroup(_, p) => OnGroups(CM.NextCall(p))
  }

  ghost function Advance(r: Rpc, reply: Reply): Rpc
    requires !Ended(r)
  {
    if Checking(r) then CheckingNext(r, reply)
    else if Taking(r) then TakingNext(r, reply)
    else if Deleting(r) then DeletingNext(r, reply)
    else GettingNext(r, reply)
  }

  ghost function CheckingNext(r: Rpc, reply: Reply): Rpc
    requires Checking(r)
  {
    match r
    case CreateStamping(cfg, name, ids) => AfterStamp(cfg, name, ids, TimeOf(reply))
    case Validating(d, i) => AfterValidation(d, i, reply)
    case ReadingClaim(d, i) => AfterClaim(d, i, reply)
    case ListingPods(d, i, cluster) => AfterPods(d, i, cluster, reply)
    case CheckingHealth(d, i, info) => AfterHealth(d, i, info, reply)
    case Provisioning(d, p) => WithClaim(d, ClaimAdvance(d.cfg, p, reply))
    case StampingSnapshot(d) => AfterSnapshotStamp(d, TimeOf(reply))
  }

  function TakingNext(r: Rpc, reply: Reply): Rpc
    requires Taking(r)
  {
    match r
    case Saving(_, e) => WithExec(r, ExecAdvance(e, reply))
    case StampingRecord(d) =>
      StoringSnapshot(d, CM.Begin(CM.Store(d.snapshotId, SnapshotRecordOf(d, TimeOf(reply)))))
    case StoringSnapshot(_, p) => WithSnapshotProc(r, CM.Advance(p, SnapshotReplyOf(reply)))
    case StampingGroup(d) =>
      StoringGroup(d, CM.Begin(CM.Store(d.groupId, GroupRecordOf(d, TimeOf(reply)))))
    case StoringGroup(_, p) => WithGroupProc(r, CM.Advance(p, GroupReplyOf(reply)))
    case StampingReply(d) => StampingGroupReply(d, TimeOf(reply))
    case StampingGroupReply(d, time) => CreateDone(Ok(ResponseOf(d, time, TimeOf(reply))))
  }

  function DeletingNext(r: Rpc, reply: Reply): Rpc
    requires Deleting(r)
  {
    match r
    case DeleteFinding(group) =>
      (match FoundGroup(group, reply)
       case Some(record) => CleanupFinding(group, record.snapshotId)
       case None => DeleteDone(true))
    case CleanupFinding(group, snapshot) =>
      (match FoundSnapshot(snapshot, reply)
       case Some(record) => CleanupCreating(group, snapshot, DeleteJob(record.namespace, snapshot, record.pvcName))
       case None => DropGroup(group))
    case CleanupCreating(group, snapshot, job) =>
      if reply == Reply.Created then CleanupRunning(group, snapshot, Creating(job, true)) else DropGroup(group)
    case CleanupRunning(_, _, e) => WithExec(r, ExecAdvance(e, reply))
    case CleanupDropping(_, _, p) => WithSnapshotProc(r, CM.Advance(p, SnapshotReplyOf(reply)))
    case DroppingGroup(_, p) => WithGroupProc(r, CM.Advance(p, GroupReplyOf(reply)))
  }

  function GettingNext(r: Rpc, reply: Reply): Rpc
    requires r.GetFinding? || r.GetDetailing?
  {
    match r
    case GetFinding(group) =>
      (match FoundGroup(group, reply)
       case Some(record) => GetDetailing(group, record)
       case None => GetDone(Err(GroupNotFound)))
    case GetDetailing(group, record) => AfterDetail(group, record, reply)
  }
}
