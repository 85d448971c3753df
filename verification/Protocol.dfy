/** Any number of group RPCs in flight over one API store. Every API call is
    one atomic step; between them the clock, the claims and the jobs move. */
module Protocol {
  import opened Identifiers
  import opened Api
  import opened VolumeIds
  import opened Machine
  import opened Wrappers
  import CM = ConfigMaps
  import Health

  /** What the log remembers; the code has no such log, it only serves to say
      what happened before what. */
  datatype Event =
    | GroupStamped(rpc: nat, request: CreateRequest, time: nat)
    | LabelRead(rpc: nat, index: nat, claim: Key, labelKey: string, cluster: string)
    | PodsListed(rpc: nat, index: nat, namespace: string, labelKey: string, cluster: string, names: seq<string>)
    | HealthAccepted(rpc: nat, index: nat, info: ClusterInfo, observation: Health.Observation)
    | ClaimCreated(rpc: nat, key: Key)
    | JobCreated(rpc: nat, key: Key)
    | SaveSeen(rpc: nat, job: JobSpec)
    | SnapshotStored(rpc: nat, record: SnapshotRecord)
    | GroupStored(rpc: nat, group: GroupRecord)
    | Responded(rpc: nat, response: CreateResponse)
    | DeleteSeen(rpc: nat, job: JobSpec)
    | SnapshotDropped(rpc: nat, snapshot: string)
    | GroupDropped(rpc: nat, groupId: string)
    | JobRan(key: Key)
    | JobExpired(key: Key)

  datatype System = System(store: Store, rpcs: map<nat, Rpc>, log: seq<Event>)

  datatype Step =
    | Arrive(id: nat, rpc: Rpc)
    | Serve(id: nat, reply: Reply)
    | Clock(now: nat)
    | Claims(claims: map<Key, Claim>)
    | Run(key: Key)
    | Succeed(key: Key)
    | Fail(key: Key)
    | Expire(key: Key)

  ghost predicate Init(s: System) {
    && CM.Contents(s.store.snapshots) == map[] && CM.Contents(s.store.groups) == map[]
    && s.store.jobs == map[] && s.store.files == {}
    && s.rpcs == map[] && s.log == []
  }

  ghost predicate IsBegin(r: Rpc) {
    || r.CreateStamping?
    || (exists g :: r == BeginDelete(g))
    || (exists g :: r == BeginGet(g))
  }

  /** The event that a reply to an RPC's call stands for, if any. */
  ghost function EventOf(id: nat, r: Rpc, reply: Reply): seq<Event>
    requires !Ended(r)
  {
    var r' := Advance(r, reply);
    if NextCall(r).CreateJob? then
      if reply == Reply.Created then [JobCreated(id, JobKey(NextCall(r).job))] else []
    else match r
      case CreateStamping(cfg, name, ids) =>
        if r'.Validating? then [GroupStamped(id, CreateRequest(cfg, name, ids), Unix(TimeOf(reply)))] else []
      case ReadingClaim(d, i) =>
        if r'.ListingPods? then [LabelRead(id, i, VolumeKey(d.VolumeAt(i)), d.cfg.clusterLabelKey, r'.cluster)] else []
      case ListingPods(d, i, cluster) =>
        if r'.CheckingHealth? && reply.PodsAre?
        then [PodsListed(id, i, d.VolumeAt(i).namespace, d.cfg.clusterLabelKey, cluster, reply.names)] else []
      case CheckingHealth(_, i, info) =>
        if !Ended(r') && reply.Observed? then [HealthAccepted(id, i, info, reply.observation)] else []
      case Provisioning(d, claim) =>
        if claim.Making? && reply == Reply.Created then [ClaimCreated(id, SnapshotClaimKey(d))] else []
      case Saving(d, _) => if r'.StampingRecord? then [SaveSeen(id, d.Job())] else []
      case StoringSnapshot(_, p) =>
        if reply == Snapshots(CM.Written) && p.req.Store? then [SnapshotStored(id, p.req.record)] else []
      case StoringGroup(_, p) =>
        if reply == Groups(CM.Written) && p.req.Store? then [GroupStored(id, p.req.record)] else []
      case StampingGroupReply(d, time) => [Responded(id, ResponseOf(d, time, TimeOf(reply)))]
      case CleanupRunning(_, _, e) => if e.Polling? && r'.CleanupDropping? then [DeleteSeen(id, e.job)] else []
      case CleanupDropping(_, snapshot, _) =>
        if reply == Snapshots(CM.Written) then [SnapshotDropped(id, snapshot)] else []
      case DroppingGroup(group, _) => if reply == Groups(CM.Written) then [GroupDropped(id, group)] else []
      case _ => []
  }

  /** A save job's command writes its file, a delete job's removes it. */
  function Effect(spec: JobSpec, files: set<File>): set<File> {
    if spec.operation.Save? then files + {FileOf(spec)} else files - {FileOf(spec)}
  }

  ghost predicate Serves(s: System, id: nat, reply: Reply, s': System) {
    && id in s.rpcs && !Ended(s.rpcs[id])
    && Exec(s.store, NextCall(s.rpcs[id]), reply, s'.store)
    && s'.rpcs == s.rpcs[id := Advance(s.rpcs[id], reply)]
    && s'.log == s.log + EventOf(id, s.rpcs[id], reply)
  }

  ghost predicate Next(s: System, step: Step, s': System) {
    if step.Serve? then Serves(s, step.id, step.reply, s')
    else if OnJob(step) then JobActs(s, step, s')
    else Idles(s, step, s')
  }

  /** An arrival, or a move of the clock or of the claims. */
  ghost predicate Idles(s: System, step: Step, s': System) {
    match step
    case Arrive(id, rpc) => id !in s.rpcs && IsBegin(rpc) && s' == s.(rpcs := s.rpcs[id := rpc])
    case Clock(now) => now >= s.store.clock && s' == s.(store := s.store.(clock := now))
    case Claims(claims) => s' == s.(store := s.store.(claims := claims))
    case _ => false
  }

  predicate OnJob(step: Step) {
    step.Run? || step.Succeed? || step.Fail? || step.Expire?
  }

  /** A job runs any number of times before it has succeeded, succeeds only after
      a run, and may expire at any time. */
  predicate MayMove(step: Step, job: Job) {
    match step
    case Run(_) => job.succeeded == 0
    case Succeed(_) => job.succeeded == 0 && job.ran
    case Fail(_) => job.succeeded == 0
    case _ => true
  }

  function Moved(step: Step, job: Job): Job {
    match step
    case Run(_) => job.(ran := true)
    case Succeed(_) => job.(succeeded := 1)
    case Fail(_) => job.(failed := job.failed + 1)
    case _ => job
  }

  function JobEvents(step: Step): seq<Event> {
    match step
    case Run(key) => [JobRan(key)]
    case Expire(key) => [JobExpired(key)]
    case _ => []
  }

  /** A step of one job: it touches the job's own entry and, on a run, its file. */
  ghost predicate JobActs(s: System, step: Step, s': System) {
    && OnJob(step) && step.key in s.store.jobs
    && var job := s.store.jobs[step.key];
    && MayMove(step, job)
    && s' == System(
         s.store.(
           jobs := if step.Expire? then s.store.jobs - {step.key} else s.store.jobs[step.key := Moved(step, job)],
           files := if step.Run? then Effect(job.spec, s.store.files) else s.store.files),
         s.rpcs, s.log + JobEvents(step))
  }

  ghost predicate IsRun(run: seq<System>, steps: seq<Step>) {
    && |run| == |steps| + 1 && Init(run[0])
    && forall k: nat :: k < |steps| ==> StepAt(run, steps, k)
  }

  /** The k-th step takes the k-th state to the one after it. */
  ghost predicate StepAt(run: seq<System>, steps: seq<Step>, k: nat)
    requires k < |steps| < |run|
  {
    Next(run[k], steps[k], run[k + 1])
  }

  /* ----- who may know what ----- */

  ghost predicate Known(log: seq<Event>, g: string) {
    exists id, q, t :: GroupStamped(id, q, t) in log && g == GroupId(q.name, t)
  }

  ghost predicate KnownSnapshot(log: seq<Event>, s: string) {
    exists g :: Known(log, g) && SnapshotOf(g, s)
  }

  /** The volumes of the draft are those that its source volume IDs name. */
  ghost predicate VolumesParse(d: Draft) {
    && |d.volumes| == |d.ids|
    && forall k :: 0 <= k < |d.ids| ==> Parse(d.ids[k]) == Some(d.volumes[k])
  }

  ghost predicate DraftFits(log: seq<Event>, id: nat, d: Draft) {
    && d.ids != [] && VolumesParse(d)
    && GroupStamped(id, d.Request(), d.stamp) in log && d.groupId == GroupId(d.name, d.stamp)
  }

  ghost predicate Named(log: seq<Event>, id: nat, d: Draft) {
    DraftFits(log, id, d) && SnapshotOf(d.groupId, d.snapshotId)
  }

  /** The job an executor works on. */
  ghost predicate WorksOn(e: ExecStage, job: JobSpec) {
    e.Finished? || e.job == job
  }

  ghost predicate Cleans(log: seq<Event>, group: string, snapshot: string) {
    SnapshotOf(group, snapshot) && KnownSnapshot(log, snapshot)
  }

  ghost predicate IsCleanup(job: JobSpec, snapshot: string) {
    job == DeleteJob(job.namespace, snapshot, SNAPSHOT_CLAIM)
  }

  /** What the locals of an RPC say at each of its calls. */
  ghost predicate Shape(log: seq<Event>, id: nat, r: Rpc) {
    match r
    case CreateStamping(_, _, _) => true
    case Validating(d, i) => DraftFits(log, id, d) && i < |d.volumes|
    case ReadingClaim(d, i) => DraftFits(log, id, d) && i < |d.volumes|
    case ListingPods(d, i, _) => DraftFits(log, id, d) && i < |d.volumes|
    case CheckingHealth(d, i, _) => DraftFits(log, id, d) && i < |d.volumes|
    case Provisioning(d, p) => DraftFits(log, id, d) && !p.Done?
    case StampingSnapshot(d) => DraftFits(log, id, d)
    case Saving(d, e) => Named(log, id, d) && WorksOn(e, d.Job()) && !e.Finished?
    case StampingRecord(d) => Named(log, id, d)
    case StoringSnapshot(d, p) =>
      && Named(log, id, d) && CM.WellFormed(p) && !p.stage.Ended?
      && p.req.Store? && p.req.key == d.snapshotId && p.req.record == SnapshotRecordOf(d, p.req.record.creationTime)
    case StampingGroup(d) => Named(log, id, d)
    case StoringGroup(d, p) =>
      && Named(log, id, d) && CM.WellFormed(p) && !p.stage.Ended?
      && p.req.Store? && p.req.key == d.groupId && p.req.record == GroupRecordOf(d, p.req.record.creationTime)
    case StampingReply(d) => Named(log, id, d)
    case StampingGroupReply(d, _) => Named(log, id, d)
    case CreateDone(_) => true
    case DeleteFinding(_) => true
    case CleanupFinding(group, snapshot) => Cleans(log, group, snapshot)
    case CleanupCreating(group, snapshot, job) => Cleans(log, group, snapshot) && IsCleanup(job, snapshot)
    case CleanupRunning(group, snapshot, e) =>
      Cleans(log, group, snapshot) && !e.Finished? && IsCleanup(e.job, snapshot)
    case CleanupDropping(group, snapshot, p) =>
      Cleans(log, group, snapshot) && CM.WellFormed(p) && !p.stage.Ended? && p.req == CM.Drop(snapshot)
    case DroppingGroup(group, p) => CM.WellFormed(p) && !p.stage.Ended? && p.req == CM.Drop(group)
    case DeleteDone(_) => true
    case GetFinding(_) => true
    case GetDetailing(_, record) => record.sourceVolumeIds != []
    case GetDone(got) => got != Err(IndexOutOfRange)
  }

  ghost predicate GroupFits(log: seq<Event>, g: string, record: GroupRecord) {
    && record.groupSnapshotId == g && Known(log, g) && SnapshotOf(g, record.snapshotId)
    && record.sourceVolumeIds != [] && record.readyToUse && record.snapshotPVCName == SNAPSHOT_CLAIM
  }

  ghost predicate SnapshotFits(log: seq<Event>, k: string, record: SnapshotRecord) {
    && record.snapshotId == k && KnownSnapshot(log, k)
    && record.pvcName == SNAPSHOT_CLAIM && record.readyToUse
  }

  ghost predicate JobFits(log: seq<Event>, key: Key, job: Job) {
    && var spec := job.spec;
    && key == JobKey(spec) && KnownSnapshot(log, spec.snapshotId)
    && (spec == SaveJob(spec.namespace, spec.snapshotId, SNAPSHOT_CLAIM) || IsCleanup(spec, spec.snapshotId))
    && (job.succeeded > 0 ==> job.ran)
  }

  ghost predicate FileFits(log: seq<Event>, f: File) {
    exists s :: KnownSnapshot(log, s) && f.path == SnapshotPath(s)
  }

  /** Updates in flight have read what is there or something older. */
  ghost predicate UpToDate(r: Rpc, store: Store) {
    && (r.StoringSnapshot? || r.CleanupDropping? ==> CM.Faithful(r.snapshotProc, store.snapshots))
    && (r.StoringGroup? || r.DroppingGroup? ==> CM.Faithful(r.groupProc, store.groups))
  }

  ghost predicate RpcsFit(s: System) {
    forall id <- s.rpcs :: Shape(s.log, id, s.rpcs[id]) && UpToDate(s.rpcs[id], s.store)
  }

  ghost predicate StoreFits(log: seq<Event>, store: Store) {
    && (forall g <- CM.Contents(store.groups) :: GroupFits(log, g, CM.Contents(store.groups)[g]))
    && (forall k <- CM.Contents(store.snapshots) :: SnapshotFits(log, k, CM.Contents(store.snapshots)[k]))
    && (forall key <- store.jobs :: JobFits(log, key, store.jobs[key]))
    && (forall f <- store.files :: FileFits(log, f))
  }

  ghost predicate RpcOf(e: Event, id: nat) {
    !e.JobRan? && !e.JobExpired? && e.rpc == id
  }

  ghost predicate LogFits(s: System) {
    && (forall e <- s.log :: e.JobRan? || e.JobExpired? || e.rpc in s.rpcs)
    && (forall e <- s.log :: e.GroupStamped? ==> e.time <= Unix(s.store.clock))
  }

  /** The basic invariant of every reachable state. */
  ghost predicate Inv(s: System) {
    RpcsFit(s) && StoreFits(s.log, s.store) && LogFits(s)
  }

  /* ----- the log only grows ----- */

  lemma KnownGrows(log: seq<Event>, more: seq<Event>)
    ensures forall g :: Known(log, g) ==> Known(log + more, g)
    ensures forall k :: KnownSnapshot(log, k) ==> KnownSnapshot(log + more, k)
  {
    forall g | Known(log, g) ensures Known(log + more, g) {
      var id, q, t :| GroupStamped(id, q, t) in log && g == GroupId(q.name, t);
      assert GroupStamped(id, q, t) in log + more;
    }
  }

  lemma ShapeGrows(log: seq<Event>, more: seq<Event>, id: nat, r: Rpc)
    requires Shape(log, id, r)
    ensures Shape(log + more, id, r)
  {
    KnownGrows(log, more);
  }

  lemma StoreFitsGrows(log: seq<Event>, more: seq<Event>, store: Store)
    requires StoreFits(log, store)
    ensures StoreFits(log + more, store)
  {
    KnownGrows(log, more);
    forall f | f in store.files ensures FileFits(log + more, f) {
      var k :| KnownSnapshot(log, k) && f.path == SnapshotPath(k);
      assert KnownSnapshot(log + more, k);
    }
  }

  /* ----- one RPC step ----- */

  lemma DraftKnows(log: seq<Event>, id: nat, d: Draft)
    requires Named(log, id, d)
    ensures Known(log, d.groupId) && KnownSnapshot(log, d.snapshotId)
  {
    assert GroupStamped(id, d.Request(), d.stamp) in log;
    assert Known(log, d.groupId);
  }

  lemma StampedShape(log: seq<Event>, id: nat, r: Rpc, reply: Reply)
    requires r.CreateStamping?
    ensures Shape(log + EventOf(id, r, reply), id, Advance(r, reply))
  {
    if Advance(r, reply).Validating? {
      assert EventOf(id, r, reply) == [GroupStamped(id, CreateRequest(r.cfg, r.name, r.ids), Unix(TimeOf(reply)))];
    }
  }

  lemma CheckingShape(log: seq<Event>, id: nat, r: Rpc, reply: Reply)
    requires Checking(r) && !r.CreateStamping? && Shape(log, id, r)
    ensures Shape(log, id, CheckingNext(r, reply))
  {
    if r.StampingSnapshot? {
      assert SnapshotOf(r.d.groupId, Stamped(r.d.groupId, Unix(TimeOf(reply))));
    }
  }

  lemma TakingShape(log: seq<Event>, id: nat, r: Rpc, reply: Reply)
    requires Taking(r) && Shape(log, id, r)
    ensures Shape(log, id, TakingNext(r, reply))
  {
  }

  lemma FoundGroupFits(store: Store, log: seq<Event>, group: string, reply: Reply, store': Store)
    requires StoreFits(log, store) && Exec(store, OnGroups(CM.Get), reply, store')
    requires FoundGroup(group, reply).Some?
    ensures var record := FoundGroup(group, reply).value;
      GroupFits(log, group, record) && KnownSnapshot(log, record.snapshotId)
  {
    assert GroupFits(log, group, CM.Contents(store.groups)[group]);
  }

  lemma DeleteLookupShape(store: Store, log: seq<Event>, id: nat, r: Rpc, reply: Reply, store': Store)
    requires r.DeleteFinding? && StoreFits(log, store) && Exec(store, OnGroups(CM.Get), reply, store')
    ensures Shape(log, id, DeletingNext(r, reply))
  {
    if FoundGroup(r.group, reply).Some? {
      FoundGroupFits(store, log, r.group, reply, store');
    }
  }

  lemma GetLookupShape(store: Store, log: seq<Event>, id: nat, r: Rpc, reply: Reply, store': Store)
    requires r.GetFinding? && StoreFits(log, store) && Exec(store, OnGroups(CM.Get), reply, store')
    ensures Shape(log, id, GettingNext(r, reply))
  {
    if FoundGroup(r.group, reply).Some? {
      FoundGroupFits(store, log, r.group, reply, store');
    }
  }

  lemma SnapshotLookupShape(store: Store, log: seq<Event>, id: nat, r: Rpc, reply: Reply, store': Store)
    requires r.CleanupFinding? && Shape(log, id, r) && StoreFits(log, store)
    requires Exec(store, OnSnapshots(CM.Get), reply, store')
    ensures Shape(log, id, DeletingNext(r, reply))
  {
    if FoundSnapshot(r.snapshot, reply).Some? {
      FoundSnapshotFits(store, log, r.snapshot, reply, store');
    }
  }

  lemma FoundSnapshotFits(store: Store, log: seq<Event>, snapshot: string, reply: Reply, store': Store)
    requires StoreFits(log, store) && Exec(store, OnSnapshots(CM.Get), reply, store')
    requires FoundSnapshot(snapshot, reply).Some?
    ensures SnapshotFits(log, snapshot, FoundSnapshot(snapshot, reply).value)
  {
    assert SnapshotFits(log, snapshot, CM.Contents(store.snapshots)[snapshot]);
  }

  lemma CleaningShape(log: seq<Event>, id: nat, r: Rpc, reply: Reply)
    requires (r.CleanupCreating? || r.CleanupRunning?) && Shape(log, id, r)
    ensures Shape(log, id, DeletingNext(r, reply))
  {
  }

  lemma DroppingShape(log: seq<Event>, id: nat, r: Rpc, reply: Reply)
    requires (r.CleanupDropping? || r.DroppingGroup?) && Shape(log, id, r)
    ensures Shape(log, id, DeletingNext(r, reply))
  {
  }

  /** The RPC that was served is in shape again, with what the reply added to the log. */
  lemma ServedShape(store: Store, log: seq<Event>, id: nat, r: Rpc, reply: Reply, store': Store)
    requires !Ended(r) && Shape(log, id, r) && StoreFits(log, store)
    requires Exec(store, NextCall(r), reply, store')
    ensures Shape(log + EventOf(id, r, reply), id, Advance(r, reply))
  {
    if r.CreateStamping? {
      StampedShape(log, id, r, reply);
    } else {
      assert Shape(log, id, Advance(r, reply)) by {
        if Checking(r) {
          CheckingShape(log, id, r, reply);
        } else if Taking(r) {
          TakingShape(log, id, r, reply);
        } else if r.DeleteFinding? {
          DeleteLookupShape(store, log, id, r, reply, store');
        } else if r.GetFinding? {
          GetLookupShape(store, log, id, r, reply, store');
        } else if r.CleanupFinding? {
          SnapshotLookupShape(store, log, id, r, reply, store');
        } else if r.CleanupCreating? || r.CleanupRunning? {
          CleaningShape(log, id, r, reply);
        } else if Deleting(r) {
          DroppingShape(log, id, r, reply);
        }
      }
      ShapeGrows(log, EventOf(id, r, reply), id, Advance(r, reply));
    }
  }

  /* ----- what one RPC step does to the store ----- */

  /** The contents of the group ConfigMap after a step of r. */
  ghost function GroupsAfter(groups: map<string, GroupRecord>, r: Rpc, reply: Reply): map<string, GroupRecord> {
    if reply != Groups(CM.Written) then groups
    else if r.StoringGroup? && r.groupProc.req.Store? then groups[r.d.groupId := r.groupProc.req.record]
    else if r.DroppingGroup? then groups - {r.group}
    else groups
  }

  ghost function SnapshotsAfter(snapshots: map<string, SnapshotRecord>, r: Rpc, reply: Reply)
    : map<string, SnapshotRecord>
  {
    if reply != Snapshots(CM.Written) then snapshots
    else if r.StoringSnapshot? && r.snapshotProc.req.Store?
    then snapshots[r.d.snapshotId := r.snapshotProc.req.record]
    else if r.CleanupDropping? then snapshots - {r.snapshot}
    else snapshots
  }

  ghost function JobsAfter(jobs: map<Key, Job>, r: Rpc, reply: Reply): map<Key, Job>
    requires !Ended(r)
  {
    if NextCall(r).CreateJob? && reply == Reply.Created
    then jobs[JobKey(NextCall(r).job) := Job(NextCall(r).job, false, 0, 0)]
    else jobs
  }

  lemma SnapshotFootprint(store: Store, log: seq<Event>, id: nat, r: Rpc, reply: Reply, store': Store)
    requires (r.StoringSnapshot? || r.CleanupDropping?) && Shape(log, id, r) && UpToDate(r, store)
    requires Exec(store, NextCall(r), reply, store')
    ensures store' == store.(snapshots := store'.snapshots)
    ensures CM.Contents(store'.snapshots) == SnapshotsAfter(CM.Contents(store.snapshots), r, reply)
    ensures reply != Groups(CM.Written)
  {
    ConfigMapCall(store, NextCall(r), reply, store');
    CM.StepIsAtomic(r.snapshotProc, store.snapshots, reply.snapshotReply, store'.snapshots);
  }

  lemma GroupFootprint(store: Store, log: seq<Event>, id: nat, r: Rpc, reply: Reply, store': Store)
    requires (r.StoringGroup? || r.DroppingGroup?) && Shape(log, id, r) && UpToDate(r, store)
    requires Exec(store, NextCall(r), reply, store')
    ensures store' == store.(groups := store'.groups)
    ensures CM.Contents(store'.groups) == GroupsAfter(CM.Contents(store.groups), r, reply)
    ensures reply != Snapshots(CM.Written)
  {
    ConfigMapCall(store, NextCall(r), reply, store');
    CM.StepIsAtomic(r.groupProc, store.groups, reply.groupReply, store'.groups);
  }

  /** A step of one RPC writes one key of one ConfigMap, or makes one job, or
      makes one claim, or changes nothing. */
  lemma Footprint(store: Store, log: seq<Event>, id: nat, r: Rpc, reply: Reply, store': Store)
    requires !Ended(r) && Shape(log, id, r) && UpToDate(r, store)
    requires Exec(store, NextCall(r), reply, store')
    ensures CM.Contents(store'.groups) == GroupsAfter(CM.Contents(store.groups), r, reply)
    ensures CM.Contents(store'.snapshots) == SnapshotsAfter(CM.Contents(store.snapshots), r, reply)
    ensures store'.jobs == JobsAfter(store.jobs, r, reply)
    ensures NextCall(r).CreateJob? && reply == Reply.Created ==> JobKey(NextCall(r).job) !in store.jobs
    ensures store'.files == store.files && store'.clock == store.clock
  {
    if r.StoringSnapshot? || r.CleanupDropping? {
      SnapshotFootprint(store, log, id, r, reply, store');
    } else if r.StoringGroup? || r.DroppingGroup? {
      GroupFootprint(store, log, id, r, reply, store');
    } else {
      OtherFootprint(store, r, reply, store');
    }
  }

  lemma OtherFootprint(store: Store, r: Rpc, reply: Reply, store': Store)
    requires !Ended(r) && Exec(store, NextCall(r), reply, store')
    requires !r.StoringSnapshot? && !r.CleanupDropping? && !r.StoringGroup? && !r.DroppingGroup?
    ensures CM.Contents(store'.groups) == GroupsAfter(CM.Contents(store.groups), r, reply)
    ensures CM.Contents(store'.snapshots) == SnapshotsAfter(CM.Contents(store.snapshots), r, reply)
    ensures store'.jobs == JobsAfter(store.jobs, r, reply)
    ensures NextCall(r).CreateJob? && reply == Reply.Created ==> JobKey(NextCall(r).job) !in store.jobs
    ensures store'.files == store.files && store'.clock == store.clock
  {
    ConfigMapCall(store, NextCall(r), reply, store');
    OtherCallsLeaveMetadata(store, r, reply, store');
  }

  lemma OtherCallsLeaveMetadata(store: Store, r: Rpc, reply: Reply, store': Store)
    requires !Ended(r) && Exec(store, NextCall(r), reply, store')
    requires !r.StoringSnapshot? && !r.CleanupDropping? && !r.StoringGroup? && !r.DroppingGroup?
    ensures store'.groups == store.groups && store'.snapshots == store.snapshots
    ensures store'.jobs == JobsAfter(store.jobs, r, reply)
    ensures NextCall(r).CreateJob? && reply == Reply.Created ==> JobKey(NextCall(r).job) !in store.jobs
    ensures reply != Groups(CM.Written) && reply != Snapshots(CM.Written)
  {
    assert NextCall(r).OnGroups? ==> NextCall(r).groupCall.Get?;
    assert NextCall(r).OnSnapshots? ==> NextCall(r).snapshotCall.Get?;
  }

  lemma ServedUpToDate(store: Store, log: seq<Event>, id: nat, r: Rpc, reply: Reply, store': Store)
    requires !Ended(r) && Shape(log, id, r) && UpToDate(r, store)
    requires Exec(store, NextCall(r), reply, store')
    ensures UpToDate(Advance(r, reply), store')
  {
    ConfigMapCall(store, NextCall(r), reply, store');
    if r.StoringSnapshot? || r.CleanupDropping? {
      CM.StepIsAtomic(r.snapshotProc, store.snapshots, reply.snapshotReply, store'.snapshots);
    } else if r.StoringGroup? || r.DroppingGroup? {
      CM.StepIsAtomic(r.groupProc, store.groups, reply.groupReply, store'.groups);
    } else {
      NewProcsAreFresh(r, reply, store');
    }
  }

  lemma NewProcsAreFresh(r: Rpc, reply: Reply, store: Store)
    requires !Ended(r)
    requires !r.StoringSnapshot? && !r.CleanupDropping? && !r.StoringGroup? && !r.DroppingGroup?
    ensures UpToDate(Advance(r, reply), store)
  {
  }

  lemma OthersUpToDate(q: Rpc, store: Store, c: Call, reply: Reply, store': Store)
    requires UpToDate(q, store) && Exec(store, c, reply, store')
    ensures UpToDate(q, store')
  {
    ConfigMapCall(store, c, reply, store');
    if q.StoringSnapshot? || q.CleanupDropping? {
      if c.OnSnapshots? {
        CM.OthersStayFaithful(q.snapshotProc, store.snapshots, c.snapshotCall, reply.snapshotReply, store'.snapshots);
      }
    } else if q.StoringGroup? || q.DroppingGroup? {
      if c.OnGroups? {
        CM.OthersStayFaithful(q.groupProc, store.groups, c.groupCall, reply.groupReply, store'.groups);
      }
    }
  }

  /** The job an RPC creates fits. */
  lemma NewJobFits(log: seq<Event>, id: nat, r: Rpc)
    requires !Ended(r) && Shape(log, id, r) && NextCall(r).CreateJob?
    ensures JobFits(log, JobKey(NextCall(r).job), Job(NextCall(r).job, false, 0, 0))
  {
    if r.Saving? {
      DraftKnows(log, id, r.d);
    }
  }

  lemma ServedStore(store: Store, log: seq<Event>, id: nat, r: Rpc, reply: Reply, store': Store)
    requires !Ended(r) && Shape(log, id, r) && UpToDate(r, store) && StoreFits(log, store)
    requires Exec(store, NextCall(r), reply, store')
    ensures StoreFits(log, store')
  {
    Footprint(store, log, id, r, reply, store');
    if NextCall(r).CreateJob? {
      NewJobFits(log, id, r);
    } else if r.StoringSnapshot? || r.StoringGroup? {
      DraftKnows(log, id, r.d);
    }
  }

  lemma ServeKeepsInv(s: System, id: nat, reply: Reply, s': System)
    requires Inv(s) && Serves(s, id, reply, s')
    ensures Inv(s')
  {
    var r, more := s.rpcs[id], EventOf(id, s.rpcs[id], reply);
    assert Shape(s.log, id, r) && UpToDate(r, s.store);
    ServedShape(s.store, s.log, id, r, reply, s'.store);
    ServedUpToDate(s.store, s.log, id, r, reply, s'.store);
    forall j | j in s'.rpcs && j != id ensures Shape(s'.log, j, s'.rpcs[j]) && UpToDate(s'.rpcs[j], s'.store) {
      assert Shape(s.log, j, s.rpcs[j]) && UpToDate(s.rpcs[j], s.store);
      ShapeGrows(s.log, more, j, s.rpcs[j]);
      OthersUpToDate(s.rpcs[j], s.store, NextCall(r), reply, s'.store);
    }
    ServedStore(s.store, s.log, id, r, reply, s'.store);
    StoreFitsGrows(s.log, more, s'.store);
    ServedLog(s, id, reply, s');
  }

  lemma ServedLog(s: System, id: nat, reply: Reply, s': System)
    requires LogFits(s) && Serves(s, id, reply, s')
    ensures LogFits(s')
  {
    var r := s.rpcs[id];
    assert s'.store.clock == s.store.clock by {
      ConfigMapCall(s.store, NextCall(r), reply, s'.store);
    }
    forall e | e in EventOf(id, r, reply)
      ensures RpcOf(e, id) && (e.GroupStamped? ==> e.time <= Unix(s.store.clock))
    {
    }
  }

  lemma RunKeepsFiles(log: seq<Event>, job: Job, key: Key, files: set<File>)
    requires JobFits(log, key, job) && forall f <- files :: FileFits(log, f)
    ensures forall f <- Effect(job.spec, files) :: FileFits(log, f)
  {
    assert FileFits(log, FileOf(job.spec)) by {
      assert FileOf(job.spec).path == SnapshotPath(job.spec.snapshotId);
    }
  }

  lemma JobStepKeepsStore(s: System, step: Step, s': System)
    requires StoreFits(s.log, s.store) && JobActs(s, step, s')
    ensures StoreFits(s.log, s'.store)
  {
    var job := s.store.jobs[step.key];
    assert JobFits(s.log, step.key, job);
    RunKeepsFiles(s.log, job, step.key, s.store.files);
  }

  lemma JobStepKeepsInv(s: System, step: Step, s': System)
    requires Inv(s) && JobActs(s, step, s')
    ensures Inv(s')
  {
    JobStepKeepsStore(s, step, s');
    var more := JobEvents(step);
    StoreFitsGrows(s.log, more, s'.store);
    forall j | j in s'.rpcs ensures Shape(s'.log, j, s'.rpcs[j]) && UpToDate(s'.rpcs[j], s'.store) {
      assert Shape(s.log, j, s.rpcs[j]) && UpToDate(s.rpcs[j], s.store);
      ShapeGrows(s.log, more, j, s.rpcs[j]);
    }
  }

  lemma IdleStepKeepsInv(s: System, step: Step, s': System)
    requires Inv(s) && Idles(s, step, s')
    ensures Inv(s')
  {
  }

  lemma StepKeepsInv(s: System, step: Step, s': System)
    requires Inv(s) && Next(s, step, s')
    ensures Inv(s')
  {
    if step.Serve? {
      ServeKeepsInv(s, step.id, step.reply, s');
    } else if OnJob(step) {
      JobStepKeepsInv(s, step, s');
    } else {
      IdleStepKeepsInv(s, step, s');
    }
  }

  lemma {:induction false} RunKeepsInv(run: seq<System>, steps: seq<Step>, i: nat)
    requires IsRun(run, steps) && i < |run|
    ensures Inv(run[i])
    decreases i
  {
    if i > 0 {
      RunKeepsInv(run, steps, i - 1);
      assert StepAt(run, steps, i - 1);
      StepKeepsInv(run[i - 1], steps[i - 1], run[i]);
    }
  }

  lemma {:induction false} TimeGoesOn(run: seq<System>, steps: seq<Step>, i: nat, j: nat)
    requires IsRun(run, steps) && i <= j < |run|
    ensures run[i].store.clock <= run[j].store.clock
    decreases j - i
  {
    if i < j {
      TimeGoesOn(run, steps, i, j - 1);
      assert StepAt(run, steps, j - 1);
      StepKeepsTime(run[j - 1], steps[j - 1], run[j - 1 + 1]);
    }
  }

  lemma StepKeepsTime(s: System, step: Step, s': System)
    requires Next(s, step, s')
    ensures s.store.clock <= s'.store.clock && (step.Serve? ==> s'.store.clock == s.store.clock)
  {
    if step.Serve? {
      ConfigMapCall(s.store, NextCall(s.rpcs[step.id]), step.reply, s'.store);
    }
  }

  /* ----- what the invariant already says ----- */

  /** No Get ever indexes an empty list of source volumes, and every group
      record sits under its own ID. */
  lemma GetNeverPanics(run: seq<System>, steps: seq<Step>, i: nat)
    requires IsRun(run, steps) && i < |run|
    ensures forall id <- run[i].rpcs :: run[i].rpcs[id] != GetDone(Err(IndexOutOfRange))
    ensures var groups := CM.Contents(run[i].store.groups);
      forall g <- groups :: groups[g].groupSnapshotId == g && groups[g].sourceVolumeIds != []
  {
    RunKeepsInv(run, steps, i);
    var s := run[i];
    forall id | id in s.rpcs ensures s.rpcs[id] != GetDone(Err(IndexOutOfRange)) {
      assert Shape(s.log, id, s.rpcs[id]);
    }
    forall g | g in CM.Contents(s.store.groups)
      ensures CM.Contents(s.store.groups)[g].groupSnapshotId == g
      ensures CM.Contents(s.store.groups)[g].sourceVolumeIds != []
    {
      assert GroupFits(s.log, g, CM.Contents(s.store.groups)[g]);
    }
  }

  /** Nothing in the store belongs to group g. */
  ghost predicate Fresh(g: string, store: Store) {
    && g !in CM.Contents(store.groups)
    && (forall k <- CM.Contents(store.snapshots) :: !SnapshotOf(g, k))
    && (forall key <- store.jobs :: !SnapshotOf(g, store.jobs[key].spec.snapshotId))
    && (forall f, k :: f in store.files && SnapshotOf(g, k) ==> f.path != SnapshotPath(k))
  }

  /** No Create has been given this name in this second. */
  ghost predicate Unused(log: seq<Event>, name: string, time: nat) {
    forall e <- log :: !(e.GroupStamped? && e.request.name == name && e.time == time)
  }

  lemma UnusedIsUnknown(log: seq<Event>, name: string, time: nat)
    requires Unused(log, name, time)
    ensures !Known(log, GroupId(name, time))
    ensures forall k :: SnapshotOf(GroupId(name, time), k) ==> !KnownSnapshot(log, k)
  {
    var g := GroupId(name, time);
    if Known(log, g) {
      var id, q, t :| GroupStamped(id, q, t) in log && g == GroupId(q.name, t);
      IdsDetermineTheirParts(name, time, 0, q.name, t, 0);
      assert false;
    }
    forall k | SnapshotOf(g, k) && KnownSnapshot(log, k) ensures false {
      var h :| Known(log, h) && SnapshotOf(h, k);
      SnapshotOfOneGroup(g, h, k);
    }
  }

  lemma UnknownIsFresh(s: System, g: string)
    requires Inv(s) && !Known(s.log, g) && forall k :: SnapshotOf(g, k) ==> !KnownSnapshot(s.log, k)
    ensures Fresh(g, s.store)
  {
    var groups, snapshots := CM.Contents(s.store.groups), CM.Contents(s.store.snapshots);
    assert g in groups ==> GroupFits(s.log, g, groups[g]);
    assert forall k <- snapshots :: SnapshotFits(s.log, k, snapshots[k]);
    assert forall key <- s.store.jobs :: JobFits(s.log, key, s.store.jobs[key]);
    forall f, k | f in s.store.files && SnapshotOf(g, k) ensures f.path != SnapshotPath(k) {
      assert FileFits(s.log, f);
      var k' :| KnownSnapshot(s.log, k') && f.path == SnapshotPath(k');
      NamesNeverCollide(k, k');
    }
  }

  /** In a reachable state, a name and a second that no Create was given yet make
      a group that is new to the whole store. */
  lemma UnusedGroupsAreFresh(run: seq<System>, steps: seq<Step>, i: nat, name: string, time: nat)
    requires IsRun(run, steps) && i < |run| && Unused(run[i].log, name, time)
    ensures Fresh(GroupId(name, time), run[i].store)
  {
    RunKeepsInv(run, steps, i);
    UnusedIsUnknown(run[i].log, name, time);
    UnknownIsFresh(run[i], GroupId(name, time));
  }

  /** Every ID in a reachable state carries times no later than the clock, so any
      later second will do. */
  lemma LaterGroupsAreFresh(run: seq<System>, steps: seq<Step>, i: nat, name: string, time: nat)
    requires IsRun(run, steps) && i < |run| && time > Unix(run[i].store.clock)
    ensures Fresh(GroupId(name, time), run[i].store)
  {
    RunKeepsInv(run, steps, i);
    UnusedGroupsAreFresh(run, steps, i, name, time);
  }
}
