/** The group controller's handlers. Each one issues exactly the calls of its
    RPC program, in order, and returns what the program ends with; Create also
    meets a specification of its validation that knows nothing of its loops. */
module GroupControllers {
  import opened Identifiers
  import opened Api
  import opened VolumeIds
  import opened Machine
  import opened Clients
  import opened Executors
  import opened Managers
  import opened Discoveries
  import opened Wrappers
  import CM = ConfigMaps
  import Health

  const MINUTE: nat := 60 * SECOND

  /* ----- what validation means ----- */

  /** One Create request and the outside world it meets; base numbers its first call. */
  datatype Request = Request(cfg: Config, name: string, ids: seq<string>, env: (nat, Call) -> Reply, base: nat)
  {
    ghost function Vol(i: nat): Volume {
      if i < |ids| && Parse(ids[i]).Some? then Parse(ids[i]).value else Volume("", "")
    }

    /** The reply to the i-th volume's claim check. */
    ghost function ClaimReply(i: nat): Reply {
      env(base + 1 + i, GetClaim(Key(Vol(i).namespace, Vol(i).name)))
    }

    /** Discovery and health take three calls a volume, after all claim checks. */
    ghost function Cluster(i: nat): Option<ClusterInfo> {
      ClusterSeen(env, base + 1 + |ids| + 3 * i, cfg.clusterLabelKey, Vol(i).namespace, Vol(i).name)
    }

    ghost function HealthReply(i: nat): Reply
      requires Cluster(i).Some?
    {
      env(base + 3 + |ids| + 3 * i, CheckHealth(Cluster(i).value.endpoints))
    }

    ghost function Group(): string {
      GroupId(name, Unix(TimeOf(env(base, Now))))
    }

    /** What follows the checks, in the first volume's namespace. */
    ghost function Save(limit: nat): SaveRequest {
      SaveRequest(env, base + 1 + 4 * |ids|, Vol(0).namespace, cfg.pvcSizeParses, Group(), limit)
    }
  }

  /** The two phases after the checks: from the n-th call on, the claim that holds the
      snapshot is ensured, the snapshot is given its ID, and its job is executed. */
  datatype SaveRequest = SaveRequest(
    env: (nat, Call) -> Reply, n: nat, namespace: string, sizeParses: bool, groupId: string, limit: nat)
  {
    ghost predicate HasClaim() {
      ClaimEnsured(env, n, namespace, sizeParses)
    }

    /** The call that gives the snapshot its ID. */
    ghost function Stamp(): nat {
      n + ClaimCalls(env, n, namespace)
    }

    ghost function Snapshot(): string {
      Stamped(groupId, Unix(TimeOf(env(Stamp(), Now))))
    }

    ghost predicate Saves() {
      JobSucceeds(env, Stamp() + 1, limit, SaveJob(namespace, Snapshot(), SNAPSHOT_CLAIM), false)
    }

    /** What the Create then answers: each error exactly in its own case, and OK with the
        IDs, the first volume, and the times its last two calls read. */
    ghost predicate Ends(firstId: string, calls: nat, res: Result<CreateResponse, CreateError>) {
      && (res == Err(StorageFailed) <==> !HasClaim())
      && (res == Err(SaveFailed) <==> HasClaim() && !Saves())
      && (res.Ok? <==> HasClaim() && Saves())
      && (res.Ok? ==> calls >= 2 && res.value == CreateResponse(
            groupId, Snapshot(), firstId, TimeOf(env(calls - 2, Now)), TimeOf(env(calls - 1, Now)), true))
    }
  }

  datatype Check = HasName | HasVolumes | Parses(i: nat) | ClaimUsable(i: nat) | ClusterFits(i: nat)

  predicate Concerns(q: Request, c: Check) {
    c.HasName? || c.HasVolumes? || c.i < |q.ids|
  }

  function Phase(c: Check): nat {
    match c
    case HasName => 0
    case HasVolumes => 1
    case Parses(_) => 2
    case ClaimUsable(_) => 3
    case ClusterFits(_) => 4
  }

  /** Phase by phase, and within a phase volume by volume. */
  predicate Before(a: Check, b: Check) {
    Phase(a) < Phase(b) || (Phase(a) == Phase(b) > 1 && a.i < b.i)
  }

  /** Some access mode of the claim lets it be written. */
  ghost predicate Writable(claim: Claim) {
    exists mode :: mode in claim.accessModes && (mode == "ReadWriteOnce" || mode == "ReadWriteMany")
  }

  ghost predicate BoundAndWritable(r: Reply) {
    r.ClaimIs? && r.claim.phase == "Bound" && Writable(r.claim)
  }

  /** problem is what is wrong with the claim in the reply: each case exactly in its own. */
  ghost predicate ClaimJudged(r: Reply, problem: Option<ClaimProblem>) {
    && (problem.None? <==> BoundAndWritable(r))
    && (problem == Some(ClaimMissing) <==> !r.ClaimIs?)
    && (problem == Some(ClaimNotBound) <==> r.ClaimIs? && r.claim.phase != "Bound")
    && (problem == Some(ClaimNotWritable) <==> r.ClaimIs? && r.claim.phase == "Bound" && !Writable(r.claim))
  }

  lemma VerdictJudges(r: Reply)
    ensures ClaimJudged(r, ClaimVerdict(r))
  {
    if r.ClaimIs? && Writable(r.claim) {
      var mode :| mode in r.claim.accessModes && (mode == "ReadWriteOnce" || mode == "ReadWriteMany");
    }
  }

  /** What is wrong with one check, looked at on its own. */
  ghost function Problem(q: Request, c: Check): Option<CreateError>
    requires Concerns(q, c)
  {
    match c
    case HasName => if q.name == "" then Some(NameRequired) else None
    case HasVolumes => if q.ids == [] then Some(VolumesRequired) else None
    case Parses(i) => if Parse(q.ids[i]).None? then Some(BadVolumeId(i)) else None
    case ClaimUsable(i) =>
      if !q.ClaimReply(i).ClaimIs? then Some(ClaimRejected(i, ClaimMissing))
      else if q.ClaimReply(i).claim.phase != "Bound" then Some(ClaimRejected(i, ClaimNotBound))
      else if !Writable(q.ClaimReply(i).claim) then Some(ClaimRejected(i, ClaimNotWritable))
      else None
    case ClusterFits(i) =>
      if q.Cluster(i).None? then Some(DiscoveryFailed(i))
      else Unfit(i, q.Cluster(i).value, q.HealthReply(i), q.Cluster(0))
  }

  /** What is wrong with the i-th volume's cluster: its health, or how it
      compares with the first volume's cluster. */
  ghost function Unfit(i: nat, info: ClusterInfo, health: Reply, first: Option<ClusterInfo>): Option<CreateError> {
    if !HealthPasses(info, health) then Some(ClusterUnhealthy(i))
    else if first.None? then None
    else if info.name != first.value.name then Some(ClusterMismatch(i))
    else if |info.endpoints| != |first.value.endpoints| then Some(EndpointsDiffer(i))
    else None
  }

  /** e is the problem of the first check that has one. */
  ghost predicate FirstProblem(q: Request, e: CreateError) {
    exists c :: Concerns(q, c) && Problem(q, c) == Some(e) && PassesBefore(q, c)
  }

  ghost predicate PassesBefore(q: Request, c: Check) {
    forall b :: Concerns(q, b) && Before(b, c) ==> Problem(q, b) == None
  }

  ghost predicate PassesAll(q: Request) {
    forall c :: Concerns(q, c) ==> Problem(q, c) == None
  }

  /** The first n checks of one per-volume phase pass. */
  ghost predicate ClaimsUsable(q: Request, n: nat) {
    n <= |q.ids| && forall k :: 0 <= k < n ==> Problem(q, ClaimUsable(k)) == None
  }

  ghost predicate ClustersFit(q: Request, n: nat) {
    n <= |q.ids| && forall k :: 0 <= k < n ==> Problem(q, ClusterFits(k)) == None
  }

  ghost predicate IdsParse(q: Request, n: nat) {
    n <= |q.ids| && forall k :: 0 <= k < n ==> Problem(q, Parses(k)) == None
  }

  /** e is what Create must answer. */
  ghost predicate Decides(q: Request, e: CreateError) {
    !PassesAll(q) && forall e' :: FirstProblem(q, e') ==> e' == e
  }

  lemma FailingCheckDecides(q: Request, c: Check, e: CreateError)
    requires Concerns(q, c) && PassesBefore(q, c) && Problem(q, c) == Some(e)
    ensures Decides(q, e)
  {
    forall e' | FirstProblem(q, e') ensures e' == e {
      var d :| Concerns(q, d) && Problem(q, d) == Some(e') && PassesBefore(q, d);
      assert !Before(c, d) && !Before(d, c);
      assert c == d;
    }
  }

  lemma ParseDecides(q: Request, n: nat)
    requires q.name != "" && n < |q.ids| && IdsParse(q, n) && Parse(q.ids[n]).None?
    ensures Decides(q, BadVolumeId(n))
  {
    assert PassesBefore(q, Parses(n));
    FailingCheckDecides(q, Parses(n), BadVolumeId(n));
  }

  lemma ClaimDecides(q: Request, n: nat, e: CreateError)
    requires q.name != "" && n < |q.ids| && IdsParse(q, |q.ids|) && ClaimsUsable(q, n)
    requires Problem(q, ClaimUsable(n)) == Some(e)
    ensures Decides(q, e) && e != StorageFailed && e != SaveFailed
  {
    forall b | Concerns(q, b) && Before(b, ClaimUsable(n)) ensures Problem(q, b) == None {
      match b
      case HasName =>
      case HasVolumes =>
      case Parses(k) =>
      case ClaimUsable(k) =>
    }
    FailingCheckDecides(q, ClaimUsable(n), e);
  }

  lemma ClusterDecides(q: Request, n: nat, e: CreateError)
    requires q.name != "" && n < |q.ids| && IdsParse(q, |q.ids|) && ClaimsUsable(q, |q.ids|) && ClustersFit(q, n)
    requires Problem(q, ClusterFits(n)) == Some(e)
    ensures Decides(q, e) && e != StorageFailed && e != SaveFailed
  {
    forall b | Concerns(q, b) && Before(b, ClusterFits(n)) ensures Problem(q, b) == None {
      match b
      case HasName =>
      case HasVolumes =>
      case Parses(k) =>
      case ClaimUsable(k) =>
      case ClusterFits(k) =>
    }
    FailingCheckDecides(q, ClusterFits(n), e);
  }

  lemma NothingFails(q: Request)
    requires q.name != "" && q.ids != [] && IdsParse(q, |q.ids|)
    requires ClaimsUsable(q, |q.ids|) && ClustersFit(q, |q.ids|)
    ensures PassesAll(q) && forall e :: !FirstProblem(q, e)
  {
    forall c | Concerns(q, c) ensures Problem(q, c) == None {
    }
  }

  /** Each label selector in the namespace gets the same pod list whenever it is asked for. */
  ghost predicate StablePods(q: Request, namespace: string) {
    forall value, j, k ::
      q.env(j, ListPods(namespace, q.cfg.clusterLabelKey, value))
      == q.env(k, ListPods(namespace, q.cfg.clusterLabelKey, value))
  }

  /** In an accepted Create every volume's claim was bound and writable. */
  lemma AcceptedClaimsAreUsable(q: Request)
    requires PassesAll(q)
    ensures forall i: nat :: i < |q.ids| ==> BoundAndWritable(q.ClaimReply(i))
  {
    forall i: nat | i < |q.ids| ensures BoundAndWritable(q.ClaimReply(i)) {
      assert Problem(q, ClaimUsable(i)) == None;
    }
  }

  /** A claim that provisioning makes passes that check once it is bound. */
  lemma NewClaimIsUsable()
    ensures BoundAndWritable(ClaimIs(NewClaim().(phase := "Bound"))) && NewClaim().phase != "Bound"
  {
    assert "ReadWriteOnce" in NewClaim().accessModes;
  }

  /** With ideal timers, a cleanup that ticks until its deadline and sees no decisive poll
      has polled twelve times, and no cleanup polls more often. */
  lemma CleanupPollsTwelveTimes(env: (nat, Call) -> Reply, key: Key, n: nat, polls: nat, v: Verdict)
    requires Waited(env, key, n, MINUTE, polls, v)
    ensures polls <= 12
    ensures v == TimedOut && env(n + 2 * polls, Await).Tick? ==> polls == 12
  {
    WaitedWaitsFor(env, key, n, MINUTE, polls, v);
  }

  lemma SharesCluster(q: Request, i: nat)
    requires PassesAll(q) && i < |q.ids|
    ensures q.Cluster(i).Some? && q.Cluster(0).Some? && SameCluster(q.Cluster(i).value, q.Cluster(0).value)
  {
    assert Problem(q, ClusterFits(0)) == None && Problem(q, ClusterFits(i)) == None;
  }

  lemma SharesEndpoints(q: Request, i: nat)
    requires q.Cluster(i).Some? && q.Cluster(0).Some? && q.Cluster(i).value.name == q.Cluster(0).value.name
    requires StablePods(q, q.Vol(0).namespace) && q.Vol(i).namespace == q.Vol(0).namespace
    ensures q.Cluster(i) == q.Cluster(0)
  {
    var n := q.base + 1 + |q.ids|;
    ClusterAt(q, 0, q.Vol(0), n);
    ClusterAt(q, i, q.Vol(i), n + 3 * i);
    SameClusterSameEndpoints(
      q.env, q.cfg.clusterLabelKey, q.Vol(0).namespace, n + 3 * i, q.Vol(i).name, n, q.Vol(0).name);
  }

  /** If the volumes of a Create that passes validation share a namespace and the
      pod list is stable, all of them are in one cluster with one endpoint list;
      in any case they agree on its name and on the number of endpoints. */
  lemma AcceptedVolumesShareACluster(q: Request)
    requires PassesAll(q)
    ensures forall i: nat :: i < |q.ids| ==>
      && q.Cluster(i).Some? && q.Cluster(0).Some?
      && SameCluster(q.Cluster(i).value, q.Cluster(0).value)
      && (StablePods(q, q.Vol(0).namespace) && q.Vol(i).namespace == q.Vol(0).namespace ==>
            q.Cluster(i) == q.Cluster(0))
  {
    forall i: nat | i < |q.ids|
      ensures q.Cluster(i).Some? && q.Cluster(0).Some? && SameCluster(q.Cluster(i).value, q.Cluster(0).value)
      ensures StablePods(q, q.Vol(0).namespace) && q.Vol(i).namespace == q.Vol(0).namespace ==>
        q.Cluster(i) == q.Cluster(0)
    {
      SharesCluster(q, i);
      if StablePods(q, q.Vol(0).namespace) && q.Vol(i).namespace == q.Vol(0).namespace {
        SharesEndpoints(q, i);
      }
    }
  }

  /** A cleanup created its job in its n-th call, and went through. */
  ghost predicate CleanupSeen(env: (nat, Call) -> Reply, n: nat, limit: nat, snapshot: string, job: JobSpec) {
    env(n, CreateJob(job, false)) == Reply.Created && CleanupThrough(env, n + 1, limit, snapshot, job)
  }

  /** From its n-th call on, the executor joined the job and saw it succeed in time,
      and the snapshot record was removed without error. */
  ghost predicate CleanupThrough(env: (nat, Call) -> Reply, n: nat, limit: nat, snapshot: string, job: JobSpec) {
    exists polls: nat ::
      SucceedsWith(env, n, limit, job, true, polls) && DropsWithoutError(env, n + 1 + 2 * polls, snapshot)
  }

  ghost predicate DropsWithoutError(env: (nat, Call) -> Reply, n: nat, snapshot: string) {
    SnapshotOutcome(env, n, CM.Drop(snapshot)) != CM.Failed
  }

  /** What the executor saw decides whether the cleanup can go through. */
  lemma WaitDecidesCleanup(
    env: (nat, Call) -> Reply, n: nat, limit: nat, snapshot: string, job: JobSpec, polls: nat, v: Verdict)
    requires v == NotCreated <==> env(n, CreateJob(job, true)) !in {Reply.Created, Failure(CM.AlreadyExists)}
    requires v != NotCreated ==> Waited(env, JobKey(job), n + 1, limit, polls, v)
    ensures CleanupThrough(env, n, limit, snapshot, job) <==>
      v == Succeeded && DropsWithoutError(env, n + 1 + 2 * polls, snapshot)
  {
    forall seen: nat ensures SucceedsWith(env, n, limit, job, true, seen) <==> v == Succeeded && seen == polls {
      OneSuccess(env, n, limit, job, true, polls, v, seen);
    }
    assert v == Succeeded ==> SucceedsWith(env, n, limit, job, true, polls);
  }

  /** res is what a Get answers to its two replies: NotFound exactly if the first does not
      show the group's record; and else what that record says, at the time of the snapshot
      record if the second shows it. IndexOutOfRange stands for the panic on an empty list
      of source volumes. */
  ghost predicate GetAnswers(group: string, first: Reply, second: Reply, res: Result<GetResponse, GetError>) {
    && (res == Err(IdRequired) <==> group == "")
    && (res == Err(GroupNotFound) <==> group != "" && !HoldsGroup(first, group))
    && (group != "" && HoldsGroup(first, group) ==>
          var record := first.groupReply.data[group];
          var time := if HoldsSnapshot(second, record.snapshotId)
                      then second.snapshotReply.data[record.snapshotId].creationTime else record.creationTime;
          res == if record.sourceVolumeIds == [] then Err(IndexOutOfRange) else
            Ok(GetResponse(group, record.snapshotId, record.sourceVolumeIds[0], time, record.readyToUse)))
  }

  /** Where in the sequence of calls the i-th volume's claim check is. */
  lemma ClaimAt(q: Request, i: nat, v: Volume, n: nat)
    requires q.Vol(i) == v && n == q.base + 1 + i
    ensures q.ClaimReply(i) == q.env(n, GetClaim(Key(v.namespace, v.name)))
  {
  }

  /** Where in the sequence of calls the i-th volume's discovery and health check are. */
  lemma ClusterAt(q: Request, i: nat, v: Volume, n: nat)
    requires q.Vol(i) == v && n == q.base + 1 + |q.ids| + 3 * i
    ensures q.Cluster(i) == ClusterSeen(q.env, n, q.cfg.clusterLabelKey, v.namespace, v.name)
    ensures q.Cluster(i).Some? ==> q.HealthReply(i) == q.env(n + 2, CheckHealth(q.Cluster(i).value.endpoints))
  {
  }

  /** The i-th volume's cluster problem, once its cluster and the first one are known. */
  lemma JudgedProblem(q: Request, i: nat, info: ClusterInfo, first: ClusterInfo)
    requires i < |q.ids| && q.Cluster(i) == Some(info) && q.Cluster(0) == Some(if i == 0 then info else first)
    ensures Problem(q, ClusterFits(i)) == Unfit(i, info, q.HealthReply(i), Some(if i == 0 then info else first))
  {
  }

  class GroupController {
    const client: Client
    const cfg: Config
    const snapshotTimeout: nat
    const discovery: Discovery
    const jobExecutor: Executor
    const snapshotManager: Manager
    const provisioner: SnapshotPVCProvisioner

    ghost predicate Valid() {
      && discovery.client == client && discovery.clusterLabelKey == cfg.clusterLabelKey
      && jobExecutor.client == client
      && snapshotManager.client == client
      && provisioner.client == client && provisioner.pvcSizeParses == cfg.pvcSizeParses
    }

    constructor (client: Client, cfg: Config, snapshotTimeout: nat)
      ensures Valid() && this.client == client && this.cfg == cfg
    {
      this.client, this.cfg, this.snapshotTimeout := client, cfg, snapshotTimeout;
      discovery := new Discovery(client, cfg.clusterLabelKey);
      jobExecutor := new Executor(client);
      snapshotManager := new Manager(client);
      provisioner := new SnapshotPVCProvisioner(client, cfg.pvcSizeParses);
    }

    ghost function RequestNow(name: string, ids: seq<string>): Request
      reads client
    {
      Request(cfg, name, ids, client.env, client.issued)
    }

    method CreateVolumeGroupSnapshot(name: string, ids: seq<string>)
      returns (res: Result<CreateResponse, CreateError>)
      requires Valid() && client.at == BeginCreate(cfg, name, ids)
      modifies client
      ensures client.at == CreateDone(res)
      ensures forall e :: FirstProblem(old(RequestNow(name, ids)), e) ==> res == Err(e)
      ensures PassesAll(old(RequestNow(name, ids))) ==>
        && ids != []
        && old(RequestNow(name, ids)).Save(snapshotTimeout + client.grace).Ends(ids[0], client.issued, res)
      ensures !PassesAll(old(RequestNow(name, ids))) ==>
        res.Err? && res.error != StorageFailed && res.error != SaveFailed
    {
      ghost var q := RequestNow(name, ids);
      var r := client.Do(Now);
      var groupId := GroupId(name, Unix(TimeOf(r)));
      var err, volumes, first := ValidateRequest(name, ids, TimeOf(r), q);
      if err.Some? {
        return Err(err.value);
      }
      ghost var save := q.Save(snapshotTimeout + client.grace);
      res := TakeSnapshot(ids, groupId, volumes[0].namespace, first, client.at.d, save);
    }

    /** Phases 1 to 5. */
    method ValidateRequest(name: string, ids: seq<string>, ghost now: nat, ghost q: Request)
      returns (err: Option<CreateError>, volumes: seq<Volume>, first: ClusterInfo)
      requires Valid() && client.at == AfterStamp(cfg, name, ids, now)
      requires client.issued > 0 && q == Request(cfg, name, ids, client.env, client.issued - 1)
      modifies client
      ensures err.Some? ==> client.at == CreateFails(err.value)
      ensures err.Some? ==> Decides(q, err.value) && err.value != StorageFailed && err.value != SaveFailed
      ensures err.None? ==> PassesAll(q) && forall e :: !FirstProblem(q, e)
      ensures err.None? ==> ids != [] && volumes == ParseAll(ids) && |volumes| == |ids|
      ensures err.None? ==>
        && client.at == Provisioning(NewDraft(cfg, name, ids, now).(cluster := first), Looking)
        && client.issued == q.base + 1 + 4 * |ids|
    {
      first, volumes := NO_CLUSTER, [];
      if name == "" {
        FailingCheckDecides(q, HasName, NameRequired);
        return Some(NameRequired), volumes, first;
      }
      if |ids| == 0 {
        FailingCheckDecides(q, HasVolumes, VolumesRequired);
        return Some(VolumesRequired), volumes, first;
      }
      volumes := ParseVolumeIds(ids);
      if |volumes| < |ids| {
        ParseDecides(q, |volumes|);
        return Some(BadVolumeId(|volumes|)), volumes, first;
      }
      err, first := ValidateVolumes(volumes, NewDraft(cfg, name, ids, now), q);
    }

    /** Phases 3 to 5. */
    method ValidateVolumes(volumes: seq<Volume>, ghost d: Draft, ghost q: Request)
      returns (err: Option<CreateError>, first: ClusterInfo)
      requires Valid() && d.volumes == volumes != [] && client.at == Validating(d, 0)
      requires Drafts(d, q) && client.env == q.env && client.issued == q.base + 1
      requires q.name != "" && IdsParse(q, |q.ids|) && d.cluster == NO_CLUSTER
      modifies client
      ensures err.Some? ==> client.at == CreateFails(err.value)
      ensures err.Some? ==> Decides(q, err.value) && err.value != StorageFailed && err.value != SaveFailed
      ensures err.None? ==> PassesAll(q) && forall e :: !FirstProblem(q, e)
      ensures err.None? ==> client.at == Provisioning(d.(cluster := first), Looking)
      ensures err.None? ==> client.issued == q.base + 1 + 4 * |volumes|
    {
      first := NO_CLUSTER;
      ghost var i: nat;
      err, i := ValidateClaims(volumes, d, q);
      if err.Some? {
        ClaimDecides(q, i, err.value);
        return;
      }
      err, first, i := DiscoverAll(volumes, d, q);
      if err.Some? {
        ClusterDecides(q, i, err.value);
        return;
      }
      NothingFails(q);
    }

    /** Phases 6 to 9. */
    method TakeSnapshot(
      ids: seq<string>, groupId: string, namespace: string, first: ClusterInfo, ghost d: Draft, ghost save: SaveRequest)
      returns (res: Result<CreateResponse, CreateError>)
      requires Valid() && client.at == Provisioning(d, Looking)
      requires d.cfg == cfg && d.ids == ids != [] && d.groupId == groupId
      requires d.Namespace() == namespace && d.cluster == first
      requires save == SaveNow(groupId, namespace)
      modifies client
      ensures client.at == CreateDone(res)
      ensures save.Ends(ids[0], client.issued, res)
    {
      var err, snapshotId, claim := SaveSnapshot(groupId, namespace, d);
      if err.Some? {
        return Err(err.value);
      }
      ghost var d' := d.(snapshotId := snapshotId);
      StoreRecords(ids, groupId, snapshotId, claim, namespace, first, d');
      var response := Respond(ids[0], groupId, snapshotId, d');
      return Ok(response);
    }

    /** Phase 2: the volumes of the leading IDs that parse. */
    method ParseVolumeIds(ids: seq<string>) returns (volumes: seq<Volume>)
      ensures volumes == ParseAll(ids)
    {
      volumes := [];
      for i := 0 to |ids|
        invariant |volumes| == i
        invariant forall k :: 0 <= k < i ==> Parse(ids[k]) == Some(volumes[k])
      {
        var v := ParseVolumeId(ids[i]);
        if v.None? {
          break;
        }
        volumes := volumes + [v.value];
      }
      assert volumes == ParseAll(ids);
    }

    /** Phase 3. */
    method ValidateClaims(volumes: seq<Volume>, ghost d: Draft, ghost q: Request)
      returns (err: Option<CreateError>, ghost i: nat)
      requires d.volumes == volumes != [] && client.at == Validating(d, 0)
      requires Drafts(d, q) && client.env == q.env && client.issued == q.base + 1
      modifies client
      ensures err.Some? ==> client.at == CreateFails(err.value)
      ensures err.Some? ==> i < |volumes| && ClaimsUsable(q, i) && Problem(q, ClaimUsable(i)) == err
      ensures err.None? ==> client.at == ReadingClaim(d, 0) && client.issued == q.base + 1 + |volumes|
      ensures err.None? ==> ClaimsUsable(q, |volumes|)
    {
      for k := 0 to |volumes|
        invariant client.issued == q.base + 1 + k
        invariant client.at == ClaimTurn(d, k)
        invariant ClaimsUsable(q, k)
      {
        ClaimAt(q, k, volumes[k], client.issued);
        var problem := ValidatePVCForGroup(volumes[k].namespace, volumes[k].name);
        if problem.Some? {
          return Some(ClaimRejected(k, problem.value)), k;
        }
      }
      return None, |volumes|;
    }

    method ValidatePVCForGroup(namespace: string, name: string) returns (problem: Option<ClaimProblem>)
      requires !Ended(client.at) && NextCall(client.at) == GetClaim(Key(namespace, name))
      modifies client
      ensures problem == ClaimVerdict(client.env(old(client.issued), GetClaim(Key(namespace, name))))
      ensures ClaimJudged(client.env(old(client.issued), GetClaim(Key(namespace, name))), problem)
      ensures client.issued == old(client.issued) + 1
      ensures client.at ==
        Advance(old(client.at), client.env(old(client.issued), GetClaim(Key(namespace, name))))
    {
      var r := client.Do(GetClaim(Key(namespace, name)));
      if !r.ClaimIs? {
        return Some(ClaimMissing);
      }
      if r.claim.phase != "Bound" {
        return Some(ClaimNotBound);
      }
      var modes, hasWriteAccess := r.claim.accessModes, false;
      for k := 0 to |modes|
        invariant !hasWriteAccess
        invariant "ReadWriteOnce" !in modes[..k] && "ReadWriteMany" !in modes[..k]
      {
        if modes[k] == "ReadWriteOnce" || modes[k] == "ReadWriteMany" {
          hasWriteAccess := true;
          assert modes[k] in r.claim.accessModes;
          break;
        }
      }
      assert modes[..|modes|] == modes;
      if !hasWriteAccess {
        return Some(ClaimNotWritable);
      }
      return None;
    }

    ghost predicate Drafts(d: Draft, q: Request) {
      && d.cfg == cfg == q.cfg && |d.volumes| == |q.ids|
      && forall i :: 0 <= i < |q.ids| ==> q.Vol(i) == d.volumes[i]
    }

    /** Phases 4 and 5. */
    method DiscoverAll(volumes: seq<Volume>, ghost d: Draft, ghost q: Request)
      returns (err: Option<CreateError>, first: ClusterInfo, ghost i: nat)
      requires Valid() && d.volumes == volumes != [] && client.at == ReadingClaim(d, 0)
      requires d.cluster == NO_CLUSTER
      requires Drafts(d, q) && client.env == q.env && client.issued == q.base + 1 + |volumes|
      modifies client
      ensures err.Some? ==> client.at == CreateFails(err.value)
      ensures err.Some? ==> i < |volumes| && ClustersFit(q, i) && Problem(q, ClusterFits(i)) == err
      ensures err.None? ==> client.at == Provisioning(d.(cluster := first), Looking)
      ensures err.None? ==> client.issued == q.base + 1 + 4 * |volumes|
      ensures err.None? ==> ClustersFit(q, |volumes|)
    {
      first := NO_CLUSTER;
      for k := 0 to |volumes|
        invariant client.issued == q.base + 1 + |volumes| + 3 * k
        invariant client.at == ClusterTurn(d.(cluster := first), k)
        invariant k > 0 ==> q.Cluster(0) == Some(first)
        invariant ClustersFit(q, k)
      {
        err, first := CheckCluster(volumes[k], k, first, d.(cluster := first), q);
        if err.Some? {
          return err, first, k;
        }
      }
      return None, first, |volumes|;
    }

    /** The body of the discovery loop for one volume. */
    method CheckCluster(v: Volume, i: nat, first: ClusterInfo, ghost d: Draft, ghost q: Request)
      returns (err: Option<CreateError>, first': ClusterInfo)
      requires Valid() && client.at == ReadingClaim(d, i) && i < |d.volumes| && d.cluster == first
      requires d.cfg == cfg == q.cfg && |d.volumes| == |q.ids| && d.VolumeAt(i) == q.Vol(i) == v
      requires client.env == q.env && client.issued == q.base + 1 + |q.ids| + 3 * i
      requires i > 0 ==> q.Cluster(0) == Some(first)
      modifies client
      ensures err == Problem(q, ClusterFits(i))
      ensures err.Some? ==> client.at == CreateFails(err.value)
      ensures err.None? ==>
        && q.Cluster(0) == Some(first')
        && client.issued == q.base + 1 + |q.ids| + 3 * (i + 1)
        && client.at == ClusterTurn(d.(cluster := first'), i + 1)
    {
      ClusterAt(q, i, v, client.issued);
      var info := discovery.DiscoverCluster(v.namespace, v.name, d, i);
      if info.None? {
        return Some(DiscoveryFailed(i)), first;
      }
      assert i == 0 ==> q.Cluster(i) == q.Cluster(0);
      ghost var problem := Problem(q, ClusterFits(i));
      JudgedProblem(q, i, info.value, first);
      err, first' := JudgeCluster(info.value, i, first, d, q.HealthReply(i));
      assert err == problem;
    }

    /** Health first, then consistency with the first volume's cluster. */
    method JudgeCluster(info: ClusterInfo, i: nat, first: ClusterInfo, ghost d: Draft, ghost reply: Reply)
      returns (err: Option<CreateError>, first': ClusterInfo)
      requires client.at == CheckingHealth(d, i, info) && d.cluster == first
      requires reply == client.env(client.issued, CheckHealth(info.endpoints))
      modifies client
      ensures err == Unfit(i, info, reply, Some(if i == 0 then info else first))
      ensures err.Some? ==> client.at == CreateFails(err.value)
      ensures err.None? ==>
        && first' == (if i == 0 then info else first)
        && client.issued == old(client.issued) + 1
        && client.at == ClusterTurn(d.(cluster := first'), i + 1)
    {
      var healthy := ValidateClusterHealth(info);
      if !healthy {
        return Some(ClusterUnhealthy(i)), first;
      }
      if i == 0 {
        return None, info;
      }
      if info.name != first.name {
        return Some(ClusterMismatch(i)), first;
      }
      if |info.endpoints| != |first.endpoints| {
        return Some(EndpointsDiffer(i)), first;
      }
      assert d == d.(cluster := first);
      return None, first;
    }

    method ValidateClusterHealth(info: ClusterInfo) returns (healthy: bool)
      requires client.at.CheckingHealth? && client.at.info == info
      modifies client
      ensures healthy <==> HealthPasses(info, old(client.env(client.issued, CheckHealth(info.endpoints))))
      ensures client.issued == old(client.issued) + 1
      ensures client.at == Advance(old(client.at), old(client.env(client.issued, CheckHealth(info.endpoints))))
    {
      var r := client.Do(CheckHealth(info.endpoints));
      if !r.Observed? {
        return false;
      }
      var v := Health.ValidateHealth(info.endpoints, r.observation);
      return v.Healthy?;
    }

    ghost function SaveNow(groupId: string, namespace: string): SaveRequest
      reads client
    {
      SaveRequest(client.env, client.issued, namespace, cfg.pvcSizeParses, groupId, snapshotTimeout + client.grace)
    }

    /** Phases 6 and 7: the ID of the saved snapshot and the claim that holds it. */
    method SaveSnapshot(groupId: string, namespace: string, ghost d: Draft)
      returns (err: Option<CreateError>, snapshotId: string, claim: string)
      requires Valid() && client.at == Provisioning(d, Looking)
      requires d.cfg == cfg && d.groupId == groupId && d.Namespace() == namespace
      modifies client
      ensures var save := old(SaveNow(groupId, namespace));
        && (err == Some(StorageFailed) <==> !save.HasClaim())
        && (err == Some(SaveFailed) <==> save.HasClaim() && !save.Saves())
        && (err.None? <==> save.HasClaim() && save.Saves())
        && (err.None? ==> snapshotId == save.Snapshot())
      ensures err.Some? ==> client.at == CreateFails(err.value)
      ensures err.None? ==>
        client.at == StampingRecord(d.(snapshotId := snapshotId)) && claim == SNAPSHOT_CLAIM
    {
      ghost var save := SaveNow(groupId, namespace);
      snapshotId, claim := "", "";
      var made := provisioner.EnsureSnapshotPVC(namespace);
      if made.None? {
        return Some(StorageFailed), "", "";
      }
      claim := made.value;
      assert save.HasClaim() && client.issued == save.Stamp();
      snapshotId := NameSnapshot(groupId, d);
      assert snapshotId == save.Snapshot();
      var saved := RunSave(SaveJob(namespace, snapshotId, claim), d.(snapshotId := snapshotId), save);
      if !saved {
        return Some(SaveFailed), "", "";
      }
      return None, snapshotId, claim;
    }

    method NameSnapshot(groupId: string, ghost d: Draft) returns (snapshotId: string)
      requires client.at == StampingSnapshot(d) && d.groupId == groupId
      modifies client
      ensures snapshotId == Stamped(groupId, Unix(TimeOf(old(client.env(client.issued, Now)))))
      ensures client.issued == old(client.issued) + 1
      ensures var d' := d.(snapshotId := snapshotId); client.at == Saving(d', Creating(d'.Job(), false))
    {
      var r := client.Do(Now);
      return Stamped(groupId, Unix(TimeOf(r)));
    }

    method RunSave(job: JobSpec, ghost d: Draft, ghost save: SaveRequest) returns (saved: bool)
      requires Valid() && client.at == Saving(d, Creating(job, false))
      requires save.env == client.env && save.limit == snapshotTimeout + client.grace
      requires client.issued == save.Stamp() + 1 && job == SaveJob(save.namespace, save.Snapshot(), SNAPSHOT_CLAIM)
      modifies client
      ensures saved <==> save.Saves()
      ensures client.at == if saved then StampingRecord(d) else CreateFails(SaveFailed)
    {
      var verdict, _ := jobExecutor.ExecuteSnapshotJob(job, false, snapshotTimeout);
      return verdict.Succeeded?;
    }

    /** Phase 8. */
    method StoreRecords(
      ids: seq<string>, groupId: string, snapshotId: string, claim: string,
      namespace: string, first: ClusterInfo, ghost d: Draft)
      requires Valid() && client.at == StampingRecord(d) && claim == SNAPSHOT_CLAIM
      requires d.ids == ids != [] && d.groupId == groupId && d.snapshotId == snapshotId
      requires d.Namespace() == namespace && d.cluster == first
      modifies client
      ensures client.at == StampingReply(d)
    {
      var r := client.Do(Now);
      var _ := snapshotManager.StoreSnapshotMetadata(
        SnapshotRecord(snapshotId, ids[0], first.name, TimeOf(r), true, claim, namespace));
      r := client.Do(Now);
      var _ := snapshotManager.StoreGroupSnapshotMetadata(
        GroupRecord(groupId, snapshotId, ids, first.name, claim, namespace, TimeOf(r), true));
    }

    /** Phase 9. */
    method Respond(firstId: string, groupId: string, snapshotId: string, ghost d: Draft)
      returns (response: CreateResponse)
      requires client.at == StampingReply(d)
      requires d.ids != [] && d.ids[0] == firstId && d.groupId == groupId && d.snapshotId == snapshotId
      modifies client
      ensures client.at == CreateDone(Ok(response))
      ensures client.issued == old(client.issued) + 2
      ensures response == CreateResponse(
                groupId, snapshotId, firstId, TimeOf(old(client.env(client.issued, Now))),
                TimeOf(old(client.env(client.issued + 1, Now))), true)
    {
      var r := client.Do(Now);
      var snapshotTime := TimeOf(r);
      r := client.Do(Now);
      return CreateResponse(groupId, snapshotId, firstId, snapshotTime, TimeOf(r), true);
    }

    method DeleteVolumeGroupSnapshot(group: string) returns (ok: bool)
      requires Valid() && client.at == BeginDelete(group)
      modifies client
      ensures client.at == DeleteDone(ok) && (ok <==> group != "")
      ensures group == "" ==> client.issued == old(client.issued)
      ensures group != "" && !HoldsGroup(old(client.env(client.issued, OnGroups(CM.Get))), group) ==>
        client.issued == old(client.issued) + 1
    {
      if group == "" {
        return false;
      }
      var metadata := snapshotManager.RetrieveGroupSnapshotMetadata(group);
      if metadata.None? {
        return true;
      }
      var cleaned := CleanupSnapshot(group, metadata.value.snapshotId);
      var dropped := snapshotManager.DeleteGroupSnapshotMetadata(group);
      return true;
    }

    /** The error this returns is only logged by its caller; cleaned says it is nil. */
    method CleanupSnapshot(ghost group: string, snapshot: string) returns (cleaned: bool)
      requires Valid() && client.at == CleanupFinding(group, snapshot)
      modifies client
      ensures client.at == DropGroup(group)
      ensures var found := FoundSnapshot(snapshot, old(client.env(client.issued, OnSnapshots(CM.Get))));
        cleaned <==> found.None? || CleanupSeen(client.env, old(client.issued) + 1, MINUTE + client.grace, snapshot,
                                      DeleteJob(found.value.namespace, snapshot, found.value.pvcName))
    {
      var metadata := snapshotManager.RetrieveSnapshotMetadata(snapshot);
      if metadata.None? {
        return true;
      }
      var job := DeleteJob(metadata.value.namespace, snapshot, metadata.value.pvcName);
      cleaned := RunCleanup(group, snapshot, job, old(client.issued) + 1);
    }

    method RunCleanup(ghost group: string, snapshot: string, job: JobSpec, ghost n: nat) returns (cleaned: bool)
      requires Valid() && client.at == CleanupCreating(group, snapshot, job) && client.issued == n
      modifies client
      ensures client.at == DropGroup(group)
      ensures cleaned <==> CleanupSeen(client.env, n, MINUTE + client.grace, snapshot, job)
    {
      var r := client.Do(CreateJob(job, false));
      if r != Reply.Created {
        return false;
      }
      cleaned := AwaitCleanup(group, snapshot, job, n + 1);
    }

    /** The created job, version and all, goes on to the executor. */
    method AwaitCleanup(ghost group: string, snapshot: string, job: JobSpec, ghost n: nat) returns (cleaned: bool)
      requires Valid() && client.at == CleanupRunning(group, snapshot, Creating(job, true)) && client.issued == n
      modifies client
      ensures client.at == DropGroup(group)
      ensures cleaned <==> CleanupThrough(client.env, n, MINUTE + client.grace, snapshot, job)
    {
      ghost var polls: nat;
      var verdict;
      verdict, polls := jobExecutor.ExecuteSnapshotJob(job, true, MINUTE);
      WaitDecidesCleanup(client.env, n, MINUTE + client.grace, snapshot, job, polls, verdict);
      if !verdict.Succeeded? {
        return false;
      }
      cleaned := snapshotManager.DeleteSnapshotMetadata(snapshot);
    }

    method GetVolumeGroupSnapshot(group: string) returns (res: Result<GetResponse, GetError>)
      requires Valid() && client.at == BeginGet(group)
      modifies client
      ensures client.at == GetDone(res)
      ensures GetAnswers(group, old(client.env(client.issued, OnGroups(CM.Get))),
                old(client.env(client.issued + 1, OnSnapshots(CM.Get))), res)
    {
      if group == "" {
        return Err(IdRequired);
      }
      var metadata := snapshotManager.RetrieveGroupSnapshotMetadata(group);
      if metadata.None? {
        return Err(GroupNotFound);
      }
      var record := metadata.value;
      var details := snapshotManager.RetrieveSnapshotMetadata(record.snapshotId);
      var creationTime := record.creationTime;
      if details.Some? {
        creationTime := details.value.creationTime;
      }
      if |record.sourceVolumeIds| == 0 {
        return Err(IndexOutOfRange);
      }
      return Ok(GetResponse(group, record.snapshotId, record.sourceVolumeIds[0], creationTime, record.readyToUse));
    }
  }
}
