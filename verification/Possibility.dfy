/** What can come to pass after any history: a Create that goes through undisturbed,
    and a Create that answers without error although nothing is on record. */
module Possibility {
  import opened Identifiers
  import opened Api
  import opened Wrappers
  import opened Machine
  import opened Protocol
  import opened Files
  import opened Records
  import opened Orphans
  import opened Lifecycle
  import opened Creation
  import opened Paths
  import CM = ConfigMaps
  import Health

  const CLUSTER := "etcd"
  const POD := "etcd-0"

  /** A request that no check on the request itself turns down. */
  predicate WellFormed(q: CreateRequest) {
    q.name != "" && q.ids != [] && |ParseAll(q.ids)| == |q.ids|
  }

  function GoodClaim(cfg: Config): Claim {
    Claim("Bound", ["ReadWriteOnce"], map[cfg.clusterLabelKey := CLUSTER])
  }

  predicate HasGood(cfg: Config, s: Store, key: Key) {
    key in s.claims && s.claims[key] == GoodClaim(cfg)
  }

  /** Every claim the draft needs is there, bound, writable and labelled. */
  ghost predicate ClaimsGood(d: Draft, s: Store) {
    && (forall i: nat :: i < |d.volumes| ==> HasGood(d.cfg, s, VolumeKey(d.VolumeAt(i))))
    && HasGood(d.cfg, s, SnapshotClaimKey(d))
  }

  /** All that is new in the log is RPC id's own, or a job's. */
  ghost predicate OnlyOwn(s: System, s': System, id: nat) {
    forall e <- s'.log :: e in s.log || e.JobRan? || e.JobExpired? || e.rpc == id
  }

  ghost predicate IsAt(s: System, id: nat, r: Rpc, store: Store) {
    id in s.rpcs && s.rpcs[id] == r && s.store == store
  }

  /** From s, nothing but the steps of RPC id and the jobs of its group lead to s', where
      the RPC is at r. */
  ghost predicate Gets(s: System, id: nat, g: string, s': System, r: Rpc, store: Store) {
    Reaches(Alone(id, g), s, s') && IsAt(s', id, r, store) && OnlyOwn(s, s', id)
  }

  lemma OwnEvents(id: nat, r: Rpc, reply: Reply)
    requires !Ended(r)
    ensures forall e <- EventOf(id, r, reply) :: RpcOf(e, id)
  {
  }

  /** One reply takes the RPC one call further. */
  lemma Onwards(s: System, id: nat, g: string, t: System, r: Rpc, mid: Store, reply: Reply, store: Store)
    returns (s': System)
    requires Gets(s, id, g, t, r, mid) && !Ended(r) && Processed(mid, NextCall(r), reply, store)
    ensures Gets(s, id, g, s', Advance(r, reply), store)
  {
    s' := AfterReply(t, id, reply, store);
    OwnEvents(id, r, reply);
    ReplyReaches(Alone(id, g), t, id, reply, store);
    ReachesOnwards(Alone(id, g), s, t, s');
  }

  lemma Nowhere(s: System, id: nat, g: string)
    requires id in s.rpcs
    ensures Gets(s, id, g, s, s.rpcs[id], s.store)
  {
    ReachesItself(Alone(id, g), s);
  }

  /* ----- the checks ----- */

  lemma ClaimPasses(d: Draft, i: nat, store: Store)
    requires i < |d.volumes| && ClaimsGood(d, store)
    ensures Processed(store, NextCall(Validating(d, i)), ClaimIs(GoodClaim(d.cfg)), store)
    ensures Advance(Validating(d, i), ClaimIs(GoodClaim(d.cfg))) == ClaimTurn(d, i + 1)
  {
    assert HasGood(d.cfg, store, VolumeKey(d.VolumeAt(i)));
  }

  lemma {:induction false} ClaimsPass(s: System, id: nat, g: string, t: System, d: Draft, i: nat, store: Store)
    returns (s': System)
    requires Gets(s, id, g, t, Validating(d, i), store) && i < |d.volumes| && ClaimsGood(d, store)
    ensures Gets(s, id, g, s', ReadingClaim(d, 0), store)
    decreases |d.volumes| - i
  {
    ClaimPasses(d, i, store);
    s' := Onwards(s, id, g, t, Validating(d, i), store, ClaimIs(GoodClaim(d.cfg)), store);
    if i + 1 < |d.volumes| {
      s' := ClaimsPass(s, id, g, s', d, i + 1, store);
    }
  }

  function GoodCluster(namespace: string): ClusterInfo {
    ClusterInfo(CLUSTER, namespace, Endpoints([POD], namespace))
  }

  function GoodObservation(): Health.Observation {
    Health.Listed(1, [Health.Member(1, false, ["https://etcd-0:2379"], true)])
  }

  lemma KeepsOne(w: Health.Want, m: Health.Member)
    requires w.Of(m)
    ensures Health.Keep(w, [m]) == [m]
  {
    var ms := [m];
    assert ms[|ms| - 1] == m && ms[..|ms| - 1] == [];
    assert Health.Keep(w, ms) == Health.Keep(w, ms[..|ms| - 1]) + [m];
    assert Health.Keep(w, []) == [];
  }

  lemma GoodIsAccepted(endpoints: seq<string>)
    requires endpoints != []
    ensures Health.Accepts(endpoints, GoodObservation())
  {
    var m := Health.Member(1, false, ["https://etcd-0:2379"], true);
    KeepsOne(Health.Voter, m);
    KeepsOne(Health.HealthyVoter, m);
    assert m in GoodObservation().members && Health.Voting(m);
  }

  lemma LabelRuns(d: Draft, i: nat, store: Store)
    requires i < |d.volumes| && ClaimsGood(d, store)
    ensures Processed(store, NextCall(ReadingClaim(d, i)), ClaimIs(GoodClaim(d.cfg)), store)
    ensures Advance(ReadingClaim(d, i), ClaimIs(GoodClaim(d.cfg))) == ListingPods(d, i, CLUSTER)
  {
    assert HasGood(d.cfg, store, VolumeKey(d.VolumeAt(i)));
  }

  lemma PodsRun(d: Draft, i: nat, store: Store)
    ensures Processed(store, NextCall(ListingPods(d, i, CLUSTER)), PodsAre([POD]), store)
    ensures Advance(ListingPods(d, i, CLUSTER), PodsAre([POD])) ==
      CheckingHealth(d, i, GoodCluster(d.VolumeAt(i).namespace))
  {
  }

  lemma HealthRuns(d: Draft, i: nat, store: Store)
    requires i > 0 ==> SameCluster(d.cluster, GoodCluster(d.VolumeAt(i).namespace))
    ensures var r := CheckingHealth(d, i, GoodCluster(d.VolumeAt(i).namespace));
      && Processed(store, NextCall(r), Observed(GoodObservation()), store)
      && Advance(r, Observed(GoodObservation())) ==
         ClusterTurn(if i == 0 then d.(cluster := GoodCluster(d.VolumeAt(0).namespace)) else d, i + 1)
  {
    GoodIsAccepted(GoodCluster(d.VolumeAt(i).namespace).endpoints);
  }

  lemma ClusterIsFound(s: System, id: nat, g: string, t: System, d: Draft, i: nat, store: Store)
    returns (s': System)
    requires Gets(s, id, g, t, ReadingClaim(d, i), store) && i < |d.volumes| && ClaimsGood(d, store)
    ensures Gets(s, id, g, s', CheckingHealth(d, i, GoodCluster(d.VolumeAt(i).namespace)), store)
  {
    LabelRuns(d, i, store);
    PodsRun(d, i, store);
    s' := Onwards(s, id, g, t, ReadingClaim(d, i), store, ClaimIs(GoodClaim(d.cfg)), store);
    s' := Onwards(s, id, g, s', ListingPods(d, i, CLUSTER), store, PodsAre([POD]), store);
  }

  lemma ClusterPasses(s: System, id: nat, g: string, t: System, d: Draft, i: nat, store: Store)
    returns (s': System, d': Draft)
    requires Gets(s, id, g, t, ReadingClaim(d, i), store) && i < |d.volumes| && ClaimsGood(d, store)
    requires i > 0 ==> d.cluster == GoodCluster(d.VolumeAt(0).namespace)
    ensures Gets(s, id, g, s', ClusterTurn(d', i + 1), store)
    ensures d' == d.(cluster := GoodCluster(d.VolumeAt(0).namespace))
  {
    var r := CheckingHealth(d, i, GoodCluster(d.VolumeAt(i).namespace));
    d' := if i == 0 then d.(cluster := GoodCluster(d.VolumeAt(0).namespace)) else d;
    s' := ClusterIsFound(s, id, g, t, d, i, store);
    HealthRuns(d, i, store);
    s' := Onwards(s, id, g, s', r, store, Observed(GoodObservation()), store);
  }

  lemma {:induction false} ClustersPass(s: System, id: nat, g: string, t: System, d: Draft, i: nat, store: Store)
    returns (s': System, d': Draft)
    requires Gets(s, id, g, t, ReadingClaim(d, i), store) && i < |d.volumes| && ClaimsGood(d, store)
    requires i > 0 ==> d.cluster == GoodCluster(d.VolumeAt(0).namespace)
    ensures Gets(s, id, g, s', Provisioning(d', Looking), store)
    ensures d' == d.(cluster := GoodCluster(d.VolumeAt(0).namespace))
    decreases |d.volumes| - i
  {
    s', d' := ClusterPasses(s, id, g, t, d, i, store);
    if i + 1 < |d.volumes| {
      assert ClaimsGood(d', store) by {
        assert forall k: nat :: k < |d.volumes| ==> HasGood(d.cfg, store, VolumeKey(d.VolumeAt(k)));
        assert forall k: nat :: d'.VolumeAt(k) == d.VolumeAt(k);
      }
      s', d' := ClustersPass(s, id, g, s', d', i + 1, store);
    }
  }

  /* ----- the save ----- */

  function JobStore(store: Store, step: Step): Store
    requires OnJob(step) && step.key in store.jobs
  {
    var job := store.jobs[step.key];
    store.(
      jobs := store.jobs[step.key := Moved(step, job)],
      files := if step.Run? then Effect(job.spec, store.files) else store.files)
  }

  /** A job of the group moves while the RPC waits. */
  lemma JobMoves(s: System, id: nat, g: string, t: System, r: Rpc, mid: Store, step: Step) returns (s': System)
    requires Gets(s, id, g, t, r, mid) && (step.Run? || step.Succeed?) && step.key in mid.jobs
    requires SnapshotOf(g, mid.jobs[step.key].spec.snapshotId) && MayMove(step, mid.jobs[step.key])
    ensures Gets(s, id, g, s', r, JobStore(mid, step))
  {
    s' := System(JobStore(mid, step), t.rpcs, t.log + JobEvents(step));
    assert JobActs(t, step, s');
    ReachesOneMore(Alone(id, g), s, t, step, s');
  }

  lemma SaveNameIsFree(log: seq<Event>, d: Draft, store: Store)
    requires StoreFits(log, store) && Fresh(d.groupId, store) && SnapshotOf(d.groupId, d.snapshotId)
    ensures JobKey(d.Job()) !in store.jobs
  {
    var key := JobKey(d.Job());
    if key in store.jobs {
      assert JobFits(log, key, store.jobs[key]);
      KeyNamesTheSpec(log, key, store.jobs[key], d.Job());
      assert false;
    }
  }

  lemma ProvisioningPasses(d: Draft, store: Store)
    requires ClaimsGood(d, store)
    ensures Processed(store, NextCall(Provisioning(d, Looking)), ClaimIs(GoodClaim(d.cfg)), store)
    ensures Advance(Provisioning(d, Looking), ClaimIs(GoodClaim(d.cfg))) == StampingSnapshot(d)
  {
  }

  /** The draft once its snapshot has its ID. */
  function Snapped(d: Draft, now: nat): Draft {
    d.(snapshotId := Stamped(d.groupId, Unix(now)))
  }

  function WithSaveJob(d: Draft, store: Store): Store {
    store.(jobs := store.jobs[JobKey(d.Job()) := Job(d.Job(), false, 0, 0)])
  }

  /** The claim is there, and the snapshot gets its ID. */
  lemma SnapshotIsNamed(s: System, id: nat, g: string, t: System, d: Draft, store: Store) returns (s': System)
    requires Gets(s, id, g, t, Provisioning(d, Looking), store) && ClaimsGood(d, store)
    ensures var d' := Snapped(d, store.clock); Gets(s, id, g, s', Saving(d', Creating(d'.Job(), false)), store)
  {
    ProvisioningPasses(d, store);
    s' := Onwards(s, id, g, t, Provisioning(d, Looking), store, ClaimIs(GoodClaim(d.cfg)), store);
    s' := Onwards(s, id, g, s', StampingSnapshot(d), store, Time(store.clock), store);
  }

  lemma SaveStarts(s: System, id: nat, t: System, d: Draft, store: Store, log: seq<Event>) returns (s': System)
    requires Gets(s, id, d.groupId, t, Provisioning(d, Looking), store) && ClaimsGood(d, store)
    requires StoreFits(log, store) && Fresh(d.groupId, store)
    ensures var d' := Snapped(d, store.clock);
      && JobKey(d'.Job()) !in store.jobs
      && Gets(s, id, d.groupId, s', Saving(d', Awaiting(d'.Job())), WithSaveJob(d', store))
  {
    var d' := Snapped(d, store.clock);
    var r := Saving(d', Creating(d'.Job(), false));
    SaveNameIsFree(log, d', store);
    s' := SnapshotIsNamed(s, id, d.groupId, t, d, store);
    s' := Onwards(s, id, d.groupId, s', r, store, Reply.Created, WithSaveJob(d', store));
  }

  /** The store once the job has run and succeeded. */
  function WithSaveDone(d: Draft, store: Store): Store {
    JobStore(JobStore(WithSaveJob(d, store), Step.Run(JobKey(d.Job()))), Step.Succeed(JobKey(d.Job())))
  }

  lemma SaveRuns(s: System, id: nat, t: System, d: Draft, store: Store) returns (s': System)
    requires Gets(s, id, d.groupId, t, Saving(d, Awaiting(d.Job())), WithSaveJob(d, store))
    requires SnapshotOf(d.groupId, d.snapshotId)
    ensures Gets(s, id, d.groupId, s', Saving(d, Awaiting(d.Job())), WithSaveDone(d, store))
  {
    var g, r, key := d.groupId, Saving(d, Awaiting(d.Job())), JobKey(d.Job());
    s' := JobMoves(s, id, g, t, r, WithSaveJob(d, store), Step.Run(key));
    s' := JobMoves(s, id, g, s', r, JobStore(WithSaveJob(d, store), Step.Run(key)), Step.Succeed(key));
  }

  lemma SaveIsSeen(s: System, id: nat, g: string, t: System, d: Draft, store: Store) returns (s': System)
    requires Gets(s, id, g, t, Saving(d, Awaiting(d.Job())), store)
    requires JobKey(d.Job()) in store.jobs && store.jobs[JobKey(d.Job())].succeeded > 0
    ensures Gets(s, id, g, s', StampingRecord(d), store)
  {
    var job := store.jobs[JobKey(d.Job())];
    s' := Onwards(s, id, g, t, Saving(d, Awaiting(d.Job())), store, Tick, store);
    s' := Onwards(s, id, g, s', Saving(d, Polling(d.Job())), store, JobIs(job.succeeded, job.failed), store);
  }

  /* ----- the records and the answer ----- */

  function Looked<R>(req: CM.Request<R>, cm: CM.ConfigMap<R>): CM.Proc<R> {
    CM.Proc(req, if cm.Present? then CM.Updating(cm.data, cm.version) else CM.Creating)
  }

  lemma StoreSucceeds<R>(req: CM.Request<R>, cm: CM.ConfigMap<R>)
    requires req.Store?
    ensures CM.Advance(CM.Begin(req), CM.Serve(cm, CM.Get).1) == Looked(req, cm)
    ensures CM.Serve(cm, CM.Get).0 == cm && CM.Serve(cm, CM.NextCall(Looked(req, cm))).1 == CM.Written
    ensures CM.Advance(Looked(req, cm), CM.Written) == CM.Proc(req, CM.Ended(CM.Wrote))
  {
  }

  lemma SnapshotsAreRead(
    s: System, id: nat, g: string, t: System, d: Draft, req: CM.Request<SnapshotRecord>, store: Store)
    returns (s': System)
    requires req.Store? && Gets(s, id, g, t, StoringSnapshot(d, CM.Begin(req)), store)
    ensures Gets(s, id, g, s', StoringSnapshot(d, Looked(req, store.snapshots)), store)
  {
    StoreSucceeds(req, store.snapshots);
    s' := Onwards(s, id, g, t, StoringSnapshot(d, CM.Begin(req)), store,
      Snapshots(CM.Serve(store.snapshots, CM.Get).1), store);
  }

  lemma SnapshotIsWritten(
    s: System, id: nat, g: string, t: System, d: Draft, req: CM.Request<SnapshotRecord>, store: Store)
    returns (s': System, store': Store)
    requires req.Store? && Gets(s, id, g, t, StoringSnapshot(d, Looked(req, store.snapshots)), store)
    ensures Gets(s, id, g, s', StampingGroup(d), store')
  {
    var looked := Looked(req, store.snapshots);
    StoreSucceeds(req, store.snapshots);
    store' := store.(snapshots := CM.Serve(store.snapshots, CM.NextCall(looked)).0);
    s' := Onwards(s, id, g, t, StoringSnapshot(d, looked), store, Snapshots(CM.Written), store');
  }

  lemma GroupsAreRead(
    s: System, id: nat, g: string, t: System, d: Draft, req: CM.Request<GroupRecord>, store: Store)
    returns (s': System)
    requires req.Store? && Gets(s, id, g, t, StoringGroup(d, CM.Begin(req)), store)
    ensures Gets(s, id, g, s', StoringGroup(d, Looked(req, store.groups)), store)
  {
    StoreSucceeds(req, store.groups);
    s' := Onwards(s, id, g, t, StoringGroup(d, CM.Begin(req)), store,
      Groups(CM.Serve(store.groups, CM.Get).1), store);
  }

  lemma GroupIsWritten(
    s: System, id: nat, g: string, t: System, d: Draft, req: CM.Request<GroupRecord>, store: Store)
    returns (s': System, store': Store)
    requires req.Store? && Gets(s, id, g, t, StoringGroup(d, Looked(req, store.groups)), store)
    ensures Gets(s, id, g, s', StampingReply(d), store')
  {
    var looked := Looked(req, store.groups);
    StoreSucceeds(req, store.groups);
    store' := store.(groups := CM.Serve(store.groups, CM.NextCall(looked)).0);
    s' := Onwards(s, id, g, t, StoringGroup(d, looked), store, Groups(CM.Written), store');
  }

  lemma SnapshotIsStored(s: System, id: nat, g: string, t: System, d: Draft, store: Store)
    returns (s': System, store': Store)
    requires Gets(s, id, g, t, StampingRecord(d), store)
    ensures Gets(s, id, g, s', StampingGroup(d), store')
  {
    var req := CM.Store(d.snapshotId, SnapshotRecordOf(d, store.clock));
    s' := Onwards(s, id, g, t, StampingRecord(d), store, Time(store.clock), store);
    s' := SnapshotsAreRead(s, id, g, s', d, req, store);
    s', store' := SnapshotIsWritten(s, id, g, s', d, req, store);
  }

  lemma GroupIsStored(s: System, id: nat, g: string, t: System, d: Draft, store: Store)
    returns (s': System, store': Store)
    requires Gets(s, id, g, t, StampingGroup(d), store)
    ensures Gets(s, id, g, s', StampingReply(d), store')
  {
    var req := CM.Store(d.groupId, GroupRecordOf(d, store.clock));
    s' := Onwards(s, id, g, t, StampingGroup(d), store, Time(store.clock), store);
    s' := GroupsAreRead(s, id, g, s', d, req, store);
    s', store' := GroupIsWritten(s, id, g, s', d, req, store);
  }

  lemma CreateAnswers(s: System, id: nat, g: string, t: System, d: Draft, store: Store)
    returns (s': System, store': Store, answer: CreateResponse)
    requires Gets(s, id, g, t, StampingRecord(d), store)
    ensures Gets(s, id, g, s', CreateDone(Ok(answer)), store')
  {
    var mid: Store;
    s', mid := SnapshotIsStored(s, id, g, t, d, store);
    s', store' := GroupIsStored(s, id, g, s', d, mid);
    answer := ResponseOf(d, store'.clock, store'.clock);
    s' := Onwards(s, id, g, s', StampingReply(d), store', Time(store'.clock), store');
    s' := Onwards(s, id, g, s', StampingGroupReply(d, store'.clock), store', Time(store'.clock), store');
  }

  /* ----- a Create as it should go ----- */

  /** A group ID has just been given out, and everything is as the Create needs it. */
  ghost predicate Prepared(s: System, id: nat, d: Draft) {
    && id in s.rpcs && s.rpcs[id] == Validating(d, 0) && |d.volumes| > 0
    && ClaimsGood(d, s.store) && Fresh(d.groupId, s.store) && StoreFits(s.log, s.store)
  }

  lemma GoodForSame(d: Draft, d': Draft, store: Store)
    requires ClaimsGood(d, store) && d'.volumes == d.volumes && d'.cfg == d.cfg
    ensures ClaimsGood(d', store)
  {
    forall i: nat | i < |d'.volumes| ensures HasGood(d'.cfg, store, VolumeKey(d'.VolumeAt(i))) {
      assert HasGood(d.cfg, store, VolumeKey(d.VolumeAt(i)));
    }
  }

  /** It gets as far as its first record. */
  lemma SaveGoesThrough(s: System, id: nat, d: Draft) returns (s': System, d': Draft, store: Store)
    requires Prepared(s, id, d)
    ensures Gets(s, id, d.groupId, s', StampingRecord(d'), store)
    ensures d'.groupId == d.groupId && SnapshotOf(d.groupId, d'.snapshotId)
  {
    var g, mid := d.groupId, d;
    Nowhere(s, id, g);
    s' := ClaimsPass(s, id, g, s, d, 0, s.store);
    s', mid := ClustersPass(s, id, g, s', d, 0, s.store);
    GoodForSame(d, mid, s.store);
    s' := SaveStarts(s, id, s', mid, s.store, s.log);
    d' := Snapped(mid, s.store.clock);
    store := WithSaveDone(d', s.store);
    s' := SaveRuns(s, id, s', d', s.store);
    s' := SaveIsSeen(s, id, g, s', d', store);
  }

  lemma CreateGoesThrough(s: System, id: nat, d: Draft) returns (s': System)
    requires Prepared(s, id, d)
    ensures Reaches(Alone(id, d.groupId), s, s')
    ensures id in s'.rpcs && s'.rpcs[id].CreateDone? && s'.rpcs[id].created.Ok?
  {
    var d', mid, store, answer;
    s', d', mid := SaveGoesThrough(s, id, d);
    s', store, answer := CreateAnswers(s, id, d.groupId, s', d', mid);
  }

  /* ----- after any run ----- */

  function ClaimKeys(d: Draft): set<Key> {
    (set v | v in d.volumes :: VolumeKey(v)) + {SnapshotClaimKey(d)}
  }

  function GoodClaims(cfg: Config, ids: seq<string>): map<Key, Claim> {
    map key | key in ClaimKeys(NewDraft(cfg, "", ids, 0)) :: GoodClaim(cfg)
  }

  lemma GoodClaimsAreGood(q: CreateRequest, now: nat, store: Store)
    requires WellFormed(q) && store.claims == GoodClaims(q.cfg, q.ids)
    ensures ClaimsGood(NewDraft(q.cfg, q.name, q.ids, now), store)
  {
    var d := NewDraft(q.cfg, q.name, q.ids, now);
    forall i: nat | i < |d.volumes| ensures HasGood(d.cfg, store, VolumeKey(d.VolumeAt(i))) {
      assert d.volumes[i] in d.volumes;
    }
  }

  /** The RPC has arrived with q, in a second that no Create was given yet with this name. */
  ghost predicate Arrived(s: System, id: nat, q: CreateRequest) {
    && id in s.rpcs && s.rpcs[id] == BeginCreate(q.cfg, q.name, q.ids)
    && Unused(s.log, q.name, Unix(s.store.clock))
  }

  ghost predicate AboutToStart(s: System, id: nat, q: CreateRequest) {
    Arrived(s, id, q) && s.store.claims == GoodClaims(q.cfg, q.ids)
  }

  lemma RequestArrives(s: System, id: nat, q: CreateRequest) returns (s': System)
    requires LogFits(s) && id !in s.rpcs
    ensures Reaches(Anyhow, s, s') && AboutToStart(s', id, q)
  {
    var now, claims, r := s.store.clock + SECOND, GoodClaims(q.cfg, q.ids), BeginCreate(q.cfg, q.name, q.ids);
    var later := s.(store := s.store.(clock := now));
    var ready := later.(store := later.store.(claims := claims));
    s' := ready.(rpcs := ready.rpcs[id := r]);
    ReachesItself(Anyhow, s);
    ReachesOneMore(Anyhow, s, s, Step.Clock(now), later);
    ReachesOneMore(Anyhow, s, later, Step.Claims(claims), ready);
    ReachesOneMore(Anyhow, s, ready, Step.Arrive(id, r), s');
  }

  /** Its first step gives it its group. */
  ghost function Begun(s: System, id: nat): System
    requires id in s.rpcs && !Ended(s.rpcs[id])
  {
    AfterReply(s, id, Time(s.store.clock), s.store)
  }

  lemma GroupIsGiven(s: System, id: nat, q: CreateRequest) returns (d: Draft)
    requires Inv(s) && AboutToStart(s, id, q) && WellFormed(q)
    ensures Prepared(Begun(s, id), id, d) && d.groupId == GroupId(q.name, Unix(s.store.clock))
    ensures Begun(s, id).log == s.log + [GroupStamped(id, q, Unix(s.store.clock))]
    ensures Next(s, Step.Serve(id, Time(s.store.clock)), Begun(s, id))
    ensures Solo(s, Step.Serve(id, Time(s.store.clock)), Begun(s, id), id, d.groupId)
  {
    d := NewDraft(q.cfg, q.name, q.ids, s.store.clock);
    UnusedIsUnknown(s.log, q.name, Unix(s.store.clock));
    UnknownIsFresh(s, d.groupId);
    GoodClaimsAreGood(q, s.store.clock, s.store);
    StoreFitsGrows(s.log, [GroupStamped(id, q, Unix(s.store.clock))], s.store);
  }

  function GroupOf(s: System, q: CreateRequest): string {
    GroupId(q.name, Unix(s.store.clock))
  }

  /** Step i is RPC id's own, and the one that gives it its group. */
  ghost predicate StartsAt(run: seq<System>, steps: seq<Step>, i: nat, id: nat, q: CreateRequest)
    requires i < |steps| < |run|
  {
    && Arrived(run[i], id, q) && steps[i].Serve? && steps[i].id == id
    && SoloAt(run, steps, i, id, GroupOf(run[i], q))
  }

  /** The group's draft, when everything is as the Create needs it. */
  ghost predicate Starts(s: System, id: nat, q: CreateRequest, s': System, d: Draft) {
    && Prepared(s', id, d) && d.groupId == GroupOf(s, q)
    && s'.log == s.log + [GroupStamped(id, q, Unix(s.store.clock))]
  }

  lemma RequestCanArrive(run: seq<System>, steps: seq<Step>, id: nat, q: CreateRequest)
    returns (run': seq<System>, steps': seq<Step>)
    requires IsRun(run, steps) && id !in run[|steps|].rpcs
    ensures Continues(run, steps, run', steps') && AboutToStart(run'[|steps'|], id, q)
  {
    RunKeepsInv(run, steps, |steps|);
    var s := RequestArrives(run[|steps|], id, q);
    run', steps' := RunReaches(Anyhow, run, steps, s);
  }

  lemma GroupCanBeGiven(run: seq<System>, steps: seq<Step>, id: nat, q: CreateRequest)
    returns (run': seq<System>, steps': seq<Step>, d: Draft)
    requires IsRun(run, steps) && AboutToStart(run[|steps|], id, q) && WellFormed(q)
    ensures Continues(run, steps, run', steps') && |steps'| == |steps| + 1
    ensures StartsAt(run', steps', |steps|, id, q) && Starts(run[|steps|], id, q, run'[|steps'|], d)
  {
    var s := run[|steps|];
    var s', step := Begun(s, id), Step.Serve(id, Time(s.store.clock));
    RunKeepsInv(run, steps, |steps|);
    d := GroupIsGiven(s, id, q);
    RunsOneMore(run, steps, step, s');
    run', steps' := run + [s'], steps + [step];
  }

  lemma CreateCanStart(run: seq<System>, steps: seq<Step>, id: nat, q: CreateRequest)
    returns (run': seq<System>, steps': seq<Step>, i: nat, d: Draft)
    requires IsRun(run, steps) && id !in run[|steps|].rpcs && WellFormed(q)
    ensures Continues(run, steps, run', steps') && |steps| <= i && |steps'| == i + 1
    ensures StartsAt(run', steps', i, id, q) && Starts(run'[i], id, q, run'[i + 1], d)
  {
    var before, beforeSteps := RequestCanArrive(run, steps, id, q);
    i := |beforeSteps|;
    run', steps', d := GroupCanBeGiven(before, beforeSteps, id, q);
    ContinuesOnwards(run, steps, before, beforeSteps, run', steps');
    assert run'[i] == before[i];
  }

  lemma AloneFromItsStart(run: seq<System>, steps: seq<Step>, i: nat, id: nat, q: CreateRequest)
    requires IsRun(run, steps) && i < |steps| && StartsAt(run, steps, i, id, q)
    requires Undisturbed(run, steps, i + 1, |steps|, id, GroupOf(run[i], q))
    requires id in run[|steps|].rpcs && run[|steps|].rpcs[id].CreateDone? && run[|steps|].rpcs[id].created.Ok?
    ensures CreatesAlone(run, steps, i, |steps|, id, q.name)
  {
    forall k: nat | i <= k < |steps| ensures SoloAt(run, steps, k, id, GroupOf(run[i], q)) {
      assert k > i ==> SoloAt(run, steps, k, id, GroupOf(run[i], q));
    }
  }

  lemma StartedCanSucceed(run: seq<System>, steps: seq<Step>, i: nat, id: nat, q: CreateRequest, d: Draft)
    returns (run': seq<System>, steps': seq<Step>)
    requires IsRun(run, steps) && |steps| == i + 1
    requires StartsAt(run, steps, i, id, q) && Starts(run[i], id, q, run[i + 1], d)
    ensures Continues(run, steps, run', steps') && CreatesAlone(run', steps', i, |steps'|, id, q.name)
  {
    var end := CreateGoesThrough(run[i + 1], id, d);
    run', steps' := RunReaches(Alone(id, d.groupId), run, steps, end);
    FollowingIsUndisturbed(Alone(id, d.groupId), run', steps', i + 1);
    assert run'[i] == run[i] && run'[i + 1] == run[i + 1] && steps'[i] == steps[i];
    AloneFromItsStart(run', steps', i, id, q);
  }

  /** After any run, for any request that no check on the request itself turns down and
      whatever ID it arrives under: the run goes on to one in which the request is
      given a new group, is not disturbed, and is answered without error. */
  lemma CreateCanSucceed(run: seq<System>, steps: seq<Step>, id: nat, q: CreateRequest)
    returns (run': seq<System>, steps': seq<Step>, i: nat)
    requires IsRun(run, steps) && id !in run[|steps|].rpcs && WellFormed(q)
    ensures Continues(run, steps, run', steps') && |steps| <= i
    ensures CreatesAlone(run', steps', i, |steps'|, id, q.name)
    ensures run'[i].rpcs[id] == BeginCreate(q.cfg, q.name, q.ids)
  {
    var begun, begunSteps, d;
    begun, begunSteps, i, d := CreateCanStart(run, steps, id, q);
    run', steps' := StartedCanSucceed(begun, begunSteps, i, id, q, d);
    ContinuesOnwards(run, steps, begun, begunSteps, run', steps');
    assert run'[i] == begun[i];
  }

  /* ----- an answer without a record ----- */

  /** RPC id comes to r, and neither the store nor the log has changed since s. */
  ghost predicate Silently(s: System, id: nat, s': System, r: Rpc) {
    Reaches(Anyhow, s, s') && IsAt(s', id, r, s.store) && s'.log == s.log
  }

  lemma OneMoreSilently(s: System, id: nat, t: System, r: Rpc, reply: Reply) returns (s': System)
    requires Silently(s, id, t, r) && !Ended(r) && Exec(s.store, NextCall(r), reply, s.store)
    requires EventOf(id, r, reply) == []
    ensures Silently(s, id, s', Advance(r, reply))
  {
    s' := AfterReply(t, id, reply, s.store);
    ReplyReaches(Anyhow, t, id, reply, s.store);
    ReachesOnwards(Anyhow, s, t, s');
  }

  lemma SnapshotStoreCanFail(s: System, id: nat, t: System, d: Draft) returns (s': System)
    requires Silently(s, id, t, StampingRecord(d))
    ensures Silently(s, id, s', StampingGroup(d))
  {
    var req := CM.Store(d.snapshotId, SnapshotRecordOf(d, s.store.clock));
    s' := OneMoreSilently(s, id, t, StampingRecord(d), Time(s.store.clock));
    s' := OneMoreSilently(s, id, s', StoringSnapshot(d, CM.Begin(req)), Snapshots(CM.Error(CM.Other)));
    s' := OneMoreSilently(s, id, s', StoringSnapshot(d, CM.Proc(req, CM.Creating)), Snapshots(CM.Error(CM.Other)));
  }

  lemma GroupStoreCanFail(s: System, id: nat, t: System, d: Draft) returns (s': System)
    requires Silently(s, id, t, StampingGroup(d))
    ensures Silently(s, id, s', StampingReply(d))
  {
    var req := CM.Store(d.groupId, GroupRecordOf(d, s.store.clock));
    s' := OneMoreSilently(s, id, t, StampingGroup(d), Time(s.store.clock));
    s' := OneMoreSilently(s, id, s', StoringGroup(d, CM.Begin(req)), Groups(CM.Error(CM.Other)));
    s' := OneMoreSilently(s, id, s', StoringGroup(d, CM.Proc(req, CM.Creating)), Groups(CM.Error(CM.Other)));
  }

  /** Every run that ends with a Create about to store its records goes on to one in
      which that Create answers without error, and has written nothing. */
  lemma AnswerCanLackItsRecords(run: seq<System>, steps: seq<Step>, id: nat)
    returns (run': seq<System>, steps': seq<Step>, answer: CreateResponse)
    requires IsRun(run, steps) && id in run[|steps|].rpcs && run[|steps|].rpcs[id].StampingRecord?
    ensures Continues(run, steps, run', steps')
    ensures id in run'[|steps'|].rpcs && run'[|steps'|].rpcs[id] == CreateDone(Ok(answer))
    ensures answer.snapshotId == run[|steps|].rpcs[id].d.snapshotId && answer.groupId == run[|steps|].rpcs[id].d.groupId
    ensures run'[|steps'|].store == run[|steps|].store
    ensures run'[|steps'|].log == run[|steps|].log + [Responded(id, answer)]
  {
    var s, d, now := run[|steps|], run[|steps|].rpcs[id].d, run[|steps|].store.clock;
    ReachesItself(Anyhow, s);
    var t := SnapshotStoreCanFail(s, id, s, d);
    t := GroupStoreCanFail(s, id, t, d);
    t := OneMoreSilently(s, id, t, StampingReply(d), Time(now));
    answer := ResponseOf(d, now, now);
    var s' := AfterReply(t, id, Time(now), s.store);
    ReplyReaches(Anyhow, t, id, Time(now), s.store);
    ReachesOnwards(Anyhow, s, t, s');
    run', steps' := RunReaches(Anyhow, run, steps, s');
  }

  lemma StoredMeansKnown(s: System, g: string, k: string)
    requires StoresFit(s)
    ensures SnapshotStoredIn(s.log, k) ==> KnownSnapshot(s.log, k)
    ensures GroupStoredIn(s.log, g) ==> Known(s.log, g)
  {
    if SnapshotStoredIn(s.log, k) {
      var x, record :| SnapshotStored(x, record) in s.log && record.snapshotId == k;
      assert SnapshotStoreFits(s, SnapshotStored(x, record));
      var h :| OwnsGroup(s.log, x, h) && SnapshotOf(h, k);
      assert Known(s.log, h);
    }
    if GroupStoredIn(s.log, g) {
      var x, record :| GroupStored(x, record) in s.log && record.groupSnapshotId == g;
      assert GroupStoreFits(s, GroupStored(x, record));
    }
  }

  /** On its way to its first Store an RPC has stored nothing, so nothing new is stored. */
  lemma NothingNewIsStored(s: System, t: System, id: nat, g: string, k: string)
    requires StoresFit(t) && id in t.rpcs && t.rpcs[id].StampingRecord? && OnlyOwn(s, t, id)
    ensures SnapshotStoredIn(t.log, k) ==> SnapshotStoredIn(s.log, k)
    ensures GroupStoredIn(t.log, g) ==> GroupStoredIn(s.log, g)
  {
    if SnapshotStoredIn(t.log, k) {
      var x, record :| SnapshotStored(x, record) in t.log && record.snapshotId == k;
      assert SnapshotStoreFits(t, SnapshotStored(x, record));
      assert SnapshotStored(x, record) in s.log;
    }
    if GroupStoredIn(t.log, g) {
      var x, record :| GroupStored(x, record) in t.log && record.groupSnapshotId == g;
      assert GroupStoreFits(t, GroupStored(x, record));
      assert GroupStored(x, record) in s.log;
    }
  }

  /** RPC id is about to store its first record, and nothing of its group was ever stored. */
  ghost predicate AboutToStore(s: System, id: nat) {
    && id in s.rpcs && s.rpcs[id].StampingRecord?
    && !SnapshotStoredIn(s.log, s.rpcs[id].d.snapshotId) && !GroupStoredIn(s.log, s.rpcs[id].d.groupId)
  }

  lemma NothingStoredYet(s: System, id: nat, q: CreateRequest, begun: System, t: System, d: Draft)
    requires StoresFit(s) && StoresFit(t) && Arrived(s, id, q)
    requires begun.log == s.log + [GroupStamped(id, q, Unix(s.store.clock))] && OnlyOwn(begun, t, id)
    requires id in t.rpcs && t.rpcs[id] == StampingRecord(d)
    requires d.groupId == GroupOf(s, q) && SnapshotOf(d.groupId, d.snapshotId)
    ensures AboutToStore(t, id)
  {
    StoredMeansKnown(s, d.groupId, d.snapshotId);
    UnusedIsUnknown(s.log, q.name, Unix(s.store.clock));
    NothingNewIsStored(s, t, id, d.groupId, d.snapshotId);
  }

  lemma StoreCanBeReached(run: seq<System>, steps: seq<Step>, i: nat, id: nat, q: CreateRequest, d: Draft)
    returns (run': seq<System>, steps': seq<Step>)
    requires IsRun(run, steps) && |steps| == i + 1
    requires Arrived(run[i], id, q) && Starts(run[i], id, q, run[i + 1], d)
    ensures Continues(run, steps, run', steps') && AboutToStore(run'[|steps'|], id)
  {
    var t, d', store := SaveGoesThrough(run[i + 1], id, d);
    run', steps' := RunReaches(Alone(id, d.groupId), run, steps, t);
    StoresFitInRuns(run, steps, i);
    StoresFitInRuns(run', steps', |steps'|);
    NothingStoredYet(run[i], id, q, run[i + 1], t, d');
  }

  lemma AnswerStoresNothing(run: seq<System>, steps: seq<Step>, id: nat)
    returns (run': seq<System>, steps': seq<Step>, answer: CreateResponse)
    requires IsRun(run, steps) && AboutToStore(run[|steps|], id)
    ensures Continues(run, steps, run', steps')
    ensures id in run'[|steps'|].rpcs && run'[|steps'|].rpcs[id] == CreateDone(Ok(answer))
    ensures !SnapshotStoredIn(run'[|steps'|].log, answer.snapshotId)
    ensures !GroupStoredIn(run'[|steps'|].log, answer.groupId)
  {
    var log := run[|steps|].log;
    run', steps', answer := AnswerCanLackItsRecords(run, steps, id);
    SnapshotsIn(log, [Responded(id, answer)], answer.snapshotId);
    GroupsIn(log, [Responded(id, answer)], answer.groupId);
  }

  /** After any run, for any such request: the run goes on to one in which the request is
      answered without error, although neither of its records was ever stored; the
      snapshot's file is in place, and nothing on record leads to it. */
  lemma OrphanCanArise(run: seq<System>, steps: seq<Step>, id: nat, q: CreateRequest)
    returns (run': seq<System>, steps': seq<Step>, answer: CreateResponse, namespace: string)
    requires IsRun(run, steps) && id !in run[|steps|].rpcs && WellFormed(q)
    ensures Continues(run, steps, run', steps')
    ensures var end := run'[|steps'|];
      && id in end.rpcs && end.rpcs[id] == CreateDone(Ok(answer))
      && !SnapshotStoredIn(end.log, answer.snapshotId) && !GroupStoredIn(end.log, answer.groupId)
      && answer.snapshotId !in SnapshotsOf(end.store) && answer.groupId !in GroupsOf(end.store)
      && FileOf(SaveJob(namespace, answer.snapshotId, SNAPSHOT_CLAIM)) in end.store.files
  {
    var begun, begunSteps, i, d := CreateCanStart(run, steps, id, q);
    var mid, midSteps := StoreCanBeReached(begun, begunSteps, i, id, q, d);
    run', steps', answer := AnswerStoresNothing(mid, midSteps, id);
    ContinuesOnwards(run, steps, begun, begunSteps, mid, midSteps);
    ContinuesOnwards(run, steps, mid, midSteps, run', steps');
    namespace := OrphansKeepTheirFile(run', steps', |steps'|, id);
    RecordsAreExact(run', steps', |steps'|);
    assert GroupExact(run'[|steps'|].log, GroupsOf(run'[|steps'|].store).Keys, answer.groupId);
  }
}
