/** What must have happened before a record is written, dropped or answered. */
module History {
  import opened Api
  import opened Machine
  import opened Protocol
  import Health

  /** What RPC id read about the cluster of its v-th volume: the cluster label of
      that volume's claim, and the pods that carry it. */
  ghost predicate Found(log: seq<Event>, id: nat, d: Draft, v: nat, info: ClusterInfo) {
    && info.namespace == d.VolumeAt(v).namespace
    && LabelRead(id, v, VolumeKey(d.VolumeAt(v)), d.cfg.clusterLabelKey, info.name) in log
    && exists names ::
         && PodsListed(id, v, info.namespace, d.cfg.clusterLabelKey, info.name, names) in log
         && info.endpoints == Endpoints(names, info.namespace)
  }

  /** The cluster it found for the v-th volume passed its health check and is the draft's. */
  ghost predicate Checked(log: seq<Event>, id: nat, d: Draft, v: nat) {
    exists info, o ::
      && Found(log, id, d, v, info) && HealthAccepted(id, v, info, o) in log
      && Health.Accepts(info.endpoints, o) && SameCluster(info, d.cluster)
  }

  ghost predicate CheckedUpTo(log: seq<Event>, id: nat, d: Draft, n: nat) {
    forall v: nat :: v < n ==> Checked(log, id, d, v)
  }

  /** Every volume of the draft was checked and the save job of its snapshot was seen to succeed. */
  ghost predicate Vouched(log: seq<Event>, id: nat, d: Draft) {
    && Named(log, id, d) && CheckedUpTo(log, id, d, |d.ids|)
    && SaveSeen(id, d.Job()) in log
  }

  /** RPC id saw a delete job of the snapshot succeed. */
  ghost predicate SawDeleted(log: seq<Event>, id: nat, snapshot: string) {
    exists job :: DeleteSeen(id, job) in log && job.snapshotId == snapshot
  }

  /** What the past must hold for an event to happen. */
  ghost predicate Justified(past: seq<Event>, e: Event) {
    match e
    case HealthAccepted(id, v, info, o) =>
      && Health.Accepts(info.endpoints, o)
      && exists d :: DraftFits(past, id, d) && v < |d.ids| && Found(past, id, d, v, info)
    case SnapshotStored(id, record) =>
      exists d :: Vouched(past, id, d) && record == SnapshotRecordOf(d, record.creationTime)
    case GroupStored(id, record) =>
      exists d :: Vouched(past, id, d) && record == GroupRecordOf(d, record.creationTime)
    case Responded(id, response) => Answered(past, id, response)
    case DeleteSeen(id, job) =>
      JobCreated(id, JobKey(job)) in past && IsCleanup(job, job.snapshotId)
    case SnapshotDropped(id, snapshot) => SawDeleted(past, id, snapshot)
    case _ => true
  }

  ghost predicate AllJustified(log: seq<Event>) {
    forall k :: 0 <= k < |log| ==> Justified(log[..k], log[k])
  }

  ghost predicate Answered(log: seq<Event>, id: nat, response: CreateResponse) {
    exists d :: Vouched(log, id, d) && response == ResponseOf(d, response.snapshotTime, response.groupTime)
  }

  /** What the log holds on behalf of an RPC at each of its calls. */
  ghost predicate Backed(log: seq<Event>, id: nat, r: Rpc) {
    && (r.ReadingClaim? || r.ListingPods? || r.CheckingHealth? ==> CheckedUpTo(log, id, r.d, r.i))
    && (r.ListingPods? ==>
          LabelRead(id, r.i, VolumeKey(r.d.VolumeAt(r.i)), r.d.cfg.clusterLabelKey, r.cluster) in log)
    && (r.CheckingHealth? ==> Found(log, id, r.d, r.i, r.info))
    && (r.Provisioning? || r.StampingSnapshot? || r.Saving? ==> CheckedUpTo(log, id, r.d, |r.d.ids|))
    && (Taking(r) && !r.Saving? ==> Vouched(log, id, r.d))
    && (r.CreateDone? && r.created.Ok? ==> Answered(log, id, r.created.value))
    && (r.CleanupRunning? && !r.exec.Finished? ==> JobCreated(id, JobKey(r.exec.job)) in log)
    && (r.CleanupDropping? ==> SawDeleted(log, id, r.snapshot))
  }

  ghost predicate HistoryHolds(s: System) {
    (forall id <- s.rpcs :: Backed(s.log, id, s.rpcs[id])) && AllJustified(s.log)
  }

  lemma FoundGrows(log: seq<Event>, more: seq<Event>, id: nat, d: Draft, v: nat, info: ClusterInfo)
    requires Found(log, id, d, v, info)
    ensures Found(log + more, id, d, v, info)
  {
    var names :| PodsListed(id, v, info.namespace, d.cfg.clusterLabelKey, info.name, names) in log
      && info.endpoints == Endpoints(names, info.namespace);
    assert PodsListed(id, v, info.namespace, d.cfg.clusterLabelKey, info.name, names) in log + more;
  }

  lemma CheckedGrows(log: seq<Event>, more: seq<Event>, id: nat, d: Draft, n: nat)
    requires CheckedUpTo(log, id, d, n)
    ensures CheckedUpTo(log + more, id, d, n)
  {
    forall v: nat | v < n ensures Checked(log + more, id, d, v) {
      assert Checked(log, id, d, v);
      var info, o :| Found(log, id, d, v, info) && HealthAccepted(id, v, info, o) in log
        && Health.Accepts(info.endpoints, o) && SameCluster(info, d.cluster);
      FoundGrows(log, more, id, d, v, info);
      assert HealthAccepted(id, v, info, o) in log + more;
    }
  }

  /** Checks carry over to a draft that differs in no volume and not in its cluster. */
  lemma CheckedOfSame(log: seq<Event>, id: nat, d: Draft, d': Draft, n: nat)
    requires CheckedUpTo(log, id, d, n) && (n > 0 ==> d'.cluster == d.cluster)
    requires d'.volumes == d.volumes && d'.cfg == d.cfg
    ensures CheckedUpTo(log, id, d', n)
  {
    forall v: nat | v < n ensures Checked(log, id, d', v) {
      assert Checked(log, id, d, v);
      var info, o :| Found(log, id, d, v, info) && HealthAccepted(id, v, info, o) in log
        && Health.Accepts(info.endpoints, o) && SameCluster(info, d.cluster);
      assert Found(log, id, d', v, info);
    }
  }

  lemma VouchedGrows(log: seq<Event>, more: seq<Event>, id: nat, d: Draft)
    requires Vouched(log, id, d)
    ensures Vouched(log + more, id, d)
  {
    CheckedGrows(log, more, id, d, |d.ids|);
  }

  lemma BackedGrows(log: seq<Event>, more: seq<Event>, id: nat, r: Rpc)
    requires Backed(log, id, r)
    ensures Backed(log + more, id, r)
  {
    if r.ReadingClaim? || r.ListingPods? || r.CheckingHealth? {
      CheckedGrows(log, more, id, r.d, r.i);
      if r.CheckingHealth? {
        FoundGrows(log, more, id, r.d, r.i, r.info);
      }
    } else if r.Provisioning? || r.StampingSnapshot? || r.Saving? {
      CheckedGrows(log, more, id, r.d, |r.d.ids|);
    } else if Taking(r) {
      VouchedGrows(log, more, id, r.d);
    } else if r.CreateDone? && r.created.Ok? {
      var response := r.created.value;
      var d :| Vouched(log, id, d) && response == ResponseOf(d, response.snapshotTime, response.groupTime);
      VouchedGrows(log, more, id, d);
    } else if r.CleanupDropping? {
      var job :| DeleteSeen(id, job) in log && job.snapshotId == r.snapshot;
      assert DeleteSeen(id, job) in log + more;
    }
  }

  lemma AnotherChecked(log: seq<Event>, id: nat, d: Draft, n: nat, info: ClusterInfo, o: Health.Observation)
    requires CheckedUpTo(log, id, d, n) && Found(log, id, d, n, info) && HealthAccepted(id, n, info, o) in log
    requires Health.Accepts(info.endpoints, o) && SameCluster(info, d.cluster)
    ensures CheckedUpTo(log, id, d, n + 1)
  {
    assert Checked(log, id, d, n);
  }

  /** What an accepted health reply leads to. */
  lemma AcceptedGoesOn(id: nat, r: Rpc, reply: Reply)
    requires r.CheckingHealth?
    ensures var r', d := CheckingNext(r, reply), if r.i == 0 then r.d.(cluster := r.info) else r.d;
      Ended(r') || (
        && HealthPasses(r.info, reply) && SameCluster(r.info, d.cluster) && r' == ClusterTurn(d, r.i + 1)
        && EventOf(id, r, reply) == [HealthAccepted(id, r.i, r.info, reply.observation)])
    ensures Ended(CheckingNext(r, reply)) ==>
      CheckingNext(r, reply).CreateDone? && CheckingNext(r, reply).created.Err?
  {
  }

  lemma TurnBacked(log: seq<Event>, id: nat, d: Draft, n: nat)
    requires CheckedUpTo(log, id, d, n) && (n < |d.volumes| || n == |d.ids|)
    ensures Backed(log, id, ClusterTurn(d, n))
  {
  }

  /** An accepted health reply extends the checked volumes by one. */
  lemma HealthExtends(log: seq<Event>, id: nat, r: Rpc, reply: Reply)
    requires r.CheckingHealth? && Shape(log, id, r) && Backed(log, id, r)
    ensures Backed(log + EventOf(id, r, reply), id, CheckingNext(r, reply))
  {
    var d := if r.i == 0 then r.d.(cluster := r.info) else r.d;
    AcceptedGoesOn(id, r, reply);
    if !Ended(CheckingNext(r, reply)) {
      CheckedOfSame(log, id, r.d, d, r.i);
      FoundOfSame(log, id, r.d, d, r.i, r.info);
      AcceptedExtends(log, id, d, r.i, r.info, reply.observation);
      TurnBacked(log + EventOf(id, r, reply), id, d, r.i + 1);
    }
  }

  lemma FoundOfSame(log: seq<Event>, id: nat, d: Draft, d': Draft, v: nat, info: ClusterInfo)
    requires Found(log, id, d, v, info) && d'.volumes == d.volumes && d'.cfg == d.cfg
    ensures Found(log, id, d', v, info)
  {
  }

  lemma AcceptedExtends(log: seq<Event>, id: nat, d: Draft, n: nat, info: ClusterInfo, o: Health.Observation)
    requires CheckedUpTo(log, id, d, n) && Found(log, id, d, n, info)
    requires Health.Accepts(info.endpoints, o) && SameCluster(info, d.cluster)
    ensures CheckedUpTo(log + [HealthAccepted(id, n, info, o)], id, d, n + 1)
  {
    var more := [HealthAccepted(id, n, info, o)];
    CheckedGrows(log, more, id, d, n);
    FoundGrows(log, more, id, d, n, info);
    AnotherChecked(log + more, id, d, n, info, o);
  }

  lemma StampingBacked(log: seq<Event>, id: nat, r: Rpc, reply: Reply)
    requires r.StampingSnapshot? && Backed(log, id, r)
    ensures Backed(log, id, CheckingNext(r, reply))
  {
    CheckedOfSame(log, id, r.d, CheckingNext(r, reply).d, |r.d.ids|);
  }

  lemma ProvisioningBacked(log: seq<Event>, id: nat, r: Rpc, reply: Reply)
    requires (r.CreateStamping? || r.Provisioning?) && Backed(log, id, r)
    ensures Backed(log, id, CheckingNext(r, reply))
  {
  }

  lemma ValidatingBacked(log: seq<Event>, id: nat, r: Rpc, reply: Reply)
    requires r.Validating? && Backed(log, id, r)
    ensures Backed(log, id, CheckingNext(r, reply))
  {
  }

  lemma ReadingBacked(log: seq<Event>, id: nat, r: Rpc, reply: Reply)
    requires r.ReadingClaim? && Backed(log, id, r)
    ensures Backed(log + EventOf(id, r, reply), id, CheckingNext(r, reply))
  {
    CheckedGrows(log, EventOf(id, r, reply), id, r.d, r.i);
  }

  lemma ListingBacked(log: seq<Event>, id: nat, r: Rpc, reply: Reply)
    requires r.ListingPods? && Backed(log, id, r)
    ensures Backed(log + EventOf(id, r, reply), id, CheckingNext(r, reply))
  {
    var more, r' := EventOf(id, r, reply), CheckingNext(r, reply);
    CheckedGrows(log, more, id, r.d, r.i);
    if r'.CheckingHealth? {
      var namespace, labelKey := r.d.VolumeAt(r.i).namespace, r.d.cfg.clusterLabelKey;
      assert PodsListed(id, r.i, namespace, labelKey, r.cluster, reply.names) in log + more;
      assert Found(log + more, id, r.d, r.i, r'.info);
    }
  }

  lemma CheckingBacked(log: seq<Event>, id: nat, r: Rpc, reply: Reply)
    requires Checking(r) && !r.CheckingHealth? && Backed(log, id, r)
    ensures Backed(log + EventOf(id, r, reply), id, CheckingNext(r, reply))
  {
    if r.ReadingClaim? {
      ReadingBacked(log, id, r, reply);
    } else if r.ListingPods? {
      ListingBacked(log, id, r, reply);
    } else {
      if r.StampingSnapshot? {
        StampingBacked(log, id, r, reply);
      } else if r.Validating? {
        ValidatingBacked(log, id, r, reply);
      } else {
        ProvisioningBacked(log, id, r, reply);
      }
      BackedGrows(log, EventOf(id, r, reply), id, CheckingNext(r, reply));
    }
  }

  lemma SavingBacked(log: seq<Event>, id: nat, r: Rpc, reply: Reply)
    requires r.Saving? && Shape(log, id, r) && Backed(log, id, r)
    ensures Backed(log + EventOf(id, r, reply), id, TakingNext(r, reply))
  {
    BackedGrows(log, EventOf(id, r, reply), id, r);
    ShapeGrows(log, EventOf(id, r, reply), id, r);
  }

  lemma TakingBacked(log: seq<Event>, id: nat, r: Rpc, reply: Reply)
    requires Taking(r) && !r.Saving? && Backed(log, id, r)
    ensures Backed(log, id, TakingNext(r, reply))
  {
  }

  lemma CreatedCleanupBacked(log: seq<Event>, id: nat, r: Rpc, reply: Reply)
    requires r.CleanupCreating?
    ensures Backed(log + EventOf(id, r, reply), id, DeletingNext(r, reply))
  {
  }

  lemma RunningCleanupBacked(log: seq<Event>, id: nat, r: Rpc, reply: Reply)
    requires r.CleanupRunning? && Shape(log, id, r) && Backed(log, id, r)
    ensures Backed(log + EventOf(id, r, reply), id, DeletingNext(r, reply))
  {
    var r', log' := DeletingNext(r, reply), log + EventOf(id, r, reply);
    if r'.CleanupDropping? {
      assert DeleteSeen(id, r.exec.job) in log';
      assert SawDeleted(log', id, r.snapshot);
    } else if r'.CleanupRunning? {
      assert r'.exec.job == r.exec.job;
      assert JobCreated(id, JobKey(r.exec.job)) in log';
    }
  }

  lemma DeletingBacked(log: seq<Event>, id: nat, r: Rpc, reply: Reply)
    requires Deleting(r) && !r.CleanupCreating? && !r.CleanupRunning? && Backed(log, id, r)
    ensures Backed(log, id, DeletingNext(r, reply))
  {
    var r' := DeletingNext(r, reply);
    assert Deleting(r') || r'.DeleteDone?;
    assert !r'.CleanupRunning? && (r'.CleanupDropping? ==> r.CleanupDropping? && r'.snapshot == r.snapshot);
  }

  lemma ServedBacked(log: seq<Event>, id: nat, r: Rpc, reply: Reply)
    requires !Ended(r) && Shape(log, id, r) && Backed(log, id, r)
    ensures Backed(log + EventOf(id, r, reply), id, Advance(r, reply))
  {
    var more, r' := EventOf(id, r, reply), Advance(r, reply);
    if r.CheckingHealth? {
      HealthExtends(log, id, r, reply);
    } else if Checking(r) {
      CheckingBacked(log, id, r, reply);
    } else if r.Saving? {
      SavingBacked(log, id, r, reply);
    } else if Taking(r) {
      TakingBacked(log, id, r, reply);
      BackedGrows(log, more, id, r');
    } else if r.CleanupCreating? {
      CreatedCleanupBacked(log, id, r, reply);
    } else if r.CleanupRunning? {
      RunningCleanupBacked(log, id, r, reply);
    } else if Deleting(r) {
      DeletingBacked(log, id, r, reply);
      BackedGrows(log, more, id, r');
    }
  }

  /** Every event an RPC causes is justified by the log before it. */
  lemma EventJustified(log: seq<Event>, id: nat, r: Rpc, reply: Reply, e: Event)
    requires !Ended(r) && Shape(log, id, r) && Backed(log, id, r) && e in EventOf(id, r, reply)
    ensures Justified(log, e)
  {
    if Taking(r) && !r.Saving? {
      assert Vouched(log, id, r.d);
    }
  }

  lemma AppendJustified(log: seq<Event>, more: seq<Event>)
    requires AllJustified(log) && |more| <= 1 && forall e <- more :: Justified(log, e)
    ensures AllJustified(log + more)
  {
    var log' := log + more;
    forall k | 0 <= k < |log'| ensures Justified(log'[..k], log'[k]) {
      if k < |log| {
        assert log'[..k] == log[..k];
      } else {
        assert log'[..k] == log;
      }
    }
  }

  lemma OthersBacked(s: System, s': System, more: seq<Event>, j: nat)
    requires HistoryHolds(s) && s'.log == s.log + more
    requires j in s.rpcs && j in s'.rpcs && s'.rpcs[j] == s.rpcs[j]
    ensures Backed(s'.log, j, s'.rpcs[j])
  {
    assert Backed(s.log, j, s.rpcs[j]);
    BackedGrows(s.log, more, j, s.rpcs[j]);
  }

  lemma ServeKeepsHistory(s: System, id: nat, reply: Reply, s': System)
    requires Inv(s) && HistoryHolds(s) && Serves(s, id, reply, s')
    ensures HistoryHolds(s')
  {
    var r, more := s.rpcs[id], EventOf(id, s.rpcs[id], reply);
    assert Shape(s.log, id, r) && Backed(s.log, id, r);
    ServedBacked(s.log, id, r, reply);
    forall j | j in s'.rpcs && j != id ensures Backed(s'.log, j, s'.rpcs[j]) {
      OthersBacked(s, s', more, j);
    }
    EventsJustified(s.log, id, r, reply);
    AppendJustified(s.log, more);
  }

  lemma EventsJustified(log: seq<Event>, id: nat, r: Rpc, reply: Reply)
    requires !Ended(r) && Shape(log, id, r) && Backed(log, id, r)
    ensures |EventOf(id, r, reply)| <= 1 && forall e <- EventOf(id, r, reply) :: Justified(log, e)
  {
    forall e | e in EventOf(id, r, reply) ensures Justified(log, e) {
      EventJustified(log, id, r, reply, e);
    }
  }

  lemma JobStepKeepsHistory(s: System, step: Step, s': System)
    requires HistoryHolds(s) && JobActs(s, step, s')
    ensures HistoryHolds(s')
  {
    var more := JobEvents(step);
    assert s'.log == s.log + more;
    forall j | j in s'.rpcs ensures Backed(s'.log, j, s'.rpcs[j]) {
      OthersBacked(s, s', more, j);
    }
    AppendJustified(s.log, more);
  }

  lemma IdleStepKeepsHistory(s: System, step: Step, s': System)
    requires HistoryHolds(s) && Idles(s, step, s')
    ensures HistoryHolds(s')
  {
    forall j | j in s'.rpcs ensures Backed(s'.log, j, s'.rpcs[j]) {
      if j in s.rpcs {
        assert Backed(s.log, j, s.rpcs[j]);
      }
    }
  }

  lemma StepKeepsHistory(s: System, step: Step, s': System)
    requires Inv(s) && HistoryHolds(s) && Next(s, step, s')
    ensures HistoryHolds(s')
  {
    if step.Serve? {
      ServeKeepsHistory(s, step.id, step.reply, s');
    } else if OnJob(step) {
      JobStepKeepsHistory(s, step, s');
    } else {
      IdleStepKeepsHistory(s, step, s');
    }
  }

  /** In every run, records, answers and removals come after what justifies
      them: a record or an OK answer after an accepted health check of each
      volume and the observed success of its own save job, a removal after the
      observed success of a delete job the same RPC created. */
  lemma {:induction false} RunIsJustified(run: seq<System>, steps: seq<Step>, i: nat)
    requires IsRun(run, steps) && i < |run|
    ensures HistoryHolds(run[i])
    decreases i
  {
    if i > 0 {
      RunIsJustified(run, steps, i - 1);
      RunKeepsInv(run, steps, i - 1);
      assert StepAt(run, steps, i - 1);
      StepKeepsHistory(run[i - 1], steps[i - 1], run[i]);
    }
  }
}
