/** Where records and answers come from: each volume of the very request that was
    asked was looked up, discovered and found healthy, and its snapshot saved. */
module Provenance {
  import opened Identifiers
  import opened Api
  import opened VolumeIds
  import opened Wrappers
  import opened Machine
  import opened Protocol
  import opened History
  import opened Ledger
  import CM = ConfigMaps
  import Health

  /* ----- an RPC is stamped once, with its own request ----- */

  ghost predicate StampedOnce(s: System) {
    && (forall e <- s.log :: e.GroupStamped? ==> e.rpc in s.rpcs && !s.rpcs[e.rpc].CreateStamping?)
    && OneStampEach(s.log)
  }

  ghost predicate OneStampEach(log: seq<Event>) {
    forall i, j :: 0 <= i < j < |log| && log[i].GroupStamped? && log[j].GroupStamped? ==> log[i].rpc != log[j].rpc
  }

  lemma NeverStartsOver(r: Rpc, reply: Reply)
    requires !Ended(r)
    ensures !Advance(r, reply).CreateStamping?
  {
    if Checking(r) {
      assert !CheckingNext(r, reply).CreateStamping?;
    } else if Taking(r) {
      assert !TakingNext(r, reply).CreateStamping?;
    } else if Deleting(r) {
      assert !DeletingNext(r, reply).CreateStamping?;
    }
  }

  lemma OnlyStampsStamp(id: nat, r: Rpc, reply: Reply)
    requires !Ended(r)
    ensures |EventOf(id, r, reply)| <= 1
    ensures forall e <- EventOf(id, r, reply) :: e.GroupStamped? ==>
      r.CreateStamping? && e.rpc == id && e.request == CreateRequest(r.cfg, r.name, r.ids)
  {
  }

  /** An RPC never starts over, and only its first step stamps it. */
  lemma StampingStep(id: nat, r: Rpc, reply: Reply)
    requires !Ended(r)
    ensures !Advance(r, reply).CreateStamping? && |EventOf(id, r, reply)| <= 1
    ensures forall e <- EventOf(id, r, reply) :: e.GroupStamped? ==>
      r.CreateStamping? && e.rpc == id && e.request == CreateRequest(r.cfg, r.name, r.ids)
  {
    NeverStartsOver(r, reply);
    OnlyStampsStamp(id, r, reply);
  }

  lemma AppendStamp(log: seq<Event>, more: seq<Event>)
    requires OneStampEach(log) && |more| <= 1
    requires forall e, f :: e in log && f in more && e.GroupStamped? && f.GroupStamped? ==> e.rpc != f.rpc
    ensures OneStampEach(log + more)
  {
    forall i, j | 0 <= i < j < |log + more| && (log + more)[i].GroupStamped? && (log + more)[j].GroupStamped?
      ensures (log + more)[i].rpc != (log + more)[j].rpc
    {
      if j >= |log| {
        assert (log + more)[i] in log && (log + more)[j] in more;
      }
    }
  }

  lemma StepKeepsStampedOnce(s: System, step: Step, s': System)
    requires StampedOnce(s) && Next(s, step, s')
    ensures StampedOnce(s')
  {
    if step.Serve? {
      var more := EventOf(step.id, s.rpcs[step.id], step.reply);
      StampingStep(step.id, s.rpcs[step.id], step.reply);
      AppendStamp(s.log, more);
    } else {
      AppendStamp(s.log, if OnJob(step) then JobEvents(step) else []);
    }
  }

  lemma {:induction false} RunStampsOnce(run: seq<System>, steps: seq<Step>, i: nat)
    requires IsRun(run, steps) && i < |run|
    ensures StampedOnce(run[i])
    decreases i
  {
    if i > 0 {
      RunStampsOnce(run, steps, i - 1);
      assert StepAt(run, steps, i - 1);
      StepKeepsStampedOnce(run[i - 1], steps[i - 1], run[i - 1 + 1]);
    }
  }

  /** RPC id asks q: it waits to be stamped, or was stamped with q. */
  ghost predicate Asks(s: System, id: nat, q: CreateRequest) {
    && id in s.rpcs
    && (s.rpcs[id].CreateStamping? ==> s.rpcs[id] == BeginCreate(q.cfg, q.name, q.ids))
    && (forall e <- s.log :: e.GroupStamped? && e.rpc == id ==> e.request == q)
  }

  lemma StepKeepsAsking(s: System, step: Step, s': System, id: nat, q: CreateRequest)
    requires Next(s, step, s') && Asks(s, id, q)
    ensures Asks(s', id, q)
  {
    if step.Serve? {
      StampingStep(step.id, s.rpcs[step.id], step.reply);
    }
  }

  /** A Create that arrives asking q is only ever stamped with q. */
  lemma {:induction false} StampIsTheRequest(
    run: seq<System>, steps: seq<Step>, i: nat, j: nat, id: nat, q: CreateRequest)
    requires IsRun(run, steps) && i <= j < |run|
    requires id in run[i].rpcs && run[i].rpcs[id] == BeginCreate(q.cfg, q.name, q.ids)
    ensures Asks(run[j], id, q)
    decreases j - i
  {
    if i == j {
      RunStampsOnce(run, steps, i);
    } else {
      StampIsTheRequest(run, steps, i, j - 1, id, q);
      assert StepAt(run, steps, j - 1);
      StepKeepsAsking(run[j - 1], steps[j - 1], run[j - 1 + 1], id, q);
    }
  }

  /* ----- what was read was there ----- */

  ghost predicate HadLabel(s: Store, e: Event)
    requires e.LabelRead?
  {
    && e.claim in s.claims && e.labelKey in s.claims[e.claim].labels
    && s.claims[e.claim].labels[e.labelKey] == e.cluster
  }

  lemma LabelIsRead(store: Store, id: nat, r: Rpc, reply: Reply, store': Store, e: Event)
    requires !Ended(r) && Exec(store, NextCall(r), reply, store')
    requires e in EventOf(id, r, reply) && e.LabelRead?
    ensures HadLabel(store, e)
  {
  }

  /** A label that the log says was read was on the claim at that moment. */
  lemma {:induction false} LabelsWereThere(run: seq<System>, steps: seq<Step>, i: nat, e: Event) returns (k: nat)
    requires IsRun(run, steps) && i < |run| && e in run[i].log && e.LabelRead?
    ensures k < i && HadLabel(run[k].store, e)
    decreases i
  {
    assert i > 0;
    var s, step, s' := run[i - 1], steps[i - 1], run[i - 1 + 1];
    assert StepAt(run, steps, i - 1);
    if e in s.log {
      k := LabelsWereThere(run, steps, i - 1, e);
    } else {
      assert step.Serve?;
      LabelIsRead(s.store, step.id, s.rpcs[step.id], step.reply, s'.store, e);
      k := i - 1;
    }
  }

  /* ----- records and answers ----- */

  /** RPC id read the cluster label of the claim that its v-th source volume names,
      listed the pods with that label in the claim's namespace, and accepted the
      health of the cluster they make up, which is the given one. */
  ghost predicate VolumeChecked(
    log: seq<Event>, id: nat, q: CreateRequest, v: nat, clusterName: string, clusterSize: nat)
    requires v < |q.ids|
  {
    && Parse(q.ids[v]).Some?
    && var volume := Parse(q.ids[v]).value;
    && LabelRead(id, v, VolumeKey(volume), q.cfg.clusterLabelKey, clusterName) in log
    && exists names, o ::
         && PodsListed(id, v, volume.namespace, q.cfg.clusterLabelKey, clusterName, names) in log
         && |names| == clusterSize
         && var endpoints := Endpoints(names, volume.namespace);
         && HealthAccepted(id, v, ClusterInfo(clusterName, volume.namespace, endpoints), o) in log
         && Health.Accepts(endpoints, o)
  }

  /** RPC id asked q in second t, checked every volume of q and found them in one
      cluster, and saw the save of the snapshot of that group succeed. */
  ghost predicate Earned(log: seq<Event>, id: nat, q: CreateRequest, t: nat, clusterName: string, snapshotId: string) {
    && GroupStamped(id, q, t) in log && SnapshotOf(GroupId(q.name, t), snapshotId)
    && q.ids != [] && Parse(q.ids[0]).Some?
    && (exists size :: AllChecked(log, id, q, clusterName, size))
    && SaveSeen(id, SaveJob(Parse(q.ids[0]).value.namespace, snapshotId, SNAPSHOT_CLAIM)) in log
  }

  ghost predicate AllChecked(log: seq<Event>, id: nat, q: CreateRequest, clusterName: string, clusterSize: nat) {
    forall v: nat :: v < |q.ids| ==> VolumeChecked(log, id, q, v, clusterName, clusterSize)
  }

  lemma CheckedVolume(log: seq<Event>, id: nat, d: Draft, v: nat)
    requires DraftFits(log, id, d) && v < |d.ids| && Checked(log, id, d, v)
    ensures VolumeChecked(log, id, d.Request(), v, d.cluster.name, |d.cluster.endpoints|)
  {
    var info, o :| Found(log, id, d, v, info) && HealthAccepted(id, v, info, o) in log
      && Health.Accepts(info.endpoints, o) && SameCluster(info, d.cluster);
    var names :| PodsListed(id, v, info.namespace, d.cfg.clusterLabelKey, info.name, names) in log
      && info.endpoints == Endpoints(names, info.namespace);
    assert Parse(d.ids[v]) == Some(d.VolumeAt(v));
    assert info == ClusterInfo(d.cluster.name, d.VolumeAt(v).namespace, Endpoints(names, info.namespace));
  }

  lemma VouchedIsEarned(log: seq<Event>, id: nat, d: Draft)
    requires Vouched(log, id, d)
    ensures Earned(log, id, d.Request(), d.stamp, d.cluster.name, d.snapshotId)
    ensures d.Namespace() == Parse(d.ids[0]).value.namespace
  {
    assert Parse(d.ids[0]) == Some(d.VolumeAt(0));
    forall v: nat | v < |d.ids|
      ensures VolumeChecked(log, id, d.Request(), v, d.cluster.name, |d.cluster.endpoints|)
    {
      assert Checked(log, id, d, v);
      CheckedVolume(log, id, d, v);
    }
    assert AllChecked(log, id, d.Request(), d.cluster.name, |d.cluster.endpoints|);
  }

  ghost predicate GroupEarned(log: seq<Event>, record: GroupRecord) {
    exists id, q, t ::
      && Earned(log, id, q, t, record.clusterName, record.snapshotId)
      && record.groupSnapshotId == GroupId(q.name, t) && record.sourceVolumeIds == q.ids
      && record.snapshotPVCNamespace == Parse(q.ids[0]).value.namespace
  }

  ghost predicate SnapshotEarned(log: seq<Event>, record: SnapshotRecord) {
    exists id, q, t ::
      && Earned(log, id, q, t, record.clusterName, record.snapshotId)
      && record.sourceVolumeId == q.ids[0] && record.namespace == Parse(q.ids[0]).value.namespace
  }

  /** Every record in the store stems from a Create that checked each of the source
      volumes the record names and saw the save of the record's snapshot succeed. */
  lemma EveryRecordIsVouched(run: seq<System>, steps: seq<Step>, i: nat)
    requires IsRun(run, steps) && i < |run|
    ensures forall g <- CM.Contents(run[i].store.groups) ::
      GroupEarned(run[i].log, CM.Contents(run[i].store.groups)[g])
    ensures forall k <- CM.Contents(run[i].store.snapshots) ::
      SnapshotEarned(run[i].log, CM.Contents(run[i].store.snapshots)[k])
  {
    RecordsStayFindable(run, steps, i);
    RunIsJustified(run, steps, i);
    var log, snapshots, groups := run[i].log, CM.Contents(run[i].store.snapshots), CM.Contents(run[i].store.groups);
    forall g | g in groups ensures GroupEarned(log, groups[g]) {
      var id :| GroupStored(id, groups[g]) in log;
      var d := StoredGroupIsVouched(log, id, groups[g]);
      VouchedIsEarned(log, id, d);
      assert groups[g].sourceVolumeIds == d.Request().ids;
    }
    forall k | k in snapshots ensures SnapshotEarned(log, snapshots[k]) {
      var id :| SnapshotStored(id, snapshots[k]) in log;
      var d := StoredSnapshotIsVouched(log, id, snapshots[k]);
      VouchedIsEarned(log, id, d);
      assert snapshots[k].sourceVolumeId == d.Request().ids[0];
    }
  }

  /** Every answer without error is given to the request that was asked, after
      each of its volumes was checked and the answer's snapshot was saved. */
  lemma EveryAnswerIsVouched(
    run: seq<System>, steps: seq<Step>, i: nat, j: nat, id: nat, q: CreateRequest) returns (t: nat, clusterName: string)
    requires IsRun(run, steps) && i <= j < |run|
    requires id in run[i].rpcs && run[i].rpcs[id] == BeginCreate(q.cfg, q.name, q.ids)
    requires id in run[j].rpcs && run[j].rpcs[id].CreateDone? && run[j].rpcs[id].created.Ok?
    ensures var answer := run[j].rpcs[id].created.value;
      && Earned(run[j].log, id, q, t, clusterName, answer.snapshotId)
      && answer.groupId == GroupId(q.name, t) && answer.sourceVolumeId == q.ids[0]
  {
    RunIsJustified(run, steps, j);
    StampIsTheRequest(run, steps, i, j, id, q);
    var answer := run[j].rpcs[id].created.value;
    assert Backed(run[j].log, id, run[j].rpcs[id]);
    var d :| Vouched(run[j].log, id, d) && answer == ResponseOf(d, answer.snapshotTime, answer.groupTime);
    VouchedIsEarned(run[j].log, id, d);
    assert GroupStamped(id, d.Request(), d.stamp) in run[j].log;
    t, clusterName := d.stamp, d.cluster.name;
  }
}
