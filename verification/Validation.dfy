/** A Create that fails leaves no trace it should not leave. */
module Validation {
  import opened Api
  import opened Machine
  import opened Protocol
  import CM = ConfigMaps

  /** Events that record a change of the store. */
  predicate WritesRecord(e: Event) {
    e.SnapshotStored? || e.GroupStored? || e.SnapshotDropped? || e.GroupDropped?
  }

  predicate Writes(e: Event) {
    WritesRecord(e) || e.ClaimCreated? || e.JobCreated?
  }

  lemma OnlyWritesChangeRecords(store: Store, c: Call, reply: Reply, store': Store)
    requires Exec(store, c, reply, store')
    ensures store'.snapshots != store.snapshots ==>
      c.OnSnapshots? && !c.snapshotCall.Get? && reply == Snapshots(CM.Written)
    ensures store'.groups != store.groups ==>
      c.OnGroups? && !c.groupCall.Get? && reply == Groups(CM.Written)
  {
  }

  lemma SnapshotWriteIsLogged(log: seq<Event>, id: nat, r: Rpc)
    requires !Ended(r) && Shape(log, id, r) && NextCall(r).OnSnapshots? && !NextCall(r).snapshotCall.Get?
    ensures exists e :: EventOf(id, r, Snapshots(CM.Written)) == [e] && WritesRecord(e) && e.rpc == id
  {
    var e :=
      if r.StoringSnapshot? then SnapshotStored(id, r.snapshotProc.req.record) else SnapshotDropped(id, r.snapshot);
    assert EventOf(id, r, Snapshots(CM.Written)) == [e];
  }

  lemma GroupWriteIsLogged(log: seq<Event>, id: nat, r: Rpc)
    requires !Ended(r) && Shape(log, id, r) && NextCall(r).OnGroups? && !NextCall(r).groupCall.Get?
    ensures exists e :: EventOf(id, r, Groups(CM.Written)) == [e] && WritesRecord(e) && e.rpc == id
  {
    var e := if r.StoringGroup? then GroupStored(id, r.groupProc.req.record) else GroupDropped(id, r.group);
    assert EventOf(id, r, Groups(CM.Written)) == [e];
  }

  /** No change of a ConfigMap goes unlogged. */
  lemma RecordChangesAreLogged(s: System, id: nat, reply: Reply, s': System)
    requires Inv(s) && Serves(s, id, reply, s')
    requires s'.store.snapshots != s.store.snapshots || s'.store.groups != s.store.groups
    ensures exists e :: e in EventOf(id, s.rpcs[id], reply) && WritesRecord(e) && e.rpc == id
  {
    OnlyWritesChangeRecords(s.store, NextCall(s.rpcs[id]), reply, s'.store);
    assert Shape(s.log, id, s.rpcs[id]);
    if s'.store.snapshots != s.store.snapshots {
      SnapshotWriteIsLogged(s.log, id, s.rpcs[id]);
    } else {
      GroupWriteIsLogged(s.log, id, s.rpcs[id]);
    }
  }

  /** Nor does any other change that an RPC makes. */
  lemma ChangesAreLogged(s: System, id: nat, reply: Reply, s': System)
    requires Inv(s) && Serves(s, id, reply, s') && s'.store != s.store
    ensures exists e :: e in EventOf(id, s.rpcs[id], reply) && Writes(e) && e.rpc == id
  {
    if s'.store.snapshots != s.store.snapshots || s'.store.groups != s.store.groups {
      RecordChangesAreLogged(s, id, reply, s');
    } else {
      MadeObjectsAreLogged(s.store, id, s.rpcs[id], reply, s'.store);
    }
  }

  lemma MadeObjectsAreLogged(store: Store, id: nat, r: Rpc, reply: Reply, store': Store)
    requires !Ended(r) && Exec(store, NextCall(r), reply, store') && store' != store
    requires store'.snapshots == store.snapshots && store'.groups == store.groups
    ensures exists e :: e in EventOf(id, r, reply) && Writes(e) && e.rpc == id
  {
    assert (NextCall(r).CreateJob? || NextCall(r).CreateClaim?) && reply == Reply.Created;
    var events := EventOf(id, r, reply);
    assert events != [] && Writes(events[0]) && events[0].rpc == id;
  }

  /** Nothing has been written at these points of a Create. */
  predicate Untouching(r: Rpc) {
    || r.CreateStamping? || r.Validating? || r.ReadingClaim? || r.ListingPods? || r.CheckingHealth? || r.Provisioning?
    || (r.CreateDone? && r.created.Err? && r.created.error != SaveFailed)
  }

  /** No record has been written at these. */
  predicate Recordless(r: Rpc) {
    Checking(r) || r.Saving? || r.StampingRecord? || r.StoringSnapshot? || (r.CreateDone? && r.created.Err?)
  }

  ghost predicate NeverWrote(log: seq<Event>, id: nat) {
    forall e <- log :: !(Writes(e) && e.rpc == id)
  }

  ghost predicate NeverRecorded(log: seq<Event>, id: nat) {
    forall e <- log :: !(WritesRecord(e) && e.rpc == id)
  }

  ghost predicate LeftNoTrace(log: seq<Event>, id: nat, r: Rpc) {
    (Untouching(r) ==> NeverWrote(log, id)) && (Recordless(r) ==> NeverRecorded(log, id))
  }

  ghost predicate Traceless(s: System) {
    forall id <- s.rpcs :: LeftNoTrace(s.log, id, s.rpcs[id])
  }

  /* What comes after a step tells what came before it, one part of the programs at a time. */

  lemma CheckingStep(id: nat, r: Rpc, reply: Reply)
    requires Checking(r)
    ensures Untouching(CheckingNext(r, reply)) ==> Untouching(r) && forall e <- EventOf(id, r, reply) :: !Writes(e)
  {
    if r.StampingSnapshot? {
      assert CheckingNext(r, reply).Saving?;
    } else if r.Provisioning? {
      ProvisioningStep(id, r, reply);
    }
  }

  lemma CheckingRecordsNothing(id: nat, r: Rpc, reply: Reply)
    requires Checking(r)
    ensures forall e <- EventOf(id, r, reply) :: !WritesRecord(e)
  {
  }

  lemma ProvisioningStep(id: nat, r: Rpc, reply: Reply)
    requires r.Provisioning?
    ensures Untouching(CheckingNext(r, reply)) ==> forall e <- EventOf(id, r, reply) :: !Writes(e)
  {
  }

  lemma SavingStep(id: nat, r: Rpc, reply: Reply)
    requires Taking(r)
    ensures !Untouching(TakingNext(r, reply))
    ensures Recordless(TakingNext(r, reply)) ==> Recordless(r)
  {
  }

  lemma RecordlessEvents(id: nat, r: Rpc, reply: Reply)
    requires Taking(r) && Recordless(r)
    requires r.StoringSnapshot? ==> reply != Snapshots(CM.Written)
    ensures forall e <- EventOf(id, r, reply) :: !WritesRecord(e)
  {
  }

  lemma DeletesStayDeletes(r: Rpc, reply: Reply)
    requires !Ended(r) && !Checking(r) && !Taking(r)
    ensures !Untouching(Advance(r, reply)) && !Recordless(Advance(r, reply))
  {
    if Deleting(r) {
      assert Deleting(DeletingNext(r, reply)) || DeletingNext(r, reply).DeleteDone?;
    }
  }

  lemma UntouchingStep(id: nat, r: Rpc, reply: Reply)
    requires !Ended(r) && Untouching(Advance(r, reply))
    ensures Untouching(r) && forall e <- EventOf(id, r, reply) :: !Writes(e)
  {
    if Checking(r) {
      CheckingStep(id, r, reply);
    } else if Taking(r) {
      SavingStep(id, r, reply);
    } else {
      DeletesStayDeletes(r, reply);
    }
  }

  lemma RecordlessStep(id: nat, r: Rpc, reply: Reply)
    requires !Ended(r) && Recordless(Advance(r, reply))
    requires r.StoringSnapshot? ==> !Advance(r, reply).StoringSnapshot? || reply != Snapshots(CM.Written)
    ensures Recordless(r) && forall e <- EventOf(id, r, reply) :: !WritesRecord(e)
  {
    if Checking(r) {
      CheckingRecordsNothing(id, r, reply);
    } else if Taking(r) {
      SavingStep(id, r, reply);
      RecordlessEvents(id, r, reply);
    } else {
      DeletesStayDeletes(r, reply);
    }
  }

  lemma WrittenEndsTheStore(log: seq<Event>, id: nat, r: Rpc)
    requires r.StoringSnapshot? && Shape(log, id, r) && !r.snapshotProc.stage.Getting?
    ensures !Advance(r, Snapshots(CM.Written)).StoringSnapshot?
  {
  }

  lemma GetsAreNotWrites(store: Store, r: Rpc, reply: Reply, store': Store)
    requires r.StoringSnapshot? && Exec(store, NextCall(r), reply, store') && reply == Snapshots(CM.Written)
    ensures !r.snapshotProc.stage.Getting?
  {
  }

  lemma ServedTrace(store: Store, log: seq<Event>, id: nat, r: Rpc, reply: Reply, store': Store)
    requires !Ended(r) && Shape(log, id, r) && LeftNoTrace(log, id, r) && Exec(store, NextCall(r), reply, store')
    ensures LeftNoTrace(log + EventOf(id, r, reply), id, Advance(r, reply))
  {
    if Untouching(Advance(r, reply)) {
      UntouchingStep(id, r, reply);
    }
    if Recordless(Advance(r, reply)) {
      if r.StoringSnapshot? && reply == Snapshots(CM.Written) {
        GetsAreNotWrites(store, r, reply, store');
        WrittenEndsTheStore(log, id, r);
      }
      RecordlessStep(id, r, reply);
    }
  }

  lemma OtherTrace(log: seq<Event>, more: seq<Event>, j: nat, r: Rpc)
    requires LeftNoTrace(log, j, r) && forall e <- more :: Writes(e) ==> e.rpc != j
    ensures LeftNoTrace(log + more, j, r)
  {
  }

  lemma EventsNameTheirRpc(id: nat, r: Rpc, reply: Reply)
    requires !Ended(r)
    ensures forall e <- EventOf(id, r, reply) :: Writes(e) ==> e.rpc == id
  {
  }

  lemma ServeKeepsTraceless(s: System, id: nat, reply: Reply, s': System)
    requires Inv(s) && Traceless(s) && Serves(s, id, reply, s')
    ensures Traceless(s')
  {
    var r := s.rpcs[id];
    assert Shape(s.log, id, r) && LeftNoTrace(s.log, id, r);
    ServedTrace(s.store, s.log, id, r, reply, s'.store);
    EventsNameTheirRpc(id, r, reply);
    forall j | j in s'.rpcs && j != id ensures LeftNoTrace(s'.log, j, s'.rpcs[j]) {
      assert LeftNoTrace(s.log, j, s.rpcs[j]);
      OtherTrace(s.log, EventOf(id, r, reply), j, s.rpcs[j]);
    }
  }

  lemma JobStepKeepsTraceless(s: System, step: Step, s': System)
    requires Traceless(s) && JobActs(s, step, s')
    ensures Traceless(s')
  {
    forall j | j in s'.rpcs ensures LeftNoTrace(s'.log, j, s'.rpcs[j]) {
      assert LeftNoTrace(s.log, j, s.rpcs[j]);
      OtherTrace(s.log, JobEvents(step), j, s.rpcs[j]);
    }
  }

  /** An RPC that has just arrived is not in the log yet. */
  lemma IdleStepKeepsTraceless(s: System, step: Step, s': System)
    requires LogFits(s) && Traceless(s) && Idles(s, step, s')
    ensures Traceless(s')
  {
    forall j | j in s'.rpcs ensures LeftNoTrace(s'.log, j, s'.rpcs[j]) {
      if j in s.rpcs {
        assert LeftNoTrace(s.log, j, s.rpcs[j]);
      } else {
        assert NeverWrote(s.log, j);
      }
    }
  }

  lemma StepKeepsTraceless(s: System, step: Step, s': System)
    requires Inv(s) && Traceless(s) && Next(s, step, s')
    ensures Traceless(s')
  {
    if step.Serve? {
      ServeKeepsTraceless(s, step.id, step.reply, s');
    } else if OnJob(step) {
      JobStepKeepsTraceless(s, step, s');
    } else {
      IdleStepKeepsTraceless(s, step, s');
    }
  }

  lemma {:induction false} RunIsTraceless(run: seq<System>, steps: seq<Step>, i: nat)
    requires IsRun(run, steps) && i < |run|
    ensures Traceless(run[i])
    decreases i
  {
    if i > 0 {
      RunIsTraceless(run, steps, i - 1);
      RunKeepsInv(run, steps, i - 1);
      assert StepAt(run, steps, i - 1);
      StepKeepsTraceless(run[i - 1], steps[i - 1], run[i]);
    }
  }

  /** A step that changed the store left an event behind. */
  lemma StepLeavesItsEvents(run: seq<System>, steps: seq<Step>, i: nat, id: nat, k: nat)
    requires IsRun(run, steps) && k < i < |run| && steps[k].Serve? && steps[k].id == id
    ensures run[k + 1].store != run[k].store ==> exists e <- run[i].log :: Writes(e) && e.rpc == id
    ensures run[k + 1].store.snapshots != run[k].store.snapshots || run[k + 1].store.groups != run[k].store.groups ==>
      exists e <- run[i].log :: WritesRecord(e) && e.rpc == id
  {
    RunKeepsInv(run, steps, k);
    assert StepAt(run, steps, k);
    LogOnlyGrows(run, steps, k + 1, i);
    if run[k + 1].store != run[k].store {
      ChangesAreLogged(run[k], id, steps[k].reply, run[k + 1]);
    }
    if run[k + 1].store.snapshots != run[k].store.snapshots || run[k + 1].store.groups != run[k].store.groups {
      RecordChangesAreLogged(run[k], id, steps[k].reply, run[k + 1]);
    }
    assert forall e <- EventOf(id, run[k].rpcs[id], steps[k].reply) :: e in run[k + 1].log;
  }

  /** In every run: a Create that has failed never changed either ConfigMap, and
      unless it was the save job that failed it changed nothing at all. */
  lemma FailedCreateLeavesRecords(run: seq<System>, steps: seq<Step>, i: nat, id: nat, k: nat)
    requires IsRun(run, steps) && k < i < |run|
    requires id in run[i].rpcs && run[i].rpcs[id].CreateDone? && run[i].rpcs[id].created.Err?
    requires steps[k].Serve? && steps[k].id == id
    ensures run[k + 1].store.snapshots == run[k].store.snapshots && run[k + 1].store.groups == run[k].store.groups
    ensures run[i].rpcs[id].created.error != SaveFailed ==> run[k + 1].store == run[k].store
  {
    RunIsTraceless(run, steps, i);
    assert LeftNoTrace(run[i].log, id, run[i].rpcs[id]);
    StepLeavesItsEvents(run, steps, i, id, k);
  }

  lemma {:induction false} LogOnlyGrows(run: seq<System>, steps: seq<Step>, i: nat, j: nat)
    requires IsRun(run, steps) && i <= j < |run|
    ensures forall e <- run[i].log :: e in run[j].log
    decreases j - i
  {
    if i < j {
      LogOnlyGrows(run, steps, i, j - 1);
      assert StepAt(run, steps, j - 1);
    }
  }
}
