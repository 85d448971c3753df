/** A Delete drops its group record whether or not its cleanup went through. A snapshot
    whose group record is gone is out of reach: no later Delete takes it off the record. */
module Abandonment {
  import opened Identifiers
  import opened Api
  import opened Machine
  import opened Protocol
  import opened Lifecycle
  import opened Creation
  import opened Isolation
  import opened Paths
  import opened Rejection

  /** The RPC is creating group g, or is cleaning up a snapshot of it. */
  ghost predicate Busy(r: Rpc, g: string) {
    || (Checking(r) && !r.CreateStamping? && r.d.groupId == g)
    || (Taking(r) && r.d.groupId == g)
    || (Deleting(r) && !r.DeleteFinding? && !r.DroppingGroup? && r.group == g)
  }

  /** Group g has no record, and nobody is busy with it. A Delete of g may still be
      looking for it, or dropping it. */
  ghost predicate Abandoned(s: System, g: string) {
    g !in GroupsOf(s.store) && forall id <- s.rpcs :: !Busy(s.rpcs[id], g)
  }

  /** The step gives a Create the group g. */
  ghost predicate Gives(s: System, step: Step, g: string) {
    && step.Serve? && step.id in s.rpcs && s.rpcs[step.id].CreateStamping?
    && g == GroupId(s.rpcs[step.id].name, Unix(TimeOf(step.reply)))
  }

  ghost predicate SameSnapshots(g: string, s: Store, s': Store) {
    forall k :: SnapshotOf(g, k) ==> At(SnapshotsOf(s), k) == At(SnapshotsOf(s'), k)
  }

  /** Creates get busy by being given the group, and Deletes by finding its record. */
  lemma StampingGetsBusy(r: Rpc, reply: Reply, g: string)
    requires r.CreateStamping? && Busy(CheckingNext(r, reply), g)
    ensures g == GroupId(r.name, Unix(TimeOf(reply)))
  {
  }

  lemma CheckingKeepsGroup(r: Rpc, reply: Reply, g: string)
    requires Checking(r) && !r.CreateStamping? && r.d.groupId != g
    ensures !Busy(CheckingNext(r, reply), g)
  {
    match r
    case Validating(d, i) => assert CheckingNext(r, reply) == AfterValidation(d, i, reply);
    case ReadingClaim(d, i) => assert CheckingNext(r, reply) == AfterClaim(d, i, reply);
    case ListingPods(d, i, cluster) => assert CheckingNext(r, reply) == AfterPods(d, i, cluster, reply);
    case CheckingHealth(d, i, info) => assert CheckingNext(r, reply) == AfterHealth(d, i, info, reply);
    case _ =>
  }

  lemma TakingKeepsGroup(r: Rpc, reply: Reply, g: string)
    requires Taking(r) && r.d.groupId != g
    ensures !Busy(TakingNext(r, reply), g)
  {
  }

  lemma LookupGetsBusy(r: Rpc, reply: Reply, g: string)
    requires r.DeleteFinding? && Busy(DeletingNext(r, reply), g)
    ensures r.group == g && FoundGroup(g, reply).Some?
  {
  }

  lemma DeletingKeepsGroup(r: Rpc, reply: Reply, g: string)
    requires Deleting(r) && !r.DeleteFinding? && (r.DroppingGroup? || r.group != g)
    ensures !Busy(DeletingNext(r, reply), g)
  {
  }

  lemma ServedIsNotBusy(s: System, id: nat, reply: Reply, s': System, g: string)
    requires Serves(s, id, reply, s') && Abandoned(s, g) && !Gives(s, Step.Serve(id, reply), g)
    ensures !Busy(s'.rpcs[id], g)
  {
    var r := s.rpcs[id];
    assert !Busy(r, g);
    if r.CreateStamping? {
      if Busy(CheckingNext(r, reply), g) {
        StampingGetsBusy(r, reply, g);
      }
    } else if Checking(r) {
      CheckingKeepsGroup(r, reply, g);
    } else if Taking(r) {
      TakingKeepsGroup(r, reply, g);
    } else if r.DeleteFinding? {
      if Busy(DeletingNext(r, reply), g) {
        LookupGetsBusy(r, reply, g);
      }
    } else if Deleting(r) {
      DeletingKeepsGroup(r, reply, g);
    }
  }

  /** A Delete of g that is not busy drops g's record or nothing. */
  lemma IdleDelete(store: Store, log: seq<Event>, id: nat, r: Rpc, reply: Reply, store': Store)
    requires r.DeleteFinding? || r.DroppingGroup?
    requires Shape(log, id, r) && UpToDate(r, store) && Exec(store, NextCall(r), reply, store')
    ensures SnapshotsOf(store') == SnapshotsOf(store)
    ensures GroupsOf(store').Keys <= GroupsOf(store).Keys
  {
    Footprint(store, log, id, r, reply, store');
  }

  lemma ServeKeepsAbandoned(s: System, id: nat, reply: Reply, s': System, g: string)
    requires Inv(s) && Serves(s, id, reply, s') && Abandoned(s, g)
    ensures g !in GroupsOf(s'.store) && SameSnapshots(g, s.store, s'.store)
  {
    var r := s.rpcs[id];
    assert !Busy(r, g);
    if WorksFor(r, g) {
      assert Shape(s.log, id, r) && UpToDate(r, s.store);
      IdleDelete(s.store, s.log, id, r, reply, s'.store);
    } else {
      ServeLeavesOthers(s, id, reply, s', g);
      assert At(GroupsOf(s.store), g) == At(GroupsOf(s'.store), g);
    }
  }

  lemma OthersKeepAbandoned(s: System, step: Step, s': System, g: string)
    requires Next(s, step, s') && !step.Serve? && Abandoned(s, g)
    ensures Abandoned(s', g) && SameSnapshots(g, s.store, s'.store)
  {
    forall id | id in s'.rpcs ensures !Busy(s'.rpcs[id], g) {
      assert id in s.rpcs ==> !Busy(s.rpcs[id], g);
    }
  }

  lemma StepKeepsAbandoned(s: System, step: Step, s': System, g: string)
    requires Inv(s) && Next(s, step, s') && Abandoned(s, g) && !Gives(s, step, g)
    ensures Abandoned(s', g) && SameSnapshots(g, s.store, s'.store)
  {
    if step.Serve? {
      ServeKeepsAbandoned(s, step.id, step.reply, s', g);
      ServedIsNotBusy(s, step.id, step.reply, s', g);
    } else {
      OthersKeepAbandoned(s, step, s', g);
    }
  }

  ghost predicate GivesAt(run: seq<System>, steps: seq<Step>, k: nat, g: string)
    requires k < |steps| < |run|
  {
    Gives(run[k], steps[k], g)
  }

  /** No Create is given the group from the i-th to the j-th state. */
  ghost predicate NeverGiven(run: seq<System>, steps: seq<Step>, i: nat, j: nat, g: string)
    requires i <= j < |run| == |steps| + 1
  {
    forall k: nat :: i <= k < j ==> !GivesAt(run, steps, k, g)
  }

  lemma RunKeepsAbandoned(run: seq<System>, steps: seq<Step>, k: nat, g: string)
    requires IsRun(run, steps) && k < |steps| && Abandoned(run[k], g) && !GivesAt(run, steps, k, g)
    ensures Abandoned(run[k + 1], g) && SameSnapshots(g, run[k].store, run[k + 1].store)
  {
    RunKeepsInv(run, steps, k);
    assert StepAt(run, steps, k);
    StepKeepsAbandoned(run[k], steps[k], run[k + 1], g);
  }

  lemma {:induction false} AbandonedGoesOn(run: seq<System>, steps: seq<Step>, i: nat, j: nat, g: string)
    requires IsRun(run, steps) && i <= j < |run| && Abandoned(run[i], g) && NeverGiven(run, steps, i, j, g)
    ensures Abandoned(run[j], g) && SameSnapshots(g, run[i].store, run[j].store)
    decreases j - i
  {
    if i < j {
      AbandonedGoesOn(run, steps, i, j - 1, g);
      assert !GivesAt(run, steps, j - 1, g);
      RunKeepsAbandoned(run, steps, j - 1, g);
    }
  }

  /** Once a group has no record, with nobody busy with it, and as long as no Create is
      given it again: its snapshot records are the same in every later state, whatever
      Deletes of it there are, and its group record does not come back. */
  lemma AbandonedSnapshotsStay(run: seq<System>, steps: seq<Step>, i: nat, j: nat, g: string, k: string)
    requires IsRun(run, steps) && i <= j < |run| && Abandoned(run[i], g) && NeverGiven(run, steps, i, j, g)
    requires SnapshotOf(g, k)
    ensures g !in GroupsOf(run[j].store)
    ensures k in SnapshotsOf(run[i].store) <==> k in SnapshotsOf(run[j].store)
    ensures k in SnapshotsOf(run[i].store) ==> SnapshotsOf(run[j].store)[k] == SnapshotsOf(run[i].store)[k]
  {
    AbandonedGoesOn(run, steps, i, j, g);
    var before, after := SnapshotsOf(run[i].store), SnapshotsOf(run[j].store);
    assert At(before, k) == At(after, k);
    if k in before || k in after {
      EqualAt(before, after, k);
    }
  }

  /* ----- no Create is given a second that is over ----- */

  lemma OnlyThisSecondIsGiven(s: System, step: Step, s': System, g: string)
    requires Next(s, step, s') && Gives(s, step, g)
    ensures g == GroupId(s.rpcs[step.id].name, Unix(s.store.clock))
  {
  }

  lemma PastGroupsAreNotGiven(run: seq<System>, steps: seq<Step>, i: nat, j: nat, name: string, time: nat)
    requires IsRun(run, steps) && i <= j < |run| && time < Unix(run[i].store.clock)
    ensures NeverGiven(run, steps, i, j, GroupId(name, time))
  {
    forall k: nat | i <= k < j ensures !GivesAt(run, steps, k, GroupId(name, time)) {
      TimeGoesOn(run, steps, i, k);
      assert StepAt(run, steps, k);
      if GivesAt(run, steps, k, GroupId(name, time)) {
        OnlyThisSecondIsGiven(run[k], steps[k], run[k + 1], GroupId(name, time));
        IdsDetermineTheirParts(name, time, 0, run[k].rpcs[steps[k].id].name, Unix(run[k].store.clock), 0);
      }
    }
  }

  /** So once the second of a group is over, and its record is gone with nobody busy with
      it, a snapshot of it that is on record stays there for good. */
  lemma AbandonedForGood(run: seq<System>, steps: seq<Step>, i: nat, j: nat, name: string, time: nat, k: string)
    requires IsRun(run, steps) && i <= j < |run| && time < Unix(run[i].store.clock)
    requires Abandoned(run[i], GroupId(name, time)) && SnapshotOf(GroupId(name, time), k)
    requires k in SnapshotsOf(run[i].store)
    ensures GroupId(name, time) !in GroupsOf(run[j].store)
    ensures k in SnapshotsOf(run[j].store) && SnapshotsOf(run[j].store)[k] == SnapshotsOf(run[i].store)[k]
  {
    PastGroupsAreNotGiven(run, steps, i, j, name, time);
    AbandonedSnapshotsStay(run, steps, i, j, GroupId(name, time), k);
  }

  /* ----- it can come to that ----- */

  /** Who is busy with a group knows it, or a snapshot of it. */
  lemma BusyIsKnown(log: seq<Event>, id: nat, r: Rpc, g: string)
    requires Shape(log, id, r) && Busy(r, g)
    ensures Known(log, g) || exists k :: SnapshotOf(g, k) && KnownSnapshot(log, k)
  {
    if !Deleting(r) {
      assert GroupStamped(id, r.d.Request(), r.d.stamp) in log;
    }
  }

  /** Nobody is busy with a group that no Create was given. */
  lemma NobodyBusyYet(s: System, id: nat, name: string, time: nat)
    requires Inv(s) && Unused(s.log, name, time) && id in s.rpcs
    ensures !Busy(s.rpcs[id], GroupId(name, time))
  {
    UnusedIsUnknown(s.log, name, time);
    assert Shape(s.log, id, s.rpcs[id]);
    if Busy(s.rpcs[id], GroupId(name, time)) {
      BusyIsKnown(s.log, id, s.rpcs[id], GroupId(name, time));
    }
  }

  lemma ArrivalsAreNotBusy(r: Rpc, g: string)
    requires IsBegin(r)
    ensures !Busy(r, g)
  {
  }

  /** Nobody but RPC id is busy with g. */
  ghost predicate OnlyBusy(s: System, id: nat, g: string) {
    forall x <- s.rpcs :: x != id ==> !Busy(s.rpcs[x], g)
  }

  lemma SoloKeepsOthersIdle(s: System, step: Step, s': System, id: nat, h: string, g: string)
    requires Next(s, step, s') && Solo(s, step, s', id, h) && OnlyBusy(s, id, g)
    ensures OnlyBusy(s', id, g)
  {
    if step.Arrive? {
      ArrivalsAreNotBusy(step.rpc, g);
    }
  }

  lemma {:induction false} OthersStayIdle(
    run: seq<System>, steps: seq<Step>, i: nat, j: nat, id: nat, h: string, g: string)
    requires IsRun(run, steps) && i <= j < |run| && Undisturbed(run, steps, i, j, id, h) && OnlyBusy(run[i], id, g)
    ensures OnlyBusy(run[j], id, g)
    decreases j - i
  {
    if i < j {
      OthersStayIdle(run, steps, i, j - 1, id, h, g);
      assert StepAt(run, steps, j - 1) && SoloAt(run, steps, j - 1, id, h);
      SoloKeepsOthersIdle(run[j - 1], steps[j - 1], run[j - 1 + 1], id, h, g);
    }
  }

  lemma NobodyBusyAfterCreate(run: seq<System>, steps: seq<Step>, i: nat, j: nat, id: nat, name: string)
    requires CreatesAlone(run, steps, i, j, id, name)
    ensures forall x <- run[j].rpcs :: !Busy(run[j].rpcs[x], GroupId(name, Unix(run[i].store.clock)))
  {
    var g := GroupId(name, Unix(run[i].store.clock));
    RunKeepsInv(run, steps, i);
    forall x | x in run[i].rpcs ensures !Busy(run[i].rpcs[x], g) {
      NobodyBusyYet(run[i], x, name, Unix(run[i].store.clock));
    }
    OthersStayIdle(run, steps, i, j, id, g, g);
  }

  /** Every run that ends with an undisturbed Create's answer and a Delete of it about
      to start goes on to one that ends with the Delete over without error, the snapshot
      on record without its file, and its group abandoned: so there it stays. */
  lemma LostForGood(run: seq<System>, steps: seq<Step>, i: nat, id: nat, name: string, deleter: nat)
    returns (run': seq<System>, steps': seq<Step>)
    requires CreatesAlone(run, steps, i, |steps|, id, name)
    requires deleter in run[|steps|].rpcs
    requires run[|steps|].rpcs[deleter] == DeleteFinding(run[|steps|].rpcs[id].created.value.groupId)
    ensures Continues(run, steps, run', steps')
    ensures var answer := run[|steps|].rpcs[id].created.value;
      && LosesTheFile(run[|steps|].store, deleter, run'[|steps'|], answer.groupId, answer.snapshotId)
      && Abandoned(run'[|steps'|], answer.groupId)
  {
    var g := GroupId(name, Unix(run[i].store.clock));
    var d := CreateTakes(run, steps, i, |steps|, id, name);
    NobodyBusyAfterCreate(run, steps, i, |steps|, id, name);
    run', steps' := RejectionLosesTheFile(run, steps, i, id, name, deleter);
    assert run'[|steps|] == run[|steps|];
    OthersStayIdle(run', steps', |steps|, |steps'|, deleter, g, g);
  }
}
