/** Every request comes to an end: how many calls it can still make depends only on
    where it stands and on how often its wait for a job ticks. */
module Progress {
  import opened Api
  import opened Machine
  import opened Protocol
  import CM = ConfigMaps

  function ProcRank<R>(p: CM.Proc<R>): nat {
    match p.stage
    case Getting => 2
    case Ended(_) => 0
    case _ => 1
  }

  /** Without a tick: a poll and the wait after it, or the creation and that wait. */
  function ExecRank(e: ExecStage): nat {
    match e
    case Creating(_, _) => 2
    case Awaiting(_) => 1
    case Polling(_) => 2
    case Finished(_) => 0
  }

  function VolumesLeft(d: Draft, i: nat): nat {
    if i < |d.volumes| then |d.volumes| - i else 0
  }

  function CheckingRank(r: Rpc): nat
    requires Checking(r)
  {
    match r
    case CreateStamping(_, _, ids) => 14 + 4 * |ids|
    case Validating(d, i) => 13 + 3 * |d.volumes| + VolumesLeft(d, i)
    case ReadingClaim(d, i) => 13 + 3 * VolumesLeft(d, i)
    case ListingPods(d, i, _) => 12 + 3 * VolumesLeft(d, i)
    case CheckingHealth(d, i, _) => 11 + 3 * VolumesLeft(d, i)
    case Provisioning(_, p) => if p.Looking? then 13 else 12
    case StampingSnapshot(_) => 11
  }

  function TakingRank(r: Rpc): nat
    requires Taking(r)
  {
    match r
    case Saving(_, e) => 8 + ExecRank(e)
    case StampingRecord(_) => 8
    case StoringSnapshot(_, p) => 5 + ProcRank(p)
    case StampingGroup(_) => 5
    case StoringGroup(_, p) => 2 + ProcRank(p)
    case StampingReply(_) => 2
    case StampingGroupReply(_, _) => 1
  }

  function DeletingRank(r: Rpc): nat
    requires Deleting(r)
  {
    match r
    case DeleteFinding(_) => 9
    case CleanupFinding(_, _) => 8
    case CleanupCreating(_, _, _) => 7
    case CleanupRunning(_, _, e) => 4 + ExecRank(e)
    case CleanupDropping(_, _, p) => 2 + ProcRank(p)
    case DroppingGroup(_, p) => ProcRank(p)
  }

  /** The most calls an RPC can still make if no wait ticks again. */
  function Rank(r: Rpc): nat {
    if Checking(r) then CheckingRank(r)
    else if Taking(r) then TakingRank(r)
    else if Deleting(r) then DeletingRank(r)
    else if r.GetFinding? then 2
    else if r.GetDetailing? then 1
    else 0
  }

  predicate IsTick(r: Rpc, reply: Reply)
    requires !Ended(r)
  {
    NextCall(r).Await? && reply.Tick?
  }

  lemma ExecStepRank(e: ExecStage, reply: Reply)
    requires !e.Finished?
    ensures ExecRank(ExecAdvance(e, reply)) < ExecRank(e) + if e.Awaiting? && reply.Tick? then 2 else 0
  {
  }

  lemma ProcStepRank<R>(p: CM.Proc<R>, reply: CM.Reply<R>)
    requires CM.WellFormed(p) && !p.stage.Ended?
    ensures ProcRank(CM.Advance(p, reply)) < ProcRank(p)
  {
  }

  lemma StampedRank(r: Rpc, reply: Reply)
    requires r.CreateStamping?
    ensures Rank(CheckingNext(r, reply)) < Rank(r)
  {
  }

  lemma ValidatingRank(r: Rpc, reply: Reply)
    requires r.Validating? && r.i < |r.d.volumes|
    ensures Rank(CheckingNext(r, reply)) < Rank(r)
  {
  }

  lemma DiscoveringRank(r: Rpc, reply: Reply)
    requires (r.ReadingClaim? || r.ListingPods?) && r.i < |r.d.volumes|
    ensures Rank(CheckingNext(r, reply)) < Rank(r)
  {
  }

  lemma HealthRank(r: Rpc, reply: Reply)
    requires r.CheckingHealth? && r.i < |r.d.volumes|
    ensures Rank(CheckingNext(r, reply)) < Rank(r)
  {
  }

  lemma ProvisioningRank(r: Rpc, reply: Reply)
    requires r.StampingSnapshot? || (r.Provisioning? && !r.claim.Done?)
    ensures Rank(CheckingNext(r, reply)) < Rank(r)
  {
  }

  lemma CheckingLowersRank(log: seq<Event>, id: nat, r: Rpc, reply: Reply)
    requires Checking(r) && Shape(log, id, r)
    ensures Rank(CheckingNext(r, reply)) < Rank(r)
  {
    match r
    case CreateStamping(_, _, _) => StampedRank(r, reply);
    case Validating(_, _) => ValidatingRank(r, reply);
    case ReadingClaim(_, _) => DiscoveringRank(r, reply);
    case ListingPods(_, _, _) => DiscoveringRank(r, reply);
    case CheckingHealth(_, _, _) => HealthRank(r, reply);
    case _ => ProvisioningRank(r, reply);
  }

  lemma RunningRank(r: Rpc, reply: Reply)
    requires (r.Saving? || r.CleanupRunning?) && !r.exec.Finished?
    ensures Rank(WithExec(r, ExecAdvance(r.exec, reply))) < Rank(r) + if r.exec.Awaiting? && reply.Tick? then 2 else 0
  {
    ExecStepRank(r.exec, reply);
  }

  lemma StoringRank(r: Rpc, reply: Reply)
    requires r.StoringSnapshot? || r.CleanupDropping?
    requires CM.WellFormed(r.snapshotProc) && !r.snapshotProc.stage.Ended?
    ensures Rank(WithSnapshotProc(r, CM.Advance(r.snapshotProc, SnapshotReplyOf(reply)))) < Rank(r)
  {
    ProcStepRank(r.snapshotProc, SnapshotReplyOf(reply));
  }

  lemma GroupingRank(r: Rpc, reply: Reply)
    requires r.StoringGroup? || r.DroppingGroup?
    requires CM.WellFormed(r.groupProc) && !r.groupProc.stage.Ended?
    ensures Rank(WithGroupProc(r, CM.Advance(r.groupProc, GroupReplyOf(reply)))) < Rank(r)
  {
    ProcStepRank(r.groupProc, GroupReplyOf(reply));
  }

  lemma StampingRank(r: Rpc, reply: Reply)
    requires Taking(r) && !r.Saving? && !r.StoringSnapshot? && !r.StoringGroup?
    ensures Rank(TakingNext(r, reply)) < Rank(r)
  {
  }

  lemma TakingLowersRank(log: seq<Event>, id: nat, r: Rpc, reply: Reply)
    requires Taking(r) && Shape(log, id, r)
    ensures Rank(TakingNext(r, reply)) < Rank(r) + if IsTick(r, reply) then 2 else 0
  {
    match r
    case Saving(_, _) => RunningRank(r, reply);
    case StoringSnapshot(_, _) => StoringRank(r, reply);
    case StoringGroup(_, _) => GroupingRank(r, reply);
    case _ => StampingRank(r, reply);
  }

  lemma LookupRank(r: Rpc, reply: Reply)
    requires r.DeleteFinding? || r.CleanupFinding? || r.CleanupCreating?
    ensures Rank(DeletingNext(r, reply)) < Rank(r)
  {
  }

  lemma DeletingLowersRank(log: seq<Event>, id: nat, r: Rpc, reply: Reply)
    requires Deleting(r) && Shape(log, id, r)
    ensures Rank(DeletingNext(r, reply)) < Rank(r) + if IsTick(r, reply) then 2 else 0
  {
    match r
    case CleanupRunning(_, _, _) => RunningRank(r, reply);
    case CleanupDropping(_, _, _) => StoringRank(r, reply);
    case DroppingGroup(_, _) => GroupingRank(r, reply);
    case _ => LookupRank(r, reply);
  }

  lemma StepLowersRank(log: seq<Event>, id: nat, r: Rpc, reply: Reply)
    requires !Ended(r) && Shape(log, id, r)
    ensures Rank(Advance(r, reply)) < Rank(r) + if IsTick(r, reply) then 2 else 0
  {
    if Checking(r) {
      CheckingLowersRank(log, id, r, reply);
    } else if Taking(r) {
      TakingLowersRank(log, id, r, reply);
    } else if Deleting(r) {
      DeletingLowersRank(log, id, r, reply);
    }
  }

  lemma EndedHasNoRank(log: seq<Event>, id: nat, r: Rpc)
    requires Shape(log, id, r)
    ensures Ended(r) <==> Rank(r) == 0
  {
  }

  /** One if the step answers a call of RPC id, or a wait of it with a tick. */
  function CallsOf(step: Step, id: nat): nat {
    if step.Serve? && step.id == id then 1 else 0
  }

  function TicksOf(s: System, step: Step, id: nat): nat {
    if step.Serve? && step.id == id && id in s.rpcs && !Ended(s.rpcs[id]) && IsTick(s.rpcs[id], step.reply)
    then 1 else 0
  }

  /** How many calls RPC id makes from the i-th to the j-th state. */
  function Calls(steps: seq<Step>, i: nat, j: nat, id: nat): nat
    requires i <= j <= |steps|
    decreases j - i
  {
    if i == j then 0 else Calls(steps, i, j - 1, id) + CallsOf(steps[j - 1], id)
  }

  /** How many of them are waits that tick. */
  function Ticks(run: seq<System>, steps: seq<Step>, i: nat, j: nat, id: nat): nat
    requires i <= j <= |steps| && |run| == |steps| + 1
    decreases j - i
  {
    if i == j then 0 else Ticks(run, steps, i, j - 1, id) + TicksOf(run[j - 1], steps[j - 1], id)
  }

  lemma StepRanks(s: System, step: Step, s': System, id: nat)
    requires Inv(s) && Next(s, step, s') && id in s.rpcs
    ensures id in s'.rpcs
    ensures Rank(s'.rpcs[id]) + CallsOf(step, id) <= Rank(s.rpcs[id]) + 2 * TicksOf(s, step, id)
  {
    if step.Serve? && step.id == id {
      assert Shape(s.log, id, s.rpcs[id]);
      StepLowersRank(s.log, id, s.rpcs[id], step.reply);
    }
  }

  /** What goes down by one with each call, but for two at a tick, bounds the calls. */
  lemma {:induction false} Descent(
    ranks: seq<int>, run: seq<System>, steps: seq<Step>, i: nat, j: nat, id: nat)
    requires i <= j < |run| == |steps| + 1 && |ranks| == j - i + 1
    requires forall k :: i <= k < j ==>
      ranks[k - i + 1] + CallsOf(steps[k], id) <= ranks[k - i] + 2 * TicksOf(run[k], steps[k], id)
    ensures ranks[j - i] + Calls(steps, i, j, id) <= ranks[0] + 2 * Ticks(run, steps, i, j, id)
    decreases j - i
  {
    if i < j {
      Descent(ranks[..j - i], run, steps, i, j - 1, id);
    }
  }

  lemma {:induction false} RpcsStay(run: seq<System>, steps: seq<Step>, i: nat, j: nat, id: nat)
    requires IsRun(run, steps) && i <= j < |run| && id in run[i].rpcs
    ensures id in run[j].rpcs
    decreases j - i
  {
    if i < j {
      RpcsStay(run, steps, i, j - 1, id);
      assert StepAt(run, steps, j - 1);
    }
  }

  ghost function RankAt(s: System, id: nat): nat {
    if id in s.rpcs then Rank(s.rpcs[id]) else 0
  }

  ghost predicate Lowers(s: System, step: Step, s': System, id: nat) {
    RankAt(s', id) + CallsOf(step, id) <= RankAt(s, id) + 2 * TicksOf(s, step, id)
  }

  lemma RunLowers(run: seq<System>, steps: seq<Step>, i: nat, k: nat, id: nat)
    requires IsRun(run, steps) && i <= k < |steps| && id in run[i].rpcs
    ensures Lowers(run[k], steps[k], run[k + 1], id)
  {
    RpcsStay(run, steps, i, k, id);
    RunKeepsInv(run, steps, k);
    assert StepAt(run, steps, k);
    StepRanks(run[k], steps[k], run[k + 1], id);
  }

  lemma CallsAreBounded(run: seq<System>, steps: seq<Step>, i: nat, j: nat, id: nat)
    requires i <= j < |run| == |steps| + 1
    requires forall k :: i <= k < j ==> Lowers(run[k], steps[k], run[k + 1], id)
    ensures RankAt(run[j], id) + Calls(steps, i, j, id) <= RankAt(run[i], id) + 2 * Ticks(run, steps, i, j, id)
  {
    var ranks := seq(j - i + 1, k requires 0 <= k <= j - i => RankAt(run[i + k], id));
    forall k | i <= k < j
      ensures ranks[k - i + 1] + CallsOf(steps[k], id) <= ranks[k - i] + 2 * TicksOf(run[k], steps[k], id)
    {
      assert Lowers(run[k], steps[k], run[k + 1], id);
    }
    Descent(ranks, run, steps, i, j, id);
  }

  /** In every run, whatever faults and interference there are: a request that has
      made its share of calls, and two more for each tick, has ended. */
  lemma RequestsEnd(run: seq<System>, steps: seq<Step>, i: nat, j: nat, id: nat)
    requires IsRun(run, steps) && i <= j < |run| && id in run[i].rpcs
    ensures id in run[j].rpcs
    ensures Ended(run[j].rpcs[id]) || Calls(steps, i, j, id) < Rank(run[i].rpcs[id]) + 2 * Ticks(run, steps, i, j, id)
  {
    forall k | i <= k < j ensures Lowers(run[k], steps[k], run[k + 1], id) {
      RunLowers(run, steps, i, k, id);
    }
    CallsAreBounded(run, steps, i, j, id);
    RpcsStay(run, steps, i, j, id);
    RunKeepsInv(run, steps, j);
    assert Shape(run[j].log, id, run[j].rpcs[id]);
    EndedHasNoRank(run[j].log, id, run[j].rpcs[id]);
  }
}
