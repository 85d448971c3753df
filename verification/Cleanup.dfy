/** When a Delete sees its cleanup succeed, in terms of the replies it gets. */
module Cleanup {
  import opened Machine
  import opened Protocol
  import opened Lifecycle
  import opened JobWaits

  /** What the replies so far say about where the Delete stands. */
  ghost predicate Told(run: seq<System>, steps: seq<Step>, i: nat, j: nat, id: nat)
    requires i <= j < |run| == |steps| + 1
  {
    && id in run[j].rpcs && (Deleting(run[j].rpcs[id]) || run[j].rpcs[id].DeleteDone?)
    && (run[j].rpcs[id].CleanupRunning? && !run[j].rpcs[id].exec.Creating? ==> Waits(run, steps, i, j, id))
    && (CleanedUp(run, i, j, id) <==> JobAnswered(run, steps, i, j, id))
  }

  /** What a step does to the cleanup, in terms of where the Delete stood before and after. */
  ghost predicate Moves(s: System, step: Step, id: nat, r: Rpc, r': Rpc) {
    && (Deleting(r') || r'.DeleteDone?)
    && (r'.CleanupDropping? ==> r.CleanupDropping? || SeesSuccess(s, step, id))
    && (SeesSuccess(s, step, id) ==> r.CleanupRunning? && !r.exec.Creating? && r'.CleanupDropping?)
    && (r'.CleanupRunning? && !r'.exec.Creating? ==>
          || Joins(s, step, id)
          || (r.CleanupRunning? && !r.exec.Creating? && !EndsWait(s, step, id)))
  }

  /** One reply, as a Delete takes it. */
  lemma OwnStepMoves(s: System, step: Step, id: nat)
    requires Answers(s, step, id) && Deleting(s.rpcs[id]) && Shape(s.log, id, s.rpcs[id])
    ensures Moves(s, step, id, s.rpcs[id], DeletingNext(s.rpcs[id], step.reply))
  {
  }

  lemma OtherStepMoves(s: System, step: Step, id: nat, r: Rpc)
    requires !Answers(s, step, id) && (Deleting(r) || r.DeleteDone?)
    ensures Moves(s, step, id, r, r)
  {
  }

  lemma StepMoves(s: System, step: Step, s': System, id: nat)
    requires Inv(s) && Next(s, step, s') && id in s.rpcs && (Deleting(s.rpcs[id]) || s.rpcs[id].DeleteDone?)
    ensures id in s'.rpcs && Moves(s, step, id, s.rpcs[id], s'.rpcs[id])
  {
    if Answers(s, step, id) {
      assert Shape(s.log, id, s.rpcs[id]);
      OwnStepMoves(s, step, id);
    } else {
      OtherStepMoves(s, step, id, s.rpcs[id]);
    }
  }

  lemma MoveTells(run: seq<System>, steps: seq<Step>, i: nat, k: nat, id: nat)
    requires |run| == |steps| + 1 && i <= k < |steps| && Told(run, steps, i, k, id)
    requires id in run[k + 1].rpcs && Moves(run[k], steps[k], id, run[k].rpcs[id], run[k + 1].rpcs[id])
    ensures Told(run, steps, i, k + 1, id)
  {
    CleanedUpExtends(run, i, k, id);
    AnsweredGrows(run, steps, i, k, id);
    var r' := run[k + 1].rpcs[id];
    if r'.CleanupRunning? && !r'.exec.Creating? {
      if Joins(run[k], steps[k], id) {
        WaitingStarts(run, steps, i, k, id);
      } else {
        WaitingGoesOn(run, steps, i, k, id);
      }
    }
    if run[k].rpcs[id].CleanupDropping? {
      assert CleanedUp(run, i, k, id);
    }
  }

  lemma StepTells(run: seq<System>, steps: seq<Step>, i: nat, k: nat, id: nat)
    requires IsRun(run, steps) && i <= k < |steps| && Told(run, steps, i, k, id)
    ensures Told(run, steps, i, k + 1, id)
  {
    RunKeepsInv(run, steps, k);
    assert StepAt(run, steps, k);
    StepMoves(run[k], steps[k], run[k + 1], id);
    MoveTells(run, steps, i, k, id);
  }

  lemma NothingTold(run: seq<System>, steps: seq<Step>, i: nat, id: nat)
    requires i < |run| == |steps| + 1 && id in run[i].rpcs && run[i].rpcs[id].DeleteFinding?
    ensures Told(run, steps, i, i, id)
  {
  }

  lemma {:induction false} RepliesTell(run: seq<System>, steps: seq<Step>, i: nat, j: nat, id: nat)
    requires IsRun(run, steps) && i <= j < |run| && id in run[i].rpcs && run[i].rpcs[id].DeleteFinding?
    ensures Told(run, steps, i, j, id)
    decreases j - i
  {
    if i == j {
      NothingTold(run, steps, i, id);
    } else {
      RepliesTell(run, steps, i, j - 1, id);
      StepTells(run, steps, i, j - 1, id);
    }
  }

  /** In any run, a Delete sees its cleanup succeed exactly when the API server
      answers the executor's Create with Created or AlreadyExists and the first
      decisive poll, before the deadline, shows a success. */
  lemma CleanedUpMeansAnswered(run: seq<System>, steps: seq<Step>, i: nat, j: nat, id: nat)
    requires IsRun(run, steps) && i <= j < |run| && id in run[i].rpcs && run[i].rpcs[id].DeleteFinding?
    ensures CleanedUp(run, i, j, id) <==> JobAnswered(run, steps, i, j, id)
  {
    RepliesTell(run, steps, i, j, id);
  }
}
