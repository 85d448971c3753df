/** What the replies tell an RPC that has its job executed. */
module JobWaits {
  import opened Api
  import opened Machine
  import opened Protocol
  import CM = ConfigMaps

  /** The step answers a call of RPC id. */
  ghost predicate Answers(s: System, step: Step, id: nat) {
    step.Serve? && step.id == id && id in s.rpcs && !Ended(s.rpcs[id])
  }

  /** The step answers the executor's Create of the job. */
  ghost predicate Tries(s: System, step: Step, id: nat) {
    Answers(s, step, id) && NextCall(s.rpcs[id]).CreateJob? && !s.rpcs[id].CleanupCreating?
  }

  /** That Create went through, or found the job there. */
  ghost predicate Joins(s: System, step: Step, id: nat) {
    Tries(s, step, id) && step.reply in {Reply.Created, Failure(CM.AlreadyExists)}
  }

  /** A poll that shows success or failure, or the deadline. */
  ghost predicate EndsWait(s: System, step: Step, id: nat) {
    && Answers(s, step, id)
    && ((NextCall(s.rpcs[id]).PollJob? && step.reply.JobIs? && (step.reply.succeeded > 0 || step.reply.failed > 0))
        || (NextCall(s.rpcs[id]).Await? && !step.reply.Tick?))
  }

  ghost predicate SeesSuccess(s: System, step: Step, id: nat) {
    && Answers(s, step, id) && NextCall(s.rpcs[id]).PollJob?
    && step.reply.JobIs? && step.reply.succeeded > 0
  }

  /** RPC id joined its job in step a and has seen nothing that ends the wait before step b. */
  ghost predicate Waiting(run: seq<System>, steps: seq<Step>, a: nat, b: nat, id: nat)
    requires a < b < |run| == |steps| + 1
  {
    Joins(run[a], steps[a], id) && forall m :: a < m < b ==> !EndsWait(run[m], steps[m], id)
  }

  ghost predicate Waits(run: seq<System>, steps: seq<Step>, i: nat, j: nat, id: nat)
    requires i <= j < |run| == |steps| + 1
  {
    exists a: nat :: i <= a < j && Waiting(run, steps, a, j, id)
  }

  /** The job was joined, and the first thing to end the wait was a poll that showed success. */
  ghost predicate JobAnswered(run: seq<System>, steps: seq<Step>, i: nat, j: nat, id: nat)
    requires i <= j < |run| == |steps| + 1
  {
    exists a: nat, b: nat :: i <= a < b < j && Waiting(run, steps, a, b, id) && SeesSuccess(run[b], steps[b], id)
  }

  lemma WaitingGoesOn(run: seq<System>, steps: seq<Step>, i: nat, k: nat, id: nat)
    requires |run| == |steps| + 1 && i <= k < |steps| && !EndsWait(run[k], steps[k], id)
    requires Waits(run, steps, i, k, id)
    ensures Waits(run, steps, i, k + 1, id)
  {
    var a: nat :| i <= a < k && Waiting(run, steps, a, k, id);
    assert Waiting(run, steps, a, k + 1, id);
  }

  lemma WaitingStarts(run: seq<System>, steps: seq<Step>, i: nat, k: nat, id: nat)
    requires |run| == |steps| + 1 && i <= k < |steps| && Joins(run[k], steps[k], id)
    ensures Waits(run, steps, i, k + 1, id)
  {
    assert Waiting(run, steps, k, k + 1, id);
  }

  /** A success is an answer exactly when it ends a wait. */
  lemma AnsweredGrows(run: seq<System>, steps: seq<Step>, i: nat, k: nat, id: nat)
    requires |run| == |steps| + 1 && i <= k < |steps|
    ensures JobAnswered(run, steps, i, k + 1, id) <==>
      JobAnswered(run, steps, i, k, id) || (Waits(run, steps, i, k, id) && SeesSuccess(run[k], steps[k], id))
  {
    if JobAnswered(run, steps, i, k + 1, id) {
      var a: nat, b: nat :| i <= a < b < k + 1 && Waiting(run, steps, a, b, id) && SeesSuccess(run[b], steps[b], id);
      assert b == k ==> Waiting(run, steps, a, k, id);
    }
    if JobAnswered(run, steps, i, k, id) {
      var a: nat, b: nat :| i <= a < b < k && Waiting(run, steps, a, b, id) && SeesSuccess(run[b], steps[b], id);
      assert Waiting(run, steps, a, b, id);
    } else if Waits(run, steps, i, k, id) && SeesSuccess(run[k], steps[k], id) {
      var a: nat :| i <= a < k && Waiting(run, steps, a, k, id);
      assert Waiting(run, steps, a, k, id);
    }
  }
}
