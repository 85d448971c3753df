/** How a Create ends once its checks have passed, in terms of the replies it gets. */
module Outcome {
  import opened Identifiers
  import opened Api
  import opened Wrappers
  import opened Machine
  import opened Protocol
  import opened Lifecycle
  import opened Creation
  import opened JobWaits
  import CM = ConfigMaps

  /** The executor's Create of the save job was answered with another error. */
  ghost predicate FailsToJoin(s: System, step: Step, id: nat) {
    Tries(s, step, id) && !Joins(s, step, id)
  }

  /** The wait ends, and not with a success. */
  ghost predicate SeesFailure(s: System, step: Step, id: nat) {
    EndsWait(s, step, id) && !SeesSuccess(s, step, id)
  }

  /** The step answers the lookup or the Create of the snapshot claim with what is taken
      for an error. */
  ghost predicate Refuses(s: System, step: Step, id: nat) {
    && Answers(s, step, id) && s.rpcs[id].Provisioning?
    && if s.rpcs[id].claim.Making? then step.reply !in {Reply.Created, Failure(CM.AlreadyExists)}
       else !step.reply.ClaimIs? && (step.reply != Failure(CM.NotFound) || !s.rpcs[id].d.cfg.pvcSizeParses)
  }

  ghost predicate NotJoined(run: seq<System>, steps: seq<Step>, i: nat, j: nat, id: nat)
    requires i <= j < |run| == |steps| + 1
  {
    exists a: nat :: i <= a < j && FailsToJoin(run[a], steps[a], id)
  }

  /** The save job was joined, and the first thing to end the wait was a poll that showed
      a failure, or the deadline. */
  ghost predicate WaitFailed(run: seq<System>, steps: seq<Step>, i: nat, j: nat, id: nat)
    requires i <= j < |run| == |steps| + 1
  {
    exists a: nat, b: nat :: i <= a < b < j && Waiting(run, steps, a, b, id) && SeesFailure(run[b], steps[b], id)
  }

  ghost predicate Refused(run: seq<System>, steps: seq<Step>, i: nat, j: nat, id: nat)
    requires i <= j < |run| == |steps| + 1
  {
    exists a: nat :: i <= a < j && Refuses(run[a], steps[a], id)
  }

  /** The save is done with. */
  predicate IsSaved(r: Rpc) {
    (Taking(r) && !r.Saving?) || (r.CreateDone? && r.created.Ok?)
  }

  predicate IsCreate(r: Rpc) {
    Checking(r) || Taking(r) || r.CreateDone?
  }

  predicate Awaits(r: Rpc) {
    r.Saving? && !r.exec.Creating?
  }

  /** What the replies so far say about where the Create stands. */
  ghost predicate Told(run: seq<System>, steps: seq<Step>, i: nat, j: nat, id: nat)
    requires i <= j < |run| == |steps| + 1
  {
    && id in run[j].rpcs && IsCreate(run[j].rpcs[id])
    && (Awaits(run[j].rpcs[id]) ==> Waits(run, steps, i, j, id))
    && (IsSaved(run[j].rpcs[id]) <==> JobAnswered(run, steps, i, j, id))
    && (run[j].rpcs[id] == CreateFails(SaveFailed) <==>
          NotJoined(run, steps, i, j, id) || WaitFailed(run, steps, i, j, id))
    && (run[j].rpcs[id] == CreateFails(StorageFailed) <==> Refused(run, steps, i, j, id))
  }

  /* ----- one reply ----- */

  /** What a step does to the Create, in terms of the states before and after it. */
  ghost predicate Moves(s: System, step: Step, id: nat, r: Rpc, r': Rpc) {
    && IsCreate(r')
    && (Awaits(r') ==> Joins(s, step, id) || (Awaits(r) && !EndsWait(s, step, id)))
    && (IsSaved(r') <==> IsSaved(r) || SeesSuccess(s, step, id))
    && (r' == CreateFails(SaveFailed) <==>
          r == CreateFails(SaveFailed) || FailsToJoin(s, step, id) || SeesFailure(s, step, id))
    && (r' == CreateFails(StorageFailed) <==> r == CreateFails(StorageFailed) || Refuses(s, step, id))
    && (EndsWait(s, step, id) ==> Awaits(r))
  }

  lemma ProvisioningMoves(s: System, step: Step, id: nat)
    requires Answers(s, step, id) && s.rpcs[id].Provisioning? && Shape(s.log, id, s.rpcs[id])
    ensures Moves(s, step, id, s.rpcs[id], CheckingNext(s.rpcs[id], step.reply))
  {
  }

  lemma CheckingMoves(s: System, step: Step, id: nat)
    requires Answers(s, step, id) && Checking(s.rpcs[id]) && !s.rpcs[id].Provisioning?
    ensures Moves(s, step, id, s.rpcs[id], CheckingNext(s.rpcs[id], step.reply))
  {
    var r, r' := s.rpcs[id], CheckingNext(s.rpcs[id], step.reply);
    CheckingGoesOn(r, step.reply);
    assert !NextCall(r).CreateJob? && !NextCall(r).PollJob? && !NextCall(r).Await?;
  }

  lemma CheckingGoesOn(r: Rpc, reply: Reply)
    requires Checking(r) && !r.Provisioning?
    ensures var r' := CheckingNext(r, reply);
      && (Checking(r') || (r'.Saving? && r'.exec.Creating?) || (r'.CreateDone? && r'.created.Err?))
      && r' != CreateFails(SaveFailed) && r' != CreateFails(StorageFailed)
  {
  }

  lemma SavingMoves(s: System, step: Step, id: nat)
    requires Answers(s, step, id) && s.rpcs[id].Saving? && Shape(s.log, id, s.rpcs[id])
    ensures Moves(s, step, id, s.rpcs[id], TakingNext(s.rpcs[id], step.reply))
  {
  }

  lemma TakingMoves(s: System, step: Step, id: nat)
    requires Answers(s, step, id) && Taking(s.rpcs[id]) && !s.rpcs[id].Saving?
    ensures Moves(s, step, id, s.rpcs[id], TakingNext(s.rpcs[id], step.reply))
  {
  }

  lemma OwnStepMoves(s: System, step: Step, id: nat)
    requires Answers(s, step, id) && IsCreate(s.rpcs[id]) && Shape(s.log, id, s.rpcs[id])
    ensures Moves(s, step, id, s.rpcs[id], Advance(s.rpcs[id], step.reply))
  {
    if s.rpcs[id].Provisioning? {
      ProvisioningMoves(s, step, id);
    } else if Checking(s.rpcs[id]) {
      CheckingMoves(s, step, id);
    } else if s.rpcs[id].Saving? {
      SavingMoves(s, step, id);
    } else {
      TakingMoves(s, step, id);
    }
  }

  lemma OtherStepMoves(s: System, step: Step, id: nat, r: Rpc)
    requires !Answers(s, step, id) && IsCreate(r)
    ensures Moves(s, step, id, r, r)
  {
  }

  lemma StepMoves(s: System, step: Step, s': System, id: nat)
    requires Inv(s) && Next(s, step, s') && id in s.rpcs && IsCreate(s.rpcs[id])
    ensures id in s'.rpcs && Moves(s, step, id, s.rpcs[id], s'.rpcs[id])
  {
    if Answers(s, step, id) {
      assert Shape(s.log, id, s.rpcs[id]);
      OwnStepMoves(s, step, id);
    } else {
      OtherStepMoves(s, step, id, s.rpcs[id]);
    }
  }

  /* ----- runs ----- */

  lemma RefusedGrows(run: seq<System>, steps: seq<Step>, i: nat, k: nat, id: nat)
    requires |run| == |steps| + 1 && i <= k < |steps|
    ensures NotJoined(run, steps, i, k + 1, id) <==>
      NotJoined(run, steps, i, k, id) || FailsToJoin(run[k], steps[k], id)
    ensures Refused(run, steps, i, k + 1, id) <==> Refused(run, steps, i, k, id) || Refuses(run[k], steps[k], id)
  {
  }

  lemma WaitFailedGrows(run: seq<System>, steps: seq<Step>, i: nat, k: nat, id: nat)
    requires |run| == |steps| + 1 && i <= k < |steps|
    ensures WaitFailed(run, steps, i, k + 1, id) <==>
      WaitFailed(run, steps, i, k, id) || (Waits(run, steps, i, k, id) && SeesFailure(run[k], steps[k], id))
  {
    if WaitFailed(run, steps, i, k + 1, id) {
      var a: nat, b: nat :| i <= a < b < k + 1 && Waiting(run, steps, a, b, id) && SeesFailure(run[b], steps[b], id);
      assert b == k ==> Waiting(run, steps, a, k, id);
    }
    if WaitFailed(run, steps, i, k, id) {
      var a: nat, b: nat :| i <= a < b < k && Waiting(run, steps, a, b, id) && SeesFailure(run[b], steps[b], id);
      assert Waiting(run, steps, a, b, id);
    } else if Waits(run, steps, i, k, id) && SeesFailure(run[k], steps[k], id) {
      var a: nat :| i <= a < k && Waiting(run, steps, a, k, id);
      assert Waiting(run, steps, a, k, id);
    }
  }

  lemma MoveTells(run: seq<System>, steps: seq<Step>, i: nat, k: nat, id: nat)
    requires |run| == |steps| + 1 && i <= k < |steps| && Told(run, steps, i, k, id)
    requires id in run[k + 1].rpcs && Moves(run[k], steps[k], id, run[k].rpcs[id], run[k + 1].rpcs[id])
    ensures Told(run, steps, i, k + 1, id)
  {
    AnsweredGrows(run, steps, i, k, id);
    RefusedGrows(run, steps, i, k, id);
    WaitFailedGrows(run, steps, i, k, id);
    if Awaits(run[k + 1].rpcs[id]) {
      if Joins(run[k], steps[k], id) {
        WaitingStarts(run, steps, i, k, id);
      } else {
        WaitingGoesOn(run, steps, i, k, id);
      }
    }
  }

  lemma StepTells(run: seq<System>, steps: seq<Step>, i: nat, k: nat, id: nat)
    requires IsRun(run, steps) && i <= k < |steps| && Told(run, steps, i, k, id)
    ensures Told(run, steps, i, k + 1, id)
  {
    RunKeepsInv(run, steps, k);
    assert StepAt(run, steps, k);
    StepMoves(run[k], steps[k], run[k + 1], id);
    MoveTells(run, steps, i, k, id);
  }

  lemma NothingTold(run: seq<System>, steps: seq<Step>, i: nat, id: nat)
    requires i < |run| == |steps| + 1 && id in run[i].rpcs && run[i].rpcs[id].CreateStamping?
    ensures Told(run, steps, i, i, id)
  {
  }

  lemma {:induction false} RepliesTell(run: seq<System>, steps: seq<Step>, i: nat, j: nat, id: nat)
    requires IsRun(run, steps) && i <= j < |run| && id in run[i].rpcs && run[i].rpcs[id].CreateStamping?
    ensures Told(run, steps, i, j, id)
    decreases j - i
  {
    if i == j {
      NothingTold(run, steps, i, id);
    } else {
      RepliesTell(run, steps, i, j - 1, id);
      StepTells(run, steps, i, j - 1, id);
    }
  }

  /** In any run, a Create that has ended: it answered OK exactly if its save job was
      joined and the first thing to end the wait was a poll that showed a success; it
      failed to save exactly if the job was not joined, or the wait ended with a failure
      or the deadline; and it failed on its storage exactly if the lookup or the Create of
      the claim was refused. */
  lemma CreateEndsAsAnswered(run: seq<System>, steps: seq<Step>, i: nat, j: nat, id: nat)
    requires IsRun(run, steps) && i <= j < |run| && id in run[i].rpcs && run[i].rpcs[id].CreateStamping?
    requires id in run[j].rpcs && run[j].rpcs[id].CreateDone?
    ensures run[j].rpcs[id].created.Ok? <==> JobAnswered(run, steps, i, j, id)
    ensures run[j].rpcs[id].created == Err(SaveFailed) <==>
      NotJoined(run, steps, i, j, id) || WaitFailed(run, steps, i, j, id)
    ensures run[j].rpcs[id].created == Err(StorageFailed) <==> Refused(run, steps, i, j, id)
  {
    RepliesTell(run, steps, i, j, id);
  }

  /* ----- undisturbed ----- */

  /** The claim is looked up and is not there, and its size does not parse. */
  ghost predicate CannotProvision(s: System, step: Step, id: nat) {
    && Answers(s, step, id) && s.rpcs[id].Provisioning? && !s.rpcs[id].claim.Making?
    && SnapshotClaimKey(s.rpcs[id].d) !in s.store.claims && !s.rpcs[id].d.cfg.pvcSizeParses
  }

  lemma SoloRefusal(s: System, step: Step, s': System, id: nat, g: string)
    requires Inv(s) && Next(s, step, s') && Solo(s, step, s', id, g)
    ensures Refuses(s, step, id) <==> CannotProvision(s, step, id)
  {
    if Answers(s, step, id) {
      assert Shape(s.log, id, s.rpcs[id]);
    }
  }

  /** The save job of a new group is created, so it is joined. */
  lemma SoloJoins(run: seq<System>, steps: seq<Step>, i: nat, k: nat, id: nat, name: string)
    requires RunsAlone(run, steps, i, k, id, name) && k < |steps|
    requires SoloAt(run, steps, k, id, GroupId(name, Unix(run[i].store.clock)))
    requires Tries(run[k], steps[k], id) && IsCreate(run[k].rpcs[id])
    ensures Joins(run[k], steps[k], id)
  {
    var s, r := run[k], run[k].rpcs[id];
    RunKeepsInv(run, steps, k);
    assert Shape(s.log, id, r);
    assert r.Saving? && r.exec.Creating?;
    var d0 := AloneStands(run, steps, i, k, id, name);
    SaveJobIsCreated(s.log, id, r, d0, run[i].store, s.store, steps[k].reply, run[k + 1].store);
  }

  lemma AloneBefore(run: seq<System>, steps: seq<Step>, i: nat, k: nat, j: nat, id: nat, name: string)
    requires RunsAlone(run, steps, i, j, id, name) && i < k <= j
    ensures RunsAlone(run, steps, i, k, id, name)
  {
    var g := GroupId(name, Unix(run[i].store.clock));
    forall m: nat | i <= m < k ensures SoloAt(run, steps, m, id, g) {
    }
  }

  lemma AloneJoins(run: seq<System>, steps: seq<Step>, i: nat, j: nat, id: nat, name: string)
    requires RunsAlone(run, steps, i, j, id, name)
    ensures !NotJoined(run, steps, i, j, id)
  {
    forall a: nat | i <= a < j && Tries(run[a], steps[a], id) ensures Joins(run[a], steps[a], id) {
      RepliesTell(run, steps, i, a, id);
      if i < a {
        AloneBefore(run, steps, i, a, j, id, name);
        assert SoloAt(run, steps, a, id, GroupId(name, Unix(run[i].store.clock)));
        SoloJoins(run, steps, i, a, id, name);
      }
    }
  }

  lemma AloneRefusal(run: seq<System>, steps: seq<Step>, i: nat, a: nat, j: nat, id: nat, name: string)
    requires RunsAlone(run, steps, i, j, id, name) && i <= a < j
    ensures Refuses(run[a], steps[a], id) <==> CannotProvision(run[a], steps[a], id)
  {
    RunKeepsInv(run, steps, a);
    assert StepAt(run, steps, a) && SoloAt(run, steps, a, id, GroupId(name, Unix(run[i].store.clock)));
    SoloRefusal(run[a], steps[a], run[a + 1], id, GroupId(name, Unix(run[i].store.clock)));
  }

  /** An undisturbed Create of a new group that has ended: it answered OK exactly if the
      first thing to end the wait for its job was a poll that showed a success; it failed
      to save exactly if that was a poll that showed a failure, or the deadline; and it
      failed on its storage exactly if the claim was not there and its size does not parse. */
  lemma AloneCreateEnds(run: seq<System>, steps: seq<Step>, i: nat, j: nat, id: nat, name: string)
    requires RunsAlone(run, steps, i, j, id, name) && id in run[j].rpcs && run[j].rpcs[id].CreateDone?
    ensures run[j].rpcs[id].created.Ok? <==> JobAnswered(run, steps, i, j, id)
    ensures run[j].rpcs[id].created == Err(SaveFailed) <==> WaitFailed(run, steps, i, j, id)
    ensures run[j].rpcs[id].created == Err(StorageFailed) <==>
      exists a: nat :: i <= a < j && CannotProvision(run[a], steps[a], id)
  {
    CreateEndsAsAnswered(run, steps, i, j, id);
    AloneJoins(run, steps, i, j, id, name);
    forall a: nat | i <= a < j ensures Refuses(run[a], steps[a], id) <==> CannotProvision(run[a], steps[a], id) {
      AloneRefusal(run, steps, i, a, j, id, name);
    }
  }
}
