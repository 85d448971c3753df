/** Stretches of steps of one kind, and how a run goes on with one. */
module Paths {
  import opened Api
  import opened Machine
  import opened Protocol
  import opened Lifecycle
  import CM = ConfigMaps

  predicate Rejects(c: Call, reply: Reply) {
    c.CreateJob? && c.versioned ==> reply == Failure(CM.Other)
  }

  /** The step accepts no job object that carries a version. */
  ghost predicate RejectsAt(s: System, step: Step) {
    step.Serve? && step.id in s.rpcs && !Ended(s.rpcs[step.id]) ==>
      Rejects(NextCall(s.rpcs[step.id]), step.reply)
  }

  /** Any steps; those that leave RPC id and group g undisturbed; or those that also
      reject job objects with a version. */
  datatype Manner = Anyhow | Alone(id: nat, g: string) | AloneRejecting(id: nat, g: string)

  ghost predicate Obeys(m: Manner, s: System, step: Step, s': System) {
    && Next(s, step, s')
    && (m.Anyhow? || Solo(s, step, s', m.id, m.g))
    && (m.AloneRejecting? ==> RejectsAt(s, step))
  }

  ghost predicate IsPath(m: Manner, states: seq<System>, steps: seq<Step>) {
    |states| == |steps| + 1 && forall k: nat :: k < |steps| ==> ObeysAt(m, states, steps, k)
  }

  ghost predicate ObeysAt(m: Manner, states: seq<System>, steps: seq<Step>, k: nat)
    requires k < |steps| < |states|
  {
    Obeys(m, states[k], steps[k], states[k + 1])
  }

  ghost predicate Leads(m: Manner, states: seq<System>, steps: seq<Step>, s: System, s': System) {
    IsPath(m, states, steps) && states[0] == s && states[|steps|] == s'
  }

  ghost predicate Reaches(m: Manner, s: System, s': System) {
    exists states, steps :: Leads(m, states, steps, s, s')
  }

  lemma ReachesItself(m: Manner, s: System)
    ensures Reaches(m, s, s)
  {
    assert Leads(m, [s], [], s, s);
  }

  lemma SameStepObeys(
    m: Manner, states: seq<System>, steps: seq<Step>, k: nat, states': seq<System>, steps': seq<Step>, k': nat)
    requires k < |steps| < |states| && k' < |steps'| < |states'| && ObeysAt(m, states, steps, k)
    requires states[k] == states'[k'] && steps[k] == steps'[k'] && states[k + 1] == states'[k' + 1]
    ensures ObeysAt(m, states', steps', k')
  {
  }

  lemma PathGoesOn(m: Manner, states: seq<System>, steps: seq<Step>, s: System, t: System, step: Step, u: System)
    requires Leads(m, states, steps, s, t) && Obeys(m, t, step, u)
    ensures Leads(m, states + [u], steps + [step], s, u)
  {
    var states', steps' := states + [u], steps + [step];
    forall k: nat | k < |steps'| ensures ObeysAt(m, states', steps', k) {
      if k < |steps| {
        SameStepObeys(m, states, steps, k, states', steps', k);
      } else {
        SameStepObeys(m, [t, u], [step], 0, states', steps', k);
      }
    }
  }

  lemma ReachesOneMore(m: Manner, s: System, t: System, step: Step, u: System)
    requires Reaches(m, s, t) && Obeys(m, t, step, u)
    ensures Reaches(m, s, u)
  {
    var states, steps :| Leads(m, states, steps, s, t);
    PathGoesOn(m, states, steps, s, t, step, u);
  }

  lemma PathsJoin(m: Manner, states: seq<System>, steps: seq<Step>, more: seq<System>, moreSteps: seq<Step>)
    requires IsPath(m, states, steps) && IsPath(m, more, moreSteps) && states[|steps|] == more[0]
    ensures IsPath(m, states + more[1..], steps + moreSteps)
    ensures (states + more[1..])[0] == states[0]
    ensures (states + more[1..])[|steps + moreSteps|] == more[|moreSteps|]
  {
    var states', steps' := states + more[1..], steps + moreSteps;
    assert forall k :: 0 <= k <= |moreSteps| ==> states'[|steps| + k] == more[k];
    forall k: nat | k < |steps'| ensures ObeysAt(m, states', steps', k) {
      if k < |steps| {
        SameStepObeys(m, states, steps, k, states', steps', k);
      } else {
        SameStepObeys(m, more, moreSteps, k - |steps|, states', steps', k);
      }
    }
  }

  lemma ReachesOnwards(m: Manner, s: System, t: System, u: System)
    requires Reaches(m, s, t) && Reaches(m, t, u)
    ensures Reaches(m, s, u)
  {
    var states, steps :| Leads(m, states, steps, s, t);
    var more, moreSteps :| Leads(m, more, moreSteps, t, u);
    PathsJoin(m, states, steps, more, moreSteps);
    assert Leads(m, states + more[1..], steps + moreSteps, s, u);
  }

  /* ----- one call of one RPC ----- */

  ghost function AfterReply(s: System, id: nat, reply: Reply, store: Store): System
    requires id in s.rpcs && !Ended(s.rpcs[id])
  {
    System(store, s.rpcs[id := Advance(s.rpcs[id], reply)], s.log + EventOf(id, s.rpcs[id], reply))
  }

  /** A reply that the manner allows. */
  ghost predicate Allows(m: Manner, store: Store, id: nat, c: Call, reply: Reply, store': Store) {
    match m
    case Anyhow => Exec(store, c, reply, store')
    case Alone(x, _) => x == id && Processed(store, c, reply, store')
    case AloneRejecting(x, _) => x == id && Processed(store, c, reply, store') && Rejects(c, reply)
  }

  lemma ReplyReaches(m: Manner, s: System, id: nat, reply: Reply, store: Store)
    requires id in s.rpcs && !Ended(s.rpcs[id]) && Allows(m, s.store, id, NextCall(s.rpcs[id]), reply, store)
    ensures Reaches(m, s, AfterReply(s, id, reply, store))
  {
    ReachesItself(m, s);
    ReachesOneMore(m, s, s, Step.Serve(id, reply), AfterReply(s, id, reply, store));
  }

  /* ----- runs ----- */

  /** The run from its i-th state on is of one kind. */
  ghost predicate Follows(m: Manner, run: seq<System>, steps: seq<Step>, i: nat)
    requires |run| == |steps| + 1
  {
    forall k: nat :: i <= k < |steps| ==> ObeysAt(m, run, steps, k)
  }

  lemma RunIsPath(run: seq<System>, steps: seq<Step>)
    requires IsRun(run, steps)
    ensures IsPath(Anyhow, run, steps)
  {
    forall k: nat | k < |steps| ensures ObeysAt(Anyhow, run, steps, k) {
      assert StepAt(run, steps, k);
    }
  }

  lemma PathIsAnyPath(m: Manner, states: seq<System>, steps: seq<Step>)
    requires IsPath(m, states, steps)
    ensures IsPath(Anyhow, states, steps)
  {
    forall k: nat | k < |steps| ensures ObeysAt(Anyhow, states, steps, k) {
      assert ObeysAt(m, states, steps, k);
    }
  }

  lemma PathIsRun(run: seq<System>, steps: seq<Step>)
    requires IsPath(Anyhow, run, steps) && Init(run[0])
    ensures IsRun(run, steps)
  {
    forall k: nat | k < |steps| ensures StepAt(run, steps, k) {
      assert ObeysAt(Anyhow, run, steps, k);
    }
  }

  /** run' is a run that begins with run. */
  ghost predicate Continues(run: seq<System>, steps: seq<Step>, run': seq<System>, steps': seq<Step>) {
    IsRun(run', steps') && run <= run' && steps <= steps'
  }

  lemma ContinuesOnwards(
    a: seq<System>, aSteps: seq<Step>, b: seq<System>, bSteps: seq<Step>, c: seq<System>, cSteps: seq<Step>)
    requires Continues(a, aSteps, b, bSteps) && Continues(b, bSteps, c, cSteps)
    ensures Continues(a, aSteps, c, cSteps)
  {
  }

  lemma RunsOneMore(run: seq<System>, steps: seq<Step>, step: Step, s': System)
    requires IsRun(run, steps) && Next(run[|steps|], step, s')
    ensures Continues(run, steps, run + [s'], steps + [step])
  {
    forall k: nat | k < |steps + [step]| ensures StepAt(run + [s'], steps + [step], k) {
      if k < |steps| {
        assert StepAt(run, steps, k);
      }
    }
  }

  /** A run whose last state reaches another goes on to it. */
  lemma RunReaches(m: Manner, run: seq<System>, steps: seq<Step>, s': System)
    returns (run': seq<System>, steps': seq<Step>)
    requires IsRun(run, steps) && Reaches(m, run[|steps|], s')
    ensures Continues(run, steps, run', steps') && run'[|steps'|] == s'
    ensures Follows(m, run', steps', |steps|)
  {
    var states, more :| Leads(m, states, more, run[|steps|], s');
    run', steps' := run + states[1..], steps + more;
    RunIsPath(run, steps);
    PathIsAnyPath(m, states, more);
    PathsJoin(Anyhow, run, steps, states, more);
    PathIsRun(run', steps');
    assert forall k :: 0 <= k <= |more| ==> run'[|steps| + k] == states[k];
    forall k: nat | |steps| <= k < |steps'| ensures ObeysAt(m, run', steps', k) {
      SameStepObeys(m, states, more, k - |steps|, run', steps', k);
    }
  }

  lemma FollowingIsUndisturbed(m: Manner, run: seq<System>, steps: seq<Step>, i: nat)
    requires |run| == |steps| + 1 && i <= |steps| && !m.Anyhow? && Follows(m, run, steps, i)
    ensures Undisturbed(run, steps, i, |steps|, m.id, m.g)
  {
    forall k: nat | i <= k < |steps| ensures SoloAt(run, steps, k, m.id, m.g) {
      assert ObeysAt(m, run, steps, k);
    }
  }
}
