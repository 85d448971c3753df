/** What the handlers achieve while nothing disturbs them: one RPC steps at a
    time, none of its calls fails, and only jobs of its own group move. Each
    stretch starts in any reachable state, whatever happened before. */
module Lifecycle {
  import opened Identifiers
  import opened Api
  import opened Machine
  import opened Protocol
  import opened Progress
  import CM = ConfigMaps

  /** A step that is RPC id's own, with its call processed, or that is no RPC's
      and moves no job of another group. */
  ghost predicate Solo(s: System, step: Step, s': System, id: nat, g: string) {
    match step
    case Serve(x, reply) =>
      x == id && id in s.rpcs && !Ended(s.rpcs[id]) && Processed(s.store, NextCall(s.rpcs[id]), reply, s'.store)
    case Arrive(_, _) => true
    case Clock(_) => true
    case Claims(_) => true
    case _ => step.key in s.store.jobs && SnapshotOf(g, s.store.jobs[step.key].spec.snapshotId)
  }

  ghost predicate Undisturbed(run: seq<System>, steps: seq<Step>, i: nat, j: nat, id: nat, g: string)
    requires |run| == |steps| + 1 && i <= j < |run|
  {
    forall k: nat :: i <= k < j ==> SoloAt(run, steps, k, id, g)
  }

  ghost predicate SoloAt(run: seq<System>, steps: seq<Step>, k: nat, id: nat, g: string)
    requires k < |steps| < |run|
  {
    Solo(run[k], steps[k], run[k + 1], id, g)
  }

  /* ----- Delete ----- */

  function GroupsOf(s: Store): map<string, GroupRecord> {
    CM.Contents(s.groups)
  }

  function SnapshotsOf(s: Store): map<string, SnapshotRecord> {
    CM.Contents(s.snapshots)
  }

  predicate SameMetadata(a: Store, b: Store) {
    GroupsOf(a) == GroupsOf(b) && SnapshotsOf(a) == SnapshotsOf(b)
  }

  /** The snapshot a Delete of g cleans up. */
  function Target(s: Store, g: string): string {
    if g in GroupsOf(s) then GroupsOf(s)[g].snapshotId else ""
  }

  function SnapshotsLeft(start: Store, g: string, cleaned: bool): map<string, SnapshotRecord> {
    if cleaned then SnapshotsOf(start) - {Target(start, g)} else SnapshotsOf(start)
  }

  /** How far a Delete of g has come since the store was start; cleaned says
      whether it has seen its cleanup job succeed. */
  ghost predicate DeleteStands(r: Rpc, g: string, start: Store, s: Store, cleaned: bool) {
    match r
    case DeleteFinding(h) => h == g && SameMetadata(start, s) && !cleaned
    case CleanupFinding(h, k) => CleansUp(h, k, g, start, s) && !cleaned
    case CleanupCreating(h, k, _) => CleansUp(h, k, g, start, s) && !cleaned
    case CleanupRunning(h, k, _) => CleansUp(h, k, g, start, s) && !cleaned
    case CleanupDropping(h, k, p) => CleansUp(h, k, g, start, s) && cleaned && CM.InSync(p, s.snapshots)
    case DroppingGroup(h, p) =>
      && h == g && GroupsOf(s) == GroupsOf(start) && CM.InSync(p, s.groups)
      && SnapshotsOf(s) == SnapshotsLeft(start, g, cleaned)
    case DeleteDone(ok) =>
      ok && GroupsOf(s) == GroupsOf(start) - {g} && SnapshotsOf(s) == SnapshotsLeft(start, g, cleaned)
    case _ => false
  }

  ghost predicate CleansUp(h: string, k: string, g: string, start: Store, s: Store) {
    h == g && g in GroupsOf(start) && k == Target(start, g) && SameMetadata(start, s)
  }

  lemma LookupAdvances(r: Rpc, g: string, start: Store, s: Store, reply: Reply, s': Store)
    requires (r.DeleteFinding? || r.CleanupFinding?) && DeleteStands(r, g, start, s, false)
    requires Processed(s, NextCall(r), reply, s')
    ensures DeleteStands(Advance(r, reply), g, start, s', false)
  {
  }

  lemma CleanupAdvances(r: Rpc, g: string, start: Store, s: Store, reply: Reply, s': Store)
    requires (r.CleanupCreating? || r.CleanupRunning?) && DeleteStands(r, g, start, s, false)
    requires Processed(s, NextCall(r), reply, s')
    ensures DeleteStands(Advance(r, reply), g, start, s', Advance(r, reply).CleanupDropping?)
  {
  }

  lemma DropAdvances(
    log: seq<Event>, id: nat, r: Rpc, g: string, start: Store, s: Store, cleaned: bool, reply: Reply, s': Store)
    requires (r.CleanupDropping? || r.DroppingGroup?) && DeleteStands(r, g, start, s, cleaned) && Shape(log, id, r)
    requires Processed(s, NextCall(r), reply, s')
    ensures DeleteStands(Advance(r, reply), g, start, s', cleaned)
  {
    if r.CleanupDropping? {
      CM.AloneItSucceeds(r.snapshotProc, s.snapshots);
    } else {
      CM.AloneItSucceeds(r.groupProc, s.groups);
    }
  }

  /** Steps that are no RPC's leave RPCs and ConfigMaps alone. */
  lemma OtherSteps(s: System, step: Step, s': System, id: nat)
    requires Next(s, step, s') && !step.Serve? && id in s.rpcs
    ensures id in s'.rpcs && s'.rpcs[id] == s.rpcs[id]
    ensures s'.store.groups == s.store.groups && s'.store.snapshots == s.store.snapshots
    ensures s.store.clock <= s'.store.clock
  {
  }

  lemma SoloDelete(s: System, step: Step, s': System, id: nat, g: string, start: Store, cleaned: bool)
    requires Inv(s) && Next(s, step, s') && Solo(s, step, s', id, g)
    requires id in s.rpcs && DeleteStands(s.rpcs[id], g, start, s.store, cleaned)
    ensures id in s'.rpcs
    ensures DeleteStands(s'.rpcs[id], g, start, s'.store, cleaned || s'.rpcs[id].CleanupDropping?)
  {
    if step.Serve? {
      var r := s.rpcs[id];
      if r.DeleteFinding? || r.CleanupFinding? {
        LookupAdvances(r, g, start, s.store, step.reply, s'.store);
      } else if r.CleanupCreating? || r.CleanupRunning? {
        CleanupAdvances(r, g, start, s.store, step.reply, s'.store);
      } else {
        assert Shape(s.log, id, r);
        DropAdvances(s.log, id, r, g, start, s.store, cleaned, step.reply, s'.store);
      }
    } else {
      OtherSteps(s, step, s', id);
    }
  }

  /** RPC id saw its cleanup job succeed. */
  ghost predicate CleanedUp(run: seq<System>, i: nat, j: nat, id: nat)
    requires i <= j < |run|
  {
    exists k :: i <= k <= j && id in run[k].rpcs && run[k].rpcs[id].CleanupDropping?
  }

  lemma CleanedUpExtends(run: seq<System>, i: nat, k: nat, id: nat)
    requires i <= k < |run| - 1 && id in run[k + 1].rpcs
    ensures CleanedUp(run, i, k + 1, id) <==> CleanedUp(run, i, k, id) || run[k + 1].rpcs[id].CleanupDropping?
  {
  }

  lemma DeleteExtends(run: seq<System>, steps: seq<Step>, i: nat, k: nat, id: nat, g: string)
    requires IsRun(run, steps) && i <= k < |steps| && SoloAt(run, steps, k, id, g) && id in run[k].rpcs
    requires DeleteStands(run[k].rpcs[id], g, run[i].store, run[k].store, CleanedUp(run, i, k, id))
    ensures id in run[k + 1].rpcs
    ensures DeleteStands(run[k + 1].rpcs[id], g, run[i].store, run[k + 1].store, CleanedUp(run, i, k + 1, id))
  {
    RunKeepsInv(run, steps, k);
    assert StepAt(run, steps, k);
    SoloDelete(run[k], steps[k], run[k + 1], id, g, run[i].store, CleanedUp(run, i, k, id));
    CleanedUpExtends(run, i, k, id);
  }

  lemma {:induction false} DeleteProgress(run: seq<System>, steps: seq<Step>, i: nat, j: nat, id: nat, g: string)
    requires IsRun(run, steps) && i <= j < |run| && Undisturbed(run, steps, i, j, id, g)
    requires id in run[i].rpcs && run[i].rpcs[id] == DeleteFinding(g)
    ensures id in run[j].rpcs
    ensures DeleteStands(run[j].rpcs[id], g, run[i].store, run[j].store, CleanedUp(run, i, j, id))
    decreases j - i
  {
    if i < j {
      DeleteProgress(run, steps, i, j - 1, id, g);
      assert SoloAt(run, steps, j - 1, id, g);
      DeleteExtends(run, steps, i, j - 1, id, g);
    }
  }

  /** From any reachable state, however an earlier Delete left it, a Delete that
      is not disturbed ends after at most nine calls and two more for each tick
      of its wait, without error and with g's record gone and every other group's
      kept; a snapshot record goes only if its cleanup was seen to succeed. */
  lemma DeleteConverges(run: seq<System>, steps: seq<Step>, i: nat, j: nat, id: nat, g: string)
    requires IsRun(run, steps) && i <= j < |run| && Undisturbed(run, steps, i, j, id, g)
    requires id in run[i].rpcs && run[i].rpcs[id] == DeleteFinding(g)
    ensures id in run[j].rpcs
    ensures Ended(run[j].rpcs[id]) || Calls(steps, i, j, id) < 9 + 2 * Ticks(run, steps, i, j, id)
    ensures Ended(run[j].rpcs[id]) ==>
      && run[j].rpcs[id] == DeleteDone(true)
      && GroupsOf(run[j].store) == GroupsOf(run[i].store) - {g}
      && SnapshotsOf(run[j].store) == SnapshotsLeft(run[i].store, g, CleanedUp(run, i, j, id))
  {
    RequestsEnd(run, steps, i, j, id);
    DeleteProgress(run, steps, i, j, id, g);
  }

  /* ----- a second Delete ----- */

  /** A Delete of a group that has no record is over after one call and changes
      nothing, whatever else is going on. */
  lemma RecordlessDelete(s: System, id: nat, reply: Reply, s': System, g: string)
    requires Serves(s, id, reply, s') && s.rpcs[id] == DeleteFinding(g) && g !in GroupsOf(s.store)
    ensures s'.store == s.store && s'.log == s.log && s'.rpcs[id] == DeleteDone(true)
  {
  }

  /** No RPC's step from the i-th to the j-th state touches the store. */
  ghost predicate Untouching(run: seq<System>, steps: seq<Step>, i: nat, j: nat)
    requires i <= j < |run| == |steps| + 1
  {
    forall m :: i <= m < j && steps[m].Serve? ==> run[m + 1].store == run[m].store
  }

  /** A Delete of g that has made the given number of calls, and no g to delete. */
  ghost predicate NothingToDelete(s: System, id: nat, g: string, calls: nat) {
    && g !in GroupsOf(s.store) && id in s.rpcs
    && s.rpcs[id] == if calls == 0 then DeleteFinding(g) else DeleteDone(true)
  }

  lemma NothingIsDeleted(s: System, step: Step, s': System, id: nat, g: string, calls: nat)
    requires Next(s, step, s') && Solo(s, step, s', id, g) && NothingToDelete(s, id, g, calls)
    ensures NothingToDelete(s', id, g, calls + CallsOf(step, id))
    ensures SameMetadata(s.store, s'.store) && (step.Serve? ==> s'.store == s.store)
  {
    if step.Serve? {
      RecordlessDelete(s, id, step.reply, s', g);
    } else {
      OtherSteps(s, step, s', id);
    }
  }

  lemma RunDeletesNothing(run: seq<System>, steps: seq<Step>, k: nat, id: nat, g: string, calls: nat)
    requires IsRun(run, steps) && k < |steps| && SoloAt(run, steps, k, id, g) && NothingToDelete(run[k], id, g, calls)
    ensures NothingToDelete(run[k + 1], id, g, calls + CallsOf(steps[k], id))
    ensures SameMetadata(run[k].store, run[k + 1].store)
    ensures steps[k].Serve? ==> run[k + 1].store == run[k].store
  {
    assert StepAt(run, steps, k);
    NothingIsDeleted(run[k], steps[k], run[k + 1], id, g, calls);
  }

  lemma UntouchingExtends(run: seq<System>, steps: seq<Step>, i: nat, k: nat)
    requires i <= k < |steps| && |run| == |steps| + 1 && Untouching(run, steps, i, k)
    requires steps[k].Serve? ==> run[k + 1].store == run[k].store
    ensures Untouching(run, steps, i, k + 1)
  {
  }

  lemma {:induction false} RecordlessDeleteIdles(
    run: seq<System>, steps: seq<Step>, i: nat, j: nat, id: nat, g: string)
    requires IsRun(run, steps) && i <= j < |run| && Undisturbed(run, steps, i, j, id, g)
    requires id in run[i].rpcs && run[i].rpcs[id] == DeleteFinding(g) && g !in GroupsOf(run[i].store)
    ensures NothingToDelete(run[j], id, g, Calls(steps, i, j, id))
    ensures SameMetadata(run[i].store, run[j].store) && Untouching(run, steps, i, j)
    decreases j - i
  {
    if i < j {
      RecordlessDeleteIdles(run, steps, i, j - 1, id, g);
      assert SoloAt(run, steps, j - 1, id, g);
      RunDeletesNothing(run, steps, j - 1, id, g, Calls(steps, i, j - 1, id));
      UntouchingExtends(run, steps, i, j - 1);
    }
  }

  /** After one undisturbed Delete of g, a second one changes nothing: no step of
      it touches the store, both ConfigMaps read as before, and its first call ends it
      without error. */
  lemma SecondDeleteChangesNothing(
    run: seq<System>, steps: seq<Step>, i: nat, j: nat, k: nat, first: nat, second: nat, g: string)
    requires IsRun(run, steps) && i <= j <= k < |run|
    requires first in run[i].rpcs && run[i].rpcs[first] == DeleteFinding(g)
    requires Undisturbed(run, steps, i, j, first, g) && first in run[j].rpcs && Ended(run[j].rpcs[first])
    requires second in run[j].rpcs && run[j].rpcs[second] == DeleteFinding(g)
    requires Undisturbed(run, steps, j, k, second, g)
    ensures SameMetadata(run[j].store, run[k].store)
    ensures Untouching(run, steps, j, k)
    ensures second in run[k].rpcs && (Calls(steps, j, k, second) > 0 ==> run[k].rpcs[second] == DeleteDone(true))
  {
    DeleteConverges(run, steps, i, j, first, g);
    RecordlessDeleteIdles(run, steps, j, k, second, g);
  }
}
