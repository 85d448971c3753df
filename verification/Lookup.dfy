/** What a Get reports: the records that were in place when it looked. */
module Lookup {
  import opened Api
  import opened Wrappers
  import opened Machine
  import opened Protocol
  import opened Lifecycle
  import opened JobWaits
  import CM = ConfigMaps

  /** The time of a group's snapshot as the store has it: the snapshot record's, or
      without one the group record's. */
  function SnapshotTime(s: Store, record: GroupRecord): nat {
    if record.snapshotId in SnapshotsOf(s) then SnapshotsOf(s)[record.snapshotId].creationTime
    else record.creationTime
  }

  /** What the store has to say about group g. */
  function Reported(s: Store, g: string): Result<GetResponse, GetError> {
    if g !in GroupsOf(s) then Err(GroupNotFound)
    else
      var record := GroupsOf(s)[g];
      if record.sourceVolumeIds == [] then Err(IndexOutOfRange)
      else Ok(GetResponse(
                g, record.snapshotId, record.sourceVolumeIds[0], SnapshotTime(s, record), record.readyToUse))
  }

  /* ----- an undisturbed Get ----- */

  /** How far a Get of g has come while the records have been those of start. */
  ghost predicate GetStands(r: Rpc, g: string, start: Store) {
    match r
    case GetFinding(h) => h == g
    case GetDetailing(h, record) => h == g && g in GroupsOf(start) && record == GroupsOf(start)[g]
    case GetDone(res) => res == Reported(start, g)
    case _ => false
  }

  lemma FindingAdvances(g: string, start: Store, s: Store, reply: Reply, s': Store)
    requires SameMetadata(start, s) && Processed(s, OnGroups(CM.Get), reply, s')
    ensures s' == s && GetStands(GettingNext(GetFinding(g), reply), g, start)
  {
  }

  lemma DetailingAdvances(g: string, start: Store, s: Store, reply: Reply, s': Store)
    requires SameMetadata(start, s) && g in GroupsOf(start) && Processed(s, OnSnapshots(CM.Get), reply, s')
    ensures s' == s && GettingNext(GetDetailing(g, GroupsOf(start)[g]), reply) == GetDone(Reported(start, g))
  {
  }

  lemma SoloGet(s: System, step: Step, s': System, id: nat, g: string, start: Store)
    requires Next(s, step, s') && Solo(s, step, s', id, g) && id in s.rpcs
    requires GetStands(s.rpcs[id], g, start) && SameMetadata(start, s.store)
    ensures id in s'.rpcs && GetStands(s'.rpcs[id], g, start) && SameMetadata(start, s'.store)
  {
    if !step.Serve? {
      OtherSteps(s, step, s', id);
    } else if s.rpcs[id].GetFinding? {
      FindingAdvances(g, start, s.store, step.reply, s'.store);
    } else {
      DetailingAdvances(g, start, s.store, step.reply, s'.store);
    }
  }

  lemma {:induction false} GetProgress(run: seq<System>, steps: seq<Step>, i: nat, j: nat, id: nat, g: string)
    requires IsRun(run, steps) && i <= j < |run| && Undisturbed(run, steps, i, j, id, g)
    requires id in run[i].rpcs && run[i].rpcs[id] == GetFinding(g)
    ensures id in run[j].rpcs && GetStands(run[j].rpcs[id], g, run[i].store)
    ensures SameMetadata(run[i].store, run[j].store)
    decreases j - i
  {
    if i < j {
      GetProgress(run, steps, i, j - 1, id, g);
      assert StepAt(run, steps, j - 1) && SoloAt(run, steps, j - 1, id, g);
      SoloGet(run[j - 1], steps[j - 1], run[j - 1 + 1], id, g, run[i].store);
    }
  }

  /** An undisturbed Get of g in any reachable state: once it has ended, it has answered
      GroupNotFound exactly if there is no record of g; and else the snapshot, the first
      volume and the readiness of that record, at the time of the snapshot record, or
      without one of the group record. It changes no record. */
  lemma AloneGetReports(run: seq<System>, steps: seq<Step>, i: nat, j: nat, id: nat, g: string)
    requires IsRun(run, steps) && i <= j < |run| && Undisturbed(run, steps, i, j, id, g)
    requires id in run[i].rpcs && run[i].rpcs[id] == GetFinding(g)
    requires id in run[j].rpcs && Ended(run[j].rpcs[id])
    ensures run[j].rpcs[id] == GetDone(Err(GroupNotFound)) <==> g !in GroupsOf(run[i].store)
    ensures g in GroupsOf(run[i].store) ==>
      var record := GroupsOf(run[i].store)[g];
      && record.sourceVolumeIds != []
      && run[j].rpcs[id] == GetDone(Ok(GetResponse(
           g, record.snapshotId, record.sourceVolumeIds[0],
           if record.snapshotId in SnapshotsOf(run[i].store)
           then SnapshotsOf(run[i].store)[record.snapshotId].creationTime else record.creationTime,
           record.readyToUse)))
    ensures SameMetadata(run[i].store, run[j].store)
  {
    GetProgress(run, steps, i, j, id, g);
    RunKeepsInv(run, steps, i);
    if g in GroupsOf(run[i].store) {
      assert GroupFits(run[i].log, g, GroupsOf(run[i].store)[g]);
    }
  }

  /** After an undisturbed Delete of g, an undisturbed Get of g answers GroupNotFound. */
  lemma GetAfterDelete(
    run: seq<System>, steps: seq<Step>, i: nat, j: nat, k: nat, deleter: nat, getter: nat, g: string)
    requires IsRun(run, steps) && i <= j <= k < |run|
    requires deleter in run[i].rpcs && run[i].rpcs[deleter] == DeleteFinding(g)
    requires Undisturbed(run, steps, i, j, deleter, g) && deleter in run[j].rpcs && Ended(run[j].rpcs[deleter])
    requires getter in run[j].rpcs && run[j].rpcs[getter] == GetFinding(g)
    requires Undisturbed(run, steps, j, k, getter, g) && getter in run[k].rpcs && Ended(run[k].rpcs[getter])
    ensures run[k].rpcs[getter] == GetDone(Err(GroupNotFound))
  {
    DeleteConverges(run, steps, i, j, deleter, g);
    AloneGetReports(run, steps, j, k, getter, g);
  }

  /* ----- a Get in any run ----- */

  /** In state a group g had this record. */
  ghost predicate HadRecord(run: seq<System>, a: nat, g: string, record: GroupRecord)
    requires a < |run|
  {
    g in GroupsOf(run[a].store) && GroupsOf(run[a].store)[g] == record
  }

  /** In state a the group's snapshot had a record of this time. */
  ghost predicate HadTime(run: seq<System>, a: nat, record: GroupRecord, time: nat)
    requires a < |run|
  {
    record.snapshotId in SnapshotsOf(run[a].store) && SnapshotsOf(run[a].store)[record.snapshotId].creationTime == time
  }

  ghost predicate SawRecord(run: seq<System>, i: nat, j: nat, g: string, record: GroupRecord)
    requires i <= j < |run|
  {
    exists a: nat :: i <= a < j && HadRecord(run, a, g, record)
  }

  ghost predicate SawTime(run: seq<System>, i: nat, j: nat, record: GroupRecord, time: nat)
    requires i <= j < |run|
  {
    time == record.creationTime || exists a: nat :: i <= a < j && HadTime(run, a, record, time)
  }

  /** The answer is that of a record that was in place, at the time of a snapshot record
      that was in place or at its own. */
  ghost predicate WasThere(run: seq<System>, i: nat, j: nat, g: string, answer: GetResponse)
    requires i <= j < |run|
  {
    exists record ::
      && SawRecord(run, i, j, g, record) && SawTime(run, i, j, record, answer.creationTime)
      && record.sourceVolumeIds != []
      && answer == GetResponse(
           g, record.snapshotId, record.sourceVolumeIds[0], answer.creationTime, record.readyToUse)
  }

  /** The lookup found no record of g, or failed. */
  ghost predicate Missed(run: seq<System>, steps: seq<Step>, a: nat, id: nat, g: string)
    requires a < |steps| < |run|
  {
    Answers(run[a], steps[a], id) && (g !in GroupsOf(run[a].store) || steps[a].reply == Groups(CM.Error(CM.Other)))
  }

  ghost predicate Looked(run: seq<System>, steps: seq<Step>, i: nat, j: nat, id: nat, g: string)
    requires i <= j < |run| == |steps| + 1
  {
    && id in run[j].rpcs
    && match run[j].rpcs[id]
       case GetFinding(h) => h == g
       case GetDetailing(h, record) => h == g && SawRecord(run, i, j, g, record)
       case GetDone(Ok(answer)) => WasThere(run, i, j, g, answer)
       case GetDone(Err(e)) =>
         e == IndexOutOfRange || (e == GroupNotFound && exists a: nat :: i <= a < j && Missed(run, steps, a, id, g))
       case _ => false
  }

  lemma FindingReads(s: Store, g: string, reply: Reply, s': Store)
    requires Exec(s, OnGroups(CM.Get), reply, s')
    ensures match GettingNext(GetFinding(g), reply)
      case GetDetailing(h, record) => h == g && g in GroupsOf(s) && record == GroupsOf(s)[g]
      case r' =>
        r' == GetDone(Err(GroupNotFound)) && (g !in GroupsOf(s) || reply == Groups(CM.Error(CM.Other)))
  {
  }

  lemma DetailingReads(s: Store, g: string, record: GroupRecord, reply: Reply, s': Store)
    requires Exec(s, OnSnapshots(CM.Get), reply, s')
    ensures match GettingNext(GetDetailing(g, record), reply)
      case GetDone(Ok(answer)) =>
        && record.sourceVolumeIds != []
        && answer == GetResponse(
             g, record.snapshotId, record.sourceVolumeIds[0], answer.creationTime, record.readyToUse)
        && (answer.creationTime == record.creationTime
            || (record.snapshotId in SnapshotsOf(s)
                && SnapshotsOf(s)[record.snapshotId].creationTime == answer.creationTime))
      case r' => r' == GetDone(Err(IndexOutOfRange))
  {
  }

  lemma SawGrows(run: seq<System>, i: nat, k: nat, g: string, record: GroupRecord, time: nat)
    requires i <= k < |run| - 1
    ensures SawRecord(run, i, k, g, record) || HadRecord(run, k, g, record) ==> SawRecord(run, i, k + 1, g, record)
    ensures SawTime(run, i, k, record, time) || HadTime(run, k, record, time) ==> SawTime(run, i, k + 1, record, time)
  {
  }

  lemma OwnStepLooks(run: seq<System>, steps: seq<Step>, i: nat, k: nat, id: nat, g: string)
    requires |run| == |steps| + 1 && i <= k < |steps| && Looked(run, steps, i, k, id, g)
    requires Answers(run[k], steps[k], id) && Serves(run[k], id, steps[k].reply, run[k + 1])
    ensures Looked(run, steps, i, k + 1, id, g)
  {
    var s, reply, s' := run[k].store, steps[k].reply, run[k + 1].store;
    match run[k].rpcs[id]
    case GetFinding(_) =>
      FindingReads(s, g, reply, s');
      if run[k + 1].rpcs[id].GetDetailing? {
        SawGrows(run, i, k, g, run[k + 1].rpcs[id].record, 0);
      } else {
        assert Missed(run, steps, k, id, g);
      }
    case GetDetailing(_, record) =>
      DetailingReads(s, g, record, reply, s');
      if run[k + 1].rpcs[id].GetDone? && run[k + 1].rpcs[id].got.Ok? {
        SawGrows(run, i, k, g, record, run[k + 1].rpcs[id].got.value.creationTime);
        assert WasThere(run, i, k + 1, g, run[k + 1].rpcs[id].got.value);
      }
  }

  lemma OtherStepLooks(run: seq<System>, steps: seq<Step>, i: nat, k: nat, id: nat, g: string)
    requires |run| == |steps| + 1 && i <= k < |steps| && Looked(run, steps, i, k, id, g)
    requires id in run[k + 1].rpcs && run[k + 1].rpcs[id] == run[k].rpcs[id]
    ensures Looked(run, steps, i, k + 1, id, g)
  {
    match run[k].rpcs[id]
    case GetDetailing(_, record) => SawGrows(run, i, k, g, record, 0);
    case GetDone(Ok(answer)) =>
      var record :| SawRecord(run, i, k, g, record) && SawTime(run, i, k, record, answer.creationTime)
        && record.sourceVolumeIds != [] && answer == GetResponse(
             g, record.snapshotId, record.sourceVolumeIds[0], answer.creationTime, record.readyToUse);
      SawGrows(run, i, k, g, record, answer.creationTime);
      assert WasThere(run, i, k + 1, g, answer);
    case _ =>
  }

  lemma StepLooks(run: seq<System>, steps: seq<Step>, i: nat, k: nat, id: nat, g: string)
    requires IsRun(run, steps) && i <= k < |steps| && Looked(run, steps, i, k, id, g)
    ensures Looked(run, steps, i, k + 1, id, g)
  {
    assert StepAt(run, steps, k);
    if Answers(run[k], steps[k], id) {
      OwnStepLooks(run, steps, i, k, id, g);
    } else {
      OtherStepLooks(run, steps, i, k, id, g);
    }
  }

  lemma {:induction false} LookedInRuns(run: seq<System>, steps: seq<Step>, i: nat, j: nat, id: nat, g: string)
    requires IsRun(run, steps) && i <= j < |run| && id in run[i].rpcs && run[i].rpcs[id] == GetFinding(g)
    ensures Looked(run, steps, i, j, id, g)
    decreases j - i
  {
    if i < j {
      LookedInRuns(run, steps, i, j - 1, id, g);
      StepLooks(run, steps, i, j - 1, id, g);
    }
  }

  /** In any run, whatever is created and deleted meanwhile: a Get of g that has ended OK
      reports a record of g that was in place while it ran, at the time of a snapshot
      record that was in place while it ran or at the record's own; and one that has ended
      otherwise answered GroupNotFound, and its lookup met no record of g, or failed. */
  lemma GetReportsWhatWasThere(run: seq<System>, steps: seq<Step>, i: nat, j: nat, id: nat, g: string)
    requires IsRun(run, steps) && i <= j < |run| && id in run[i].rpcs && run[i].rpcs[id] == GetFinding(g)
    requires id in run[j].rpcs && Ended(run[j].rpcs[id])
    ensures run[j].rpcs[id].GetDone?
    ensures run[j].rpcs[id].got.Ok? ==> WasThere(run, i, j, g, run[j].rpcs[id].got.value)
    ensures run[j].rpcs[id].got.Err? ==>
      run[j].rpcs[id].got.error == GroupNotFound && exists a: nat :: i <= a < j && Missed(run, steps, a, id, g)
  {
    LookedInRuns(run, steps, i, j, id, g);
    GetNeverPanics(run, steps, j);
  }
}
