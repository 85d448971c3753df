/** An undisturbed Create, from its group ID to its answer. */
module Creation {
  import opened Identifiers
  import opened Api
  import opened Machine
  import opened Protocol
  import opened Files
  import opened Lifecycle
  import CM = ConfigMaps

  /** d is what became of the draft d0. */
  predicate Extends(d0: Draft, d: Draft) {
    d == d0.(cluster := d.cluster, snapshotId := d.snapshotId)
  }

  function SnapshotFile(d: Draft): File {
    FileOf(d.Job())
  }

  /** Nothing of the group is in the store, and the rest is as it was. */
  ghost predicate Untaken(g: string, start: Store, s: Store) {
    && SameMetadata(start, s) && s.files == start.files
    && forall key <- s.jobs :: !SnapshotOf(g, s.jobs[key].spec.snapshotId)
  }

  /** The only job of the group is the save job of its snapshot. */
  ghost predicate OnlyJob(d: Draft, s: Store) {
    forall key <- s.jobs :: SnapshotOf(d.groupId, s.jobs[key].spec.snapshotId) ==>
      key == JobKey(d.Job()) && s.jobs[key].spec == d.Job()
  }

  /** The save job may or may not have written its file yet. */
  ghost predicate BeingSaved(d: Draft, start: Store, s: Store) {
    && SameMetadata(start, s) && OnlyJob(d, s)
    && (s.files == start.files || s.files == start.files + {SnapshotFile(d)})
    && (JobKey(d.Job()) in s.jobs && s.jobs[JobKey(d.Job())].ran ==> s.files == start.files + {SnapshotFile(d)})
  }

  /** The file is there and the save job is over. */
  ghost predicate Saved(d: Draft, start: Store, s: Store) {
    && OnlyJob(d, s) && s.files == start.files + {SnapshotFile(d)}
    && (JobKey(d.Job()) in s.jobs ==> s.jobs[JobKey(d.Job())].succeeded > 0)
  }

  /** The snapshot record, and nothing else, has been added, at a time between start and latest. */
  ghost predicate SnapshotAdded(d: Draft, start: Store, s: Store, latest: nat) {
    && d.snapshotId in SnapshotsOf(s)
    && var record := SnapshotsOf(s)[d.snapshotId];
    && SnapshotsOf(s) == SnapshotsOf(start)[d.snapshotId := record]
    && record == SnapshotRecordOf(d, record.creationTime) && start.clock <= record.creationTime <= latest
  }

  /** The group record too, at a time between that of the snapshot record and latest. */
  ghost predicate GroupAdded(d: Draft, start: Store, s: Store, latest: nat) {
    && d.groupId in GroupsOf(s)
    && var record := GroupsOf(s)[d.groupId];
    && GroupsOf(s) == GroupsOf(start)[d.groupId := record]
    && record == GroupRecordOf(d, record.creationTime)
    && d.snapshotId in SnapshotsOf(s)
    && SnapshotsOf(s)[d.snapshotId].creationTime <= record.creationTime <= latest
  }

  /** What a Create adds to the store: one file, one snapshot record, one group record. */
  ghost predicate Taken(d: Draft, start: Store, s: Store, latest: nat) {
    && SnapshotOf(d.groupId, d.snapshotId)
    && Saved(d, start, s) && SnapshotAdded(d, start, s, latest) && GroupAdded(d, start, s, latest)
  }

  /** How far a Create that began with d0 has come since the store was start. */
  ghost predicate CreateStands(r: Rpc, d0: Draft, start: Store, s: Store) {
    match r
    case Validating(d, _) => Extends(d0, d) && Untaken(d.groupId, start, s)
    case ReadingClaim(d, _) => Extends(d0, d) && Untaken(d.groupId, start, s)
    case ListingPods(d, _, _) => Extends(d0, d) && Untaken(d.groupId, start, s)
    case CheckingHealth(d, _, _) => Extends(d0, d) && Untaken(d.groupId, start, s)
    case Provisioning(d, _) => Extends(d0, d) && Untaken(d.groupId, start, s)
    case StampingSnapshot(d) => Extends(d0, d) && Untaken(d.groupId, start, s)
    case Saving(d, e) =>
      Extends(d0, d) && if e.Creating? then !e.versioned && Untaken(d.groupId, start, s) else BeingSaved(d, start, s)
    case StampingRecord(d) => Extends(d0, d) && Saved(d, start, s) && SameMetadata(start, s)
    case StoringSnapshot(d, p) =>
      && Extends(d0, d) && Saved(d, start, s) && SameMetadata(start, s) && CM.InSync(p, s.snapshots)
      && p.req.Store? && start.clock <= p.req.record.creationTime <= s.clock
    case StampingGroup(d) =>
      Extends(d0, d) && Saved(d, start, s) && SnapshotAdded(d, start, s, s.clock) && GroupsOf(s) == GroupsOf(start)
    case StoringGroup(d, p) =>
      && Extends(d0, d) && Saved(d, start, s) && SnapshotAdded(d, start, s, s.clock)
      && GroupsOf(s) == GroupsOf(start) && CM.InSync(p, s.groups)
      && p.req.Store? && SnapshotsOf(s)[d.snapshotId].creationTime <= p.req.record.creationTime <= s.clock
    case StampingReply(d) => Extends(d0, d) && Taken(d, start, s, s.clock)
    case StampingGroupReply(d, time) => Extends(d0, d) && Taken(d, start, s, time)
    case CreateDone(Ok(response)) =>
      exists d ::
        && Extends(d0, d) && Taken(d, start, s, response.snapshotTime)
        && response == ResponseOf(d, response.snapshotTime, response.groupTime)
    case CreateDone(Err(_)) => true
    case _ => false
  }

  /* ----- one step of the Create ----- */

  lemma CheckingLeavesUntaken(g: string, c: Call, start: Store, s: Store, reply: Reply, s': Store)
    requires Untaken(g, start, s) && Processed(s, c, reply, s')
    requires !c.OnSnapshots? && !c.OnGroups? && !c.CreateJob?
    ensures Untaken(g, start, s')
  {
  }

  lemma CheckingAdvances(r: Rpc, d0: Draft, start: Store, s: Store, reply: Reply, s': Store)
    requires Checking(r) && CreateStands(r, d0, start, s) && Processed(s, NextCall(r), reply, s')
    ensures CreateStands(CheckingNext(r, reply), d0, start, s')
  {
    CheckingLeavesUntaken(r.d.groupId, NextCall(r), start, s, reply, s');
    if r.CheckingHealth? {
      HealthAdvances(r, d0, start, s', reply);
    } else {
      LookupsAdvance(r, d0, start, s', reply);
    }
  }

  lemma HealthAdvances(r: Rpc, d0: Draft, start: Store, s: Store, reply: Reply)
    requires r.CheckingHealth? && Extends(d0, r.d) && Untaken(r.d.groupId, start, s)
    ensures CreateStands(CheckingNext(r, reply), d0, start, s)
  {
  }

  lemma LookupsAdvance(r: Rpc, d0: Draft, start: Store, s: Store, reply: Reply)
    requires Checking(r) && !r.CreateStamping? && !r.CheckingHealth?
    requires Extends(d0, r.d) && Untaken(r.d.groupId, start, s)
    ensures CreateStands(CheckingNext(r, reply), d0, start, s)
  {
  }

  /** The save job's name is free, so the API server creates it. */
  lemma SaveJobIsCreated(log: seq<Event>, id: nat, r: Rpc, d0: Draft, start: Store, s: Store, reply: Reply, s': Store)
    requires r.Saving? && r.exec.Creating? && CreateStands(r, d0, start, s) && Processed(s, NextCall(r), reply, s')
    requires Shape(log, id, r) && StoreFits(log, s)
    ensures CreateStands(TakingNext(r, reply), d0, start, s')
    ensures reply == Reply.Created && JobKey(r.d.Job()) !in s.jobs && JobKey(r.d.Job()) in s'.jobs
    ensures s'.jobs[JobKey(r.d.Job())].spec == r.d.Job()
  {
    var key := JobKey(r.d.Job());
    if key in s.jobs {
      assert JobFits(log, key, s.jobs[key]);
      KeyNamesTheSpec(log, key, s.jobs[key], r.d.Job());
      assert false;
    }
  }

  lemma SucceededIsSaved(log: seq<Event>, d: Draft, start: Store, s: Store)
    requires BeingSaved(d, start, s) && JobKey(d.Job()) in s.jobs && s.jobs[JobKey(d.Job())].succeeded > 0
    requires JobFits(log, JobKey(d.Job()), s.jobs[JobKey(d.Job())])
    ensures Saved(d, start, s)
  {
  }

  lemma SavingEnds(log: seq<Event>, id: nat, r: Rpc, d0: Draft, start: Store, s: Store, reply: Reply, s': Store)
    requires r.Saving? && r.exec.Polling? && CreateStands(r, d0, start, s) && Processed(s, NextCall(r), reply, s')
    requires Shape(log, id, r) && StoreFits(log, s) && ExecAdvance(r.exec, reply) == Finished(Succeeded)
    ensures CreateStands(TakingNext(r, reply), d0, start, s')
  {
    assert TakingNext(r, reply) == StampingRecord(r.d) && s' == s;
    assert JobFits(log, JobKey(r.d.Job()), s.jobs[JobKey(r.d.Job())]);
    SucceededIsSaved(log, r.d, start, s);
  }

  lemma SavingGoesOn(r: Rpc, d0: Draft, start: Store, s: Store, reply: Reply, s': Store)
    requires r.Saving? && !r.exec.Creating? && CreateStands(r, d0, start, s) && Processed(s, NextCall(r), reply, s')
    requires ExecAdvance(r.exec, reply) != Finished(Succeeded)
    ensures CreateStands(TakingNext(r, reply), d0, start, s')
  {
  }

  lemma RecordStamped(log: seq<Event>, id: nat, r: Rpc, d0: Draft, start: Store, s: Store, reply: Reply, s': Store)
    requires r.StampingRecord?
    requires CreateStands(r, d0, start, s) && Processed(s, TakingCall(r), reply, s') && start.clock <= s.clock
    requires Shape(log, id, r)
    ensures CreateStands(TakingNext(r, reply), d0, start, s')
  {
  }

  lemma GroupRecordStamped(log: seq<Event>, id: nat, r: Rpc, d0: Draft, start: Store, s: Store, reply: Reply, s': Store)
    requires r.StampingGroup?
    requires CreateStands(r, d0, start, s) && Processed(s, TakingCall(r), reply, s') && start.clock <= s.clock
    requires Shape(log, id, r)
    ensures CreateStands(TakingNext(r, reply), d0, start, s')
  {
  }

  lemma AnswerStamped(log: seq<Event>, id: nat, r: Rpc, d0: Draft, start: Store, s: Store, reply: Reply, s': Store)
    requires r.StampingReply? || r.StampingGroupReply?
    requires CreateStands(r, d0, start, s) && Processed(s, TakingCall(r), reply, s') && start.clock <= s.clock
    requires Shape(log, id, r)
    ensures CreateStands(TakingNext(r, reply), d0, start, s')
  {
  }

  lemma StampingAdvances(log: seq<Event>, id: nat, r: Rpc, d0: Draft, start: Store, s: Store, reply: Reply, s': Store)
    requires Taking(r) && !r.Saving? && !r.StoringSnapshot? && !r.StoringGroup?
    requires CreateStands(r, d0, start, s) && Processed(s, TakingCall(r), reply, s') && start.clock <= s.clock
    requires Shape(log, id, r)
    ensures CreateStands(TakingNext(r, reply), d0, start, s')
  {
    if r.StampingRecord? {
      RecordStamped(log, id, r, d0, start, s, reply, s');
    } else if r.StampingGroup? {
      GroupRecordStamped(log, id, r, d0, start, s, reply, s');
    } else {
      AnswerStamped(log, id, r, d0, start, s, reply, s');
    }
  }

  lemma SnapshotAdvances(log: seq<Event>, id: nat, r: Rpc, d0: Draft, start: Store, s: Store, reply: Reply, s': Store)
    requires r.StoringSnapshot? && Shape(log, id, r)
    requires CreateStands(r, d0, start, s) && Processed(s, NextCall(r), reply, s')
    ensures CreateStands(TakingNext(r, reply), d0, start, s')
  {
    CM.AloneItSucceeds(r.snapshotProc, s.snapshots);
  }

  lemma GroupAdvances(log: seq<Event>, id: nat, r: Rpc, d0: Draft, start: Store, s: Store, reply: Reply, s': Store)
    requires r.StoringGroup? && Shape(log, id, r)
    requires CreateStands(r, d0, start, s) && Processed(s, NextCall(r), reply, s')
    ensures CreateStands(TakingNext(r, reply), d0, start, s')
  {
    CM.AloneItSucceeds(r.groupProc, s.groups);
  }

  /* ----- steps beside the Create ----- */

  lemma JobKeepsSaving(s: System, step: Step, s': System, d: Draft, start: Store)
    requires JobActs(s, step, s') && SnapshotOf(d.groupId, s.store.jobs[step.key].spec.snapshotId)
    requires BeingSaved(d, start, s.store)
    ensures BeingSaved(d, start, s'.store)
  {
  }

  lemma JobKeepsSaved(s: System, step: Step, s': System, d: Draft, start: Store)
    requires JobActs(s, step, s') && SnapshotOf(d.groupId, s.store.jobs[step.key].spec.snapshotId)
    requires Saved(d, start, s.store)
    ensures Saved(d, start, s'.store)
  {
  }

  /** With a group that has no job yet, no job of the group can act. */
  lemma JobBesideCreate(s: System, step: Step, s': System, r: Rpc, g: string, d0: Draft, start: Store)
    requires JobActs(s, step, s') && SnapshotOf(g, s.store.jobs[step.key].spec.snapshotId)
    requires CreateStands(r, d0, start, s.store) && d0.groupId == g
    ensures CreateStands(r, d0, start, s'.store)
  {
    if Taking(r) {
      if r.Saving? {
        if !r.exec.Creating? {
          JobKeepsSaving(s, step, s', r.d, start);
        }
      } else {
        JobKeepsSaved(s, step, s', r.d, start);
      }
    } else if r.CreateDone? && r.created.Ok? {
      var response := r.created.value;
      var d :| Extends(d0, d) && Taken(d, start, s.store, response.snapshotTime)
        && response == ResponseOf(d, response.snapshotTime, response.groupTime);
      JobKeepsSaved(s, step, s', d, start);
      assert Taken(d, start, s'.store, response.snapshotTime);
    }
  }

  /** The clock and the claims may move; nothing else of the store does. */
  lemma IdleKeepsTaken(d: Draft, start: Store, s: Store, s': Store, latest: nat)
    requires s' == s.(clock := s'.clock, claims := s'.claims) && Taken(d, start, s, latest)
    ensures Taken(d, start, s', latest)
  {
  }

  lemma IdleKeepsSaving(r: Rpc, d0: Draft, start: Store, s: Store, s': Store)
    requires s' == s.(clock := s'.clock, claims := s'.claims)
    requires (Checking(r) || r.Saving?) && CreateStands(r, d0, start, s)
    ensures CreateStands(r, d0, start, s')
  {
  }

  lemma IdleKeepsTaking(r: Rpc, d0: Draft, start: Store, s: Store, s': Store)
    requires s' == s.(clock := s'.clock, claims := s'.claims) && s.clock <= s'.clock
    requires Taking(r) && !r.Saving? && CreateStands(r, d0, start, s)
    ensures CreateStands(r, d0, start, s')
  {
  }

  lemma IdleBesideCreate(s: System, step: Step, s': System, r: Rpc, d0: Draft, start: Store)
    requires Idles(s, step, s') && CreateStands(r, d0, start, s.store)
    ensures CreateStands(r, d0, start, s'.store)
  {
    if r.CreateDone? {
      if r.created.Ok? {
        var response := r.created.value;
        var d :| Extends(d0, d) && Taken(d, start, s.store, response.snapshotTime)
          && response == ResponseOf(d, response.snapshotTime, response.groupTime);
        IdleKeepsTaken(d, start, s.store, s'.store, response.snapshotTime);
      }
    } else if Taking(r) && !r.Saving? {
      IdleKeepsTaking(r, d0, start, s.store, s'.store);
    } else {
      IdleKeepsSaving(r, d0, start, s.store, s'.store);
    }
  }

  lemma TakingAdvances(log: seq<Event>, id: nat, r: Rpc, d0: Draft, start: Store, s: Store, reply: Reply, s': Store)
    requires Taking(r) && CreateStands(r, d0, start, s) && Processed(s, NextCall(r), reply, s')
    requires Shape(log, id, r) && StoreFits(log, s) && start.clock <= s.clock
    ensures CreateStands(TakingNext(r, reply), d0, start, s')
  {
    if r.Saving? {
      if r.exec.Creating? {
        SaveJobIsCreated(log, id, r, d0, start, s, reply, s');
      } else if ExecAdvance(r.exec, reply) == Finished(Succeeded) {
        SavingEnds(log, id, r, d0, start, s, reply, s');
      } else {
        SavingGoesOn(r, d0, start, s, reply, s');
      }
    } else if r.StoringSnapshot? {
      SnapshotAdvances(log, id, r, d0, start, s, reply, s');
    } else if r.StoringGroup? {
      GroupAdvances(log, id, r, d0, start, s, reply, s');
    } else {
      StampingAdvances(log, id, r, d0, start, s, reply, s');
    }
  }

  lemma ServeAdvances(s: System, id: nat, reply: Reply, s': System, d0: Draft, start: Store)
    requires Inv(s) && Serves(s, id, reply, s') && Processed(s.store, NextCall(s.rpcs[id]), reply, s'.store)
    requires CreateStands(s.rpcs[id], d0, start, s.store) && start.clock <= s.store.clock
    ensures CreateStands(s'.rpcs[id], d0, start, s'.store)
  {
    var r := s.rpcs[id];
    if Checking(r) {
      CheckingAdvances(r, d0, start, s.store, reply, s'.store);
    } else {
      assert Shape(s.log, id, r);
      TakingAdvances(s.log, id, r, d0, start, s.store, reply, s'.store);
    }
  }

  lemma SoloCreate(s: System, step: Step, s': System, id: nat, d0: Draft, start: Store)
    requires Inv(s) && Next(s, step, s') && Solo(s, step, s', id, d0.groupId)
    requires id in s.rpcs && CreateStands(s.rpcs[id], d0, start, s.store) && start.clock <= s.store.clock
    ensures id in s'.rpcs && CreateStands(s'.rpcs[id], d0, start, s'.store)
  {
    if step.Serve? {
      ServeAdvances(s, id, step.reply, s', d0, start);
    } else {
      OtherSteps(s, step, s', id);
      if OnJob(step) {
        JobBesideCreate(s, step, s', s.rpcs[id], d0.groupId, d0, start);
      } else {
        IdleBesideCreate(s, step, s', s.rpcs[id], d0, start);
      }
    }
  }

  lemma RunAdvances(run: seq<System>, steps: seq<Step>, i: nat, k: nat, id: nat, d0: Draft)
    requires IsRun(run, steps) && i <= k < |steps| && SoloAt(run, steps, k, id, d0.groupId)
    requires id in run[k].rpcs && CreateStands(run[k].rpcs[id], d0, run[i].store, run[k].store)
    ensures id in run[k + 1].rpcs && CreateStands(run[k + 1].rpcs[id], d0, run[i].store, run[k + 1].store)
  {
    TimeGoesOn(run, steps, i, k);
    RunKeepsInv(run, steps, k);
    assert StepAt(run, steps, k);
    SoloCreate(run[k], steps[k], run[k + 1], id, d0, run[i].store);
  }

  lemma {:induction false} CreateProgress(run: seq<System>, steps: seq<Step>, i: nat, j: nat, id: nat, d0: Draft)
    requires IsRun(run, steps) && i <= j < |run| && Undisturbed(run, steps, i, j, id, d0.groupId)
    requires id in run[i].rpcs && run[i].rpcs[id] == Validating(d0, 0) && Fresh(d0.groupId, run[i].store)
    ensures id in run[j].rpcs && CreateStands(run[j].rpcs[id], d0, run[i].store, run[j].store)
    decreases j - i
  {
    if i < j {
      CreateProgress(run, steps, i, j - 1, id, d0);
      assert SoloAt(run, steps, j - 1, id, d0.groupId);
      RunAdvances(run, steps, i, j - 1, id, d0);
    }
  }

  lemma {:induction false} EndedStays(run: seq<System>, steps: seq<Step>, i: nat, j: nat, id: nat)
    requires IsRun(run, steps) && i <= j < |run| && id in run[i].rpcs && Ended(run[i].rpcs[id])
    ensures id in run[j].rpcs && run[j].rpcs[id] == run[i].rpcs[id]
    decreases j - i
  {
    if i < j {
      EndedStays(run, steps, i, j - 1, id);
      assert StepAt(run, steps, j - 1);
    }
  }

  /** RPC id is a Create that is given its group ID at step i, a new one, and has not
      been disturbed up to j. */
  ghost predicate RunsAlone(run: seq<System>, steps: seq<Step>, i: nat, j: nat, id: nat, name: string) {
    && IsRun(run, steps) && i < j < |run|
    && id in run[i].rpcs && run[i].rpcs[id].CreateStamping? && run[i].rpcs[id].name == name
    && steps[i].Serve? && steps[i].id == id
    && Unused(run[i].log, name, Unix(run[i].store.clock))
    && Undisturbed(run, steps, i, j, id, GroupId(name, Unix(run[i].store.clock)))
  }

  /** And it has answered without error. */
  ghost predicate CreatesAlone(run: seq<System>, steps: seq<Step>, i: nat, j: nat, id: nat, name: string) {
    && RunsAlone(run, steps, i, j, id, name)
    && id in run[j].rpcs && run[j].rpcs[id].CreateDone? && run[j].rpcs[id].created.Ok?
  }

  lemma FirstStepStamps(run: seq<System>, steps: seq<Step>, i: nat, j: nat, id: nat, name: string)
    returns (d0: Draft)
    requires RunsAlone(run, steps, i, j, id, name)
    ensures id in run[i + 1].rpcs && run[i + 1].store == run[i].store
    ensures Ended(run[i + 1].rpcs[id]) || run[i + 1].rpcs[id] == Validating(d0, 0)
    ensures d0 == NewDraft(run[i].rpcs[id].cfg, name, run[i].rpcs[id].ids, run[i].store.clock)
  {
    d0 := NewDraft(run[i].rpcs[id].cfg, name, run[i].rpcs[id].ids, run[i].store.clock);
    assert StepAt(run, steps, i) && SoloAt(run, steps, i, id, d0.groupId);
  }

  /** How far it has come by a state in which it has not failed. */
  lemma AloneStands(run: seq<System>, steps: seq<Step>, i: nat, j: nat, id: nat, name: string) returns (d0: Draft)
    requires RunsAlone(run, steps, i, j, id, name)
    requires id in run[j].rpcs && !(run[j].rpcs[id].CreateDone? && run[j].rpcs[id].created.Err?)
    ensures d0 == NewDraft(run[i].rpcs[id].cfg, name, run[i].rpcs[id].ids, run[i].store.clock)
    ensures Fresh(d0.groupId, run[i].store) && CreateStands(run[j].rpcs[id], d0, run[i].store, run[j].store)
  {
    d0 := FirstStepStamps(run, steps, i, j, id, name);
    if Ended(run[i + 1].rpcs[id]) {
      StampingErrs(run, steps, i, id);
      EndedStays(run, steps, i + 1, j, id);
    } else {
      UnusedGroupsAreFresh(run, steps, i, name, Unix(run[i].store.clock));
      CreateProgress(run, steps, i + 1, j, id, d0);
    }
  }

  /** A Create that ends with its first step ends in an error. */
  lemma StampingErrs(run: seq<System>, steps: seq<Step>, i: nat, id: nat)
    requires IsRun(run, steps) && i < |steps| && steps[i].Serve? && steps[i].id == id
    requires id in run[i].rpcs && run[i].rpcs[id].CreateStamping?
    requires id in run[i + 1].rpcs && Ended(run[i + 1].rpcs[id])
    ensures run[i + 1].rpcs[id].CreateDone? && run[i + 1].rpcs[id].created.Err?
  {
    assert StepAt(run, steps, i);
  }

  /** An undisturbed Create that answers without error has added to the store it
      found exactly the file, the snapshot record and the group record of its
      answer, and its save job is over. */
  lemma CreateTakes(run: seq<System>, steps: seq<Step>, i: nat, j: nat, id: nat, name: string)
    returns (d: Draft)
    requires CreatesAlone(run, steps, i, j, id, name)
    ensures d.ids == run[i].rpcs[id].ids && d.groupId == GroupId(name, Unix(run[i].store.clock))
    ensures Fresh(d.groupId, run[i].store)
    ensures var response := run[j].rpcs[id].created.value;
      && Taken(d, run[i].store, run[j].store, response.snapshotTime)
      && response == ResponseOf(d, response.snapshotTime, response.groupTime)
  {
    var d0 := AloneStands(run, steps, i, j, id, name);
    var response := run[j].rpcs[id].created.value;
    d :| Extends(d0, d) && Taken(d, run[i].store, run[j].store, response.snapshotTime)
      && response == ResponseOf(d, response.snapshotTime, response.groupTime);
  }
}
