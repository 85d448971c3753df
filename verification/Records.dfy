/** Which records are in place: those whose Store was acknowledged and that nobody
    has dropped since. A Create passes over a failed Store, so an answer without
    error promises no record; without the record nothing ever cleans the file. */
module Records {
  import opened Identifiers
  import opened Api
  import opened Machine
  import opened Protocol
  import opened History
  import opened Files
  import CM = ConfigMaps

  ghost predicate SnapshotStoredIn(log: seq<Event>, k: string) {
    exists id, record :: SnapshotStored(id, record) in log && record.snapshotId == k
  }

  ghost predicate SnapshotDroppedIn(log: seq<Event>, k: string) {
    exists id :: SnapshotDropped(id, k) in log
  }

  ghost predicate GroupStoredIn(log: seq<Event>, g: string) {
    exists id, record :: GroupStored(id, record) in log && record.groupSnapshotId == g
  }

  ghost predicate GroupDroppedIn(log: seq<Event>, g: string) {
    exists id :: GroupDropped(id, g) in log
  }

  /* ----- what a step adds to the log and to the records ----- */

  predicate IsRecordEvent(e: Event) {
    e.SnapshotStored? || e.SnapshotDropped? || e.GroupStored? || e.GroupDropped?
  }

  /** The records under the given keys change as the events say. */
  ghost predicate SnapshotKeysMove(before: set<string>, more: seq<Event>, after: set<string>) {
    if more != [] && more[0].SnapshotStored? then
      more == [more[0]] && after == before + {more[0].record.snapshotId}
    else if more != [] && more[0].SnapshotDropped? then
      more == [more[0]] && more[0].snapshot in before && after == before - {more[0].snapshot}
    else after == before && forall e <- more :: !e.SnapshotStored? && !e.SnapshotDropped?
  }

  ghost predicate GroupKeysMove(before: set<string>, more: seq<Event>, after: set<string>) {
    if more != [] && more[0].GroupStored? then
      more == [more[0]] && after == before + {more[0].group.groupSnapshotId}
    else if more != [] && more[0].GroupDropped? then
      more == [more[0]] && more[0].groupId in before && after == before - {more[0].groupId}
    else after == before && forall e <- more :: !e.GroupStored? && !e.GroupDropped?
  }

  /** Only the writes of a ConfigMap are logged as changes of its records. */
  lemma OnlyWritersMove(id: nat, r: Rpc, reply: Reply)
    requires !Ended(r)
    ensures !r.StoringSnapshot? && !r.CleanupDropping? ==>
      forall e <- EventOf(id, r, reply) :: !e.SnapshotStored? && !e.SnapshotDropped?
    ensures !r.StoringGroup? && !r.DroppingGroup? ==>
      forall e <- EventOf(id, r, reply) :: !e.GroupStored? && !e.GroupDropped?
  {
  }

  /** A write of a snapshot record; a Drop that is acknowledged takes away a record that is there. */
  lemma SnapshotWriteMoves(store: Store, log: seq<Event>, id: nat, r: Rpc, reply: Reply, store': Store)
    requires r.StoringSnapshot? || r.CleanupDropping?
    requires Shape(log, id, r) && UpToDate(r, store) && Exec(store, NextCall(r), reply, store')
    ensures SnapshotKeysMove(CM.Contents(store.snapshots).Keys, EventOf(id, r, reply),
              CM.Contents(store'.snapshots).Keys)
  {
    ConfigMapCall(store, NextCall(r), reply, store');
    CM.StepIsAtomic(r.snapshotProc, store.snapshots, reply.snapshotReply, store'.snapshots);
  }

  lemma GroupWriteMoves(store: Store, log: seq<Event>, id: nat, r: Rpc, reply: Reply, store': Store)
    requires r.StoringGroup? || r.DroppingGroup?
    requires Shape(log, id, r) && UpToDate(r, store) && Exec(store, NextCall(r), reply, store')
    ensures GroupKeysMove(CM.Contents(store.groups).Keys, EventOf(id, r, reply), CM.Contents(store'.groups).Keys)
  {
    ConfigMapCall(store, NextCall(r), reply, store');
    CM.StepIsAtomic(r.groupProc, store.groups, reply.groupReply, store'.groups);
  }

  /** The one event and the keys of the ConfigMap go together. */
  lemma SnapshotsMove(store: Store, log: seq<Event>, id: nat, r: Rpc, reply: Reply, store': Store)
    requires !Ended(r) && Shape(log, id, r) && UpToDate(r, store) && Exec(store, NextCall(r), reply, store')
    ensures SnapshotKeysMove(CM.Contents(store.snapshots).Keys, EventOf(id, r, reply),
              CM.Contents(store'.snapshots).Keys)
  {
    if r.StoringSnapshot? || r.CleanupDropping? {
      SnapshotWriteMoves(store, log, id, r, reply, store');
    } else {
      Footprint(store, log, id, r, reply, store');
      OnlyWritersMove(id, r, reply);
    }
  }

  lemma GroupsMove(store: Store, log: seq<Event>, id: nat, r: Rpc, reply: Reply, store': Store)
    requires !Ended(r) && Shape(log, id, r) && UpToDate(r, store) && Exec(store, NextCall(r), reply, store')
    ensures GroupKeysMove(CM.Contents(store.groups).Keys, EventOf(id, r, reply), CM.Contents(store'.groups).Keys)
  {
    if r.StoringGroup? || r.DroppingGroup? {
      GroupWriteMoves(store, log, id, r, reply, store');
    } else {
      Footprint(store, log, id, r, reply, store');
      OnlyWritersMove(id, r, reply);
    }
  }

  lemma ServeMovesRecords(s: System, id: nat, reply: Reply, s': System)
    requires Inv(s) && Serves(s, id, reply, s')
    ensures SnapshotKeysMove(CM.Contents(s.store.snapshots).Keys, EventOf(id, s.rpcs[id], reply),
              CM.Contents(s'.store.snapshots).Keys)
    ensures GroupKeysMove(CM.Contents(s.store.groups).Keys, EventOf(id, s.rpcs[id], reply),
              CM.Contents(s'.store.groups).Keys)
  {
    assert Shape(s.log, id, s.rpcs[id]) && UpToDate(s.rpcs[id], s.store);
    SnapshotsMove(s.store, s.log, id, s.rpcs[id], reply, s'.store);
    GroupsMove(s.store, s.log, id, s.rpcs[id], reply, s'.store);
  }

  lemma OthersMoveNoRecords(s: System, step: Step, s': System)
    requires Next(s, step, s') && !step.Serve?
    ensures CM.Contents(s'.store.snapshots) == CM.Contents(s.store.snapshots)
    ensures CM.Contents(s'.store.groups) == CM.Contents(s.store.groups)
    ensures s'.log == s.log + (if OnJob(step) then JobEvents(step) else [])
    ensures forall e <- (if OnJob(step) then JobEvents(step) else []) :: !IsRecordEvent(e)
    ensures forall id <- s.rpcs :: id in s'.rpcs && s'.rpcs[id] == s.rpcs[id]
  {
  }

  /* ----- a Create stores each of its records once ----- */

  predicate PastStoring(r: Rpc) {
    r.StampingGroup? || r.StoringGroup? || PastGrouping(r)
  }

  predicate PastGrouping(r: Rpc) {
    r.StampingReply? || r.StampingGroupReply? || r.CreateDone?
  }

  ghost predicate SnapshotStoreFits(s: System, e: Event)
    requires e.SnapshotStored?
  {
    e.rpc in s.rpcs && PastStoring(s.rpcs[e.rpc]) && BelongsTo(s.log, e.rpc, e.record.snapshotId)
  }

  ghost predicate GroupStoreFits(s: System, e: Event)
    requires e.GroupStored?
  {
    e.rpc in s.rpcs && PastGrouping(s.rpcs[e.rpc]) && OwnsGroup(s.log, e.rpc, e.group.groupSnapshotId)
  }

  ghost predicate StoresFit(s: System) {
    && (forall e <- s.log :: e.SnapshotStored? ==> SnapshotStoreFits(s, e))
    && (forall e <- s.log :: e.GroupStored? ==> GroupStoreFits(s, e))
  }

  predicate GoesOn(r: Rpc, r': Rpc) {
    (PastStoring(r) ==> PastStoring(r')) && (PastGrouping(r) ==> PastGrouping(r'))
  }

  lemma PastStoringLasts(r: Rpc, reply: Reply)
    requires !Ended(r)
    ensures GoesOn(r, Advance(r, reply))
  {
  }

  /** An acknowledged Store is of the record of its own Create, which goes on from there. */
  lemma SnapshotStoreIsOwn(store: Store, log: seq<Event>, id: nat, r: Rpc, reply: Reply, store': Store, e: Event)
    requires !Ended(r) && Shape(log, id, r) && Exec(store, NextCall(r), reply, store')
    requires e in EventOf(id, r, reply) && e.SnapshotStored?
    ensures e.rpc == id && r.StoringSnapshot? && Advance(r, reply) == StampingGroup(r.d)
    ensures BelongsTo(log, id, e.record.snapshotId)
  {
    OnlyWritersMove(id, r, reply);
    NamedBelongs(log, id, r.d);
    assert !r.snapshotProc.stage.Getting?;
  }

  lemma GroupStoreIsOwn(store: Store, log: seq<Event>, id: nat, r: Rpc, reply: Reply, store': Store, e: Event)
    requires !Ended(r) && Shape(log, id, r) && Exec(store, NextCall(r), reply, store')
    requires e in EventOf(id, r, reply) && e.GroupStored?
    ensures e.rpc == id && r.StoringGroup? && Advance(r, reply) == StampingReply(r.d)
    ensures OwnsGroup(log, id, e.group.groupSnapshotId)
  {
    OnlyWritersMove(id, r, reply);
    NamedBelongs(log, id, r.d);
    assert !r.groupProc.stage.Getting?;
  }

  lemma SnapshotStoreStillFits(s: System, s': System, more: seq<Event>, e: Event)
    requires e.SnapshotStored? && SnapshotStoreFits(s, e) && s'.log == s.log + more
    requires e.rpc in s'.rpcs && PastStoring(s'.rpcs[e.rpc])
    ensures SnapshotStoreFits(s', e)
  {
    BelongsGrows(s.log, more, e.rpc, e.record.snapshotId);
  }

  lemma GroupStoreStillFits(s: System, s': System, more: seq<Event>, e: Event)
    requires e.GroupStored? && GroupStoreFits(s, e) && s'.log == s.log + more
    requires e.rpc in s'.rpcs && PastGrouping(s'.rpcs[e.rpc])
    ensures GroupStoreFits(s', e)
  {
    OwnsGroupGrows(s.log, more, e.rpc, e.group.groupSnapshotId);
  }

  /** The new events fit, and no RPC has gone back. */
  lemma StoresStillFit(s: System, s': System, more: seq<Event>)
    requires StoresFit(s) && s'.log == s.log + more
    requires forall id <- s.rpcs :: id in s'.rpcs && GoesOn(s.rpcs[id], s'.rpcs[id])
    requires forall e <- more :: e.SnapshotStored? ==> SnapshotStoreFits(s', e)
    requires forall e <- more :: e.GroupStored? ==> GroupStoreFits(s', e)
    ensures StoresFit(s')
  {
    forall e | e in s.log && e.SnapshotStored? ensures SnapshotStoreFits(s', e) {
      SnapshotStoreStillFits(s, s', more, e);
    }
    forall e | e in s.log && e.GroupStored? ensures GroupStoreFits(s', e) {
      GroupStoreStillFits(s, s', more, e);
    }
  }

  lemma NewStoreFits(s: System, id: nat, reply: Reply, s': System, e: Event)
    requires Inv(s) && Serves(s, id, reply, s') && e in EventOf(id, s.rpcs[id], reply)
    ensures e.SnapshotStored? ==> SnapshotStoreFits(s', e)
    ensures e.GroupStored? ==> GroupStoreFits(s', e)
  {
    var r, more := s.rpcs[id], EventOf(id, s.rpcs[id], reply);
    assert Shape(s.log, id, r);
    if e.SnapshotStored? {
      SnapshotStoreIsOwn(s.store, s.log, id, r, reply, s'.store, e);
      BelongsGrows(s.log, more, id, e.record.snapshotId);
    } else if e.GroupStored? {
      GroupStoreIsOwn(s.store, s.log, id, r, reply, s'.store, e);
      OwnsGroupGrows(s.log, more, id, e.group.groupSnapshotId);
    }
  }

  lemma ServeKeepsStores(s: System, id: nat, reply: Reply, s': System)
    requires Inv(s) && StoresFit(s) && Serves(s, id, reply, s')
    ensures StoresFit(s')
  {
    var more := EventOf(id, s.rpcs[id], reply);
    PastStoringLasts(s.rpcs[id], reply);
    forall e | e in more
      ensures e.SnapshotStored? ==> SnapshotStoreFits(s', e)
      ensures e.GroupStored? ==> GroupStoreFits(s', e)
    {
      NewStoreFits(s, id, reply, s', e);
    }
    StoresStillFit(s, s', more);
  }

  lemma StepKeepsStores(s: System, step: Step, s': System)
    requires Inv(s) && StoresFit(s) && Next(s, step, s')
    ensures StoresFit(s')
  {
    if step.Serve? {
      ServeKeepsStores(s, step.id, step.reply, s');
    } else {
      OthersMoveNoRecords(s, step, s');
      StoresStillFit(s, s', if OnJob(step) then JobEvents(step) else []);
    }
  }

  lemma {:induction false} StoresFitInRuns(run: seq<System>, steps: seq<Step>, i: nat)
    requires IsRun(run, steps) && i < |run|
    ensures StoresFit(run[i])
    decreases i
  {
    if i > 0 {
      StoresFitInRuns(run, steps, i - 1);
      RunKeepsInv(run, steps, i - 1);
      assert StepAt(run, steps, i - 1);
      StepKeepsStores(run[i - 1], steps[i - 1], run[i - 1 + 1]);
    }
  }

  /* ----- on record means stored and not dropped ----- */

  /** On record is only what was stored; what was stored and not dropped is; and if
      one Create only was given the group, nothing else is. */
  ghost predicate SnapshotExact(log: seq<Event>, keys: set<string>, k: string) {
    && (k in keys ==> SnapshotStoredIn(log, k))
    && (SnapshotStoredIn(log, k) && !SnapshotDroppedIn(log, k) ==> k in keys)
    && (OneMaker(log, k) && k in keys ==> !SnapshotDroppedIn(log, k))
  }

  ghost predicate GroupExact(log: seq<Event>, keys: set<string>, g: string) {
    && (g in keys ==> GroupStoredIn(log, g))
    && (GroupStoredIn(log, g) && !GroupDroppedIn(log, g) ==> g in keys)
    && (SoleGroup(log, g) && g in keys ==> !GroupDroppedIn(log, g))
  }

  ghost predicate SnapshotsExact(log: seq<Event>, keys: set<string>) {
    forall k :: SnapshotExact(log, keys, k)
  }

  ghost predicate GroupsExact(log: seq<Event>, keys: set<string>) {
    forall g :: GroupExact(log, keys, g)
  }

  ghost predicate DropsWereStored(log: seq<Event>) {
    && (forall k :: SnapshotDroppedIn(log, k) ==> SnapshotStoredIn(log, k))
    && (forall g :: GroupDroppedIn(log, g) ==> GroupStoredIn(log, g))
  }

  ghost predicate Exact(s: System) {
    && SnapshotsExact(s.log, CM.Contents(s.store.snapshots).Keys)
    && GroupsExact(s.log, CM.Contents(s.store.groups).Keys)
    && DropsWereStored(s.log)
  }

  lemma StoredInGrows(log: seq<Event>, more: seq<Event>, k: string)
    ensures SnapshotStoredIn(log, k) ==> SnapshotStoredIn(log + more, k)
    ensures SnapshotDroppedIn(log, k) ==> SnapshotDroppedIn(log + more, k)
    ensures GroupStoredIn(log, k) ==> GroupStoredIn(log + more, k)
    ensures GroupDroppedIn(log, k) ==> GroupDroppedIn(log + more, k)
  {
    if SnapshotStoredIn(log, k) {
      var id, record :| SnapshotStored(id, record) in log && record.snapshotId == k;
      assert SnapshotStored(id, record) in log + more;
    }
    if SnapshotDroppedIn(log, k) {
      var id :| SnapshotDropped(id, k) in log;
      assert SnapshotDropped(id, k) in log + more;
    }
    if GroupStoredIn(log, k) {
      var id, record :| GroupStored(id, record) in log && record.groupSnapshotId == k;
      assert GroupStored(id, record) in log + more;
    }
    if GroupDroppedIn(log, k) {
      var id :| GroupDropped(id, k) in log;
      assert GroupDropped(id, k) in log + more;
    }
  }

  /** Nothing but an event of the kind itself adds to what was stored and dropped. */
  lemma SnapshotsIn(log: seq<Event>, more: seq<Event>, k: string)
    requires |more| <= 1
    ensures SnapshotStoredIn(log + more, k) <==>
      SnapshotStoredIn(log, k) || (more != [] && more[0].SnapshotStored? && more[0].record.snapshotId == k)
    ensures SnapshotDroppedIn(log + more, k) <==>
      SnapshotDroppedIn(log, k) || (more != [] && more[0].SnapshotDropped? && more[0].snapshot == k)
  {
    StoredInGrows(log, more, k);
    if more != [] {
      assert more[0] in log + more;
      assert more[0].SnapshotStored? ==> more[0] == SnapshotStored(more[0].rpc, more[0].record);
      assert more[0].SnapshotDropped? ==> more[0] == SnapshotDropped(more[0].rpc, more[0].snapshot);
    }
  }

  lemma GroupsIn(log: seq<Event>, more: seq<Event>, g: string)
    requires |more| <= 1
    ensures GroupStoredIn(log + more, g) <==>
      GroupStoredIn(log, g) || (more != [] && more[0].GroupStored? && more[0].group.groupSnapshotId == g)
    ensures GroupDroppedIn(log + more, g) <==>
      GroupDroppedIn(log, g) || (more != [] && more[0].GroupDropped? && more[0].groupId == g)
  {
    StoredInGrows(log, more, g);
    if more != [] {
      assert more[0] in log + more;
      assert more[0].GroupStored? ==> more[0] == GroupStored(more[0].rpc, more[0].group);
      assert more[0].GroupDropped? ==> more[0] == GroupDropped(more[0].rpc, more[0].groupId);
    }
  }

  lemma SnapshotStaysExact(log: seq<Event>, before: set<string>, more: seq<Event>, after: set<string>, k: string)
    requires SnapshotExact(log, before, k) && |more| <= 1 && SnapshotKeysMove(before, more, after)
    requires more != [] && more[0].SnapshotStored? ==> NotDroppedYet(log, more[0].record.snapshotId)
    ensures SnapshotExact(log + more, after, k)
  {
    SnapshotsIn(log, more, k);
    if OneMaker(log + more, k) {
      OneMakerBefore(log, more, k);
    }
  }

  lemma GroupStaysExact(log: seq<Event>, before: set<string>, more: seq<Event>, after: set<string>, g: string)
    requires GroupExact(log, before, g) && |more| <= 1 && GroupKeysMove(before, more, after)
    requires more != [] && more[0].GroupStored? ==> GroupNotDroppedYet(log, more[0].group.groupSnapshotId)
    ensures GroupExact(log + more, after, g)
  {
    GroupsIn(log, more, g);
    if SoleGroup(log + more, g) {
      SoleGroupBefore(log, more, g);
    }
  }

  /** A drop takes away what is on record, and what is on record was stored. */
  lemma DropsStayStored(
    log: seq<Event>, snapshots: set<string>, groups: set<string>, more: seq<Event>,
    snapshots': set<string>, groups': set<string>)
    requires DropsWereStored(log) && SnapshotsExact(log, snapshots) && GroupsExact(log, groups) && |more| <= 1
    requires SnapshotKeysMove(snapshots, more, snapshots') && GroupKeysMove(groups, more, groups')
    ensures DropsWereStored(log + more)
  {
    forall k | SnapshotDroppedIn(log + more, k) ensures SnapshotStoredIn(log + more, k) {
      SnapshotsIn(log, more, k);
      assert SnapshotExact(log, snapshots, k);
    }
    forall g | GroupDroppedIn(log + more, g) ensures GroupStoredIn(log + more, g) {
      GroupsIn(log, more, g);
      assert GroupExact(log, groups, g);
    }
  }

  ghost predicate NotDroppedYet(log: seq<Event>, k: string) {
    OneMaker(log, k) ==> !SnapshotDroppedIn(log, k)
  }

  ghost predicate GroupNotDroppedYet(log: seq<Event>, g: string) {
    SoleGroup(log, g) ==> !GroupDroppedIn(log, g)
  }

  /** RPC id's own Store of the snapshot's record was acknowledged. */
  ghost predicate StoredBy(log: seq<Event>, id: nat, k: string) {
    exists record :: SnapshotStored(id, record) in log && record.snapshotId == k
  }

  ghost predicate GroupStoredBy(log: seq<Event>, id: nat, g: string) {
    exists record :: GroupStored(id, record) in log && record.groupSnapshotId == g
  }

  lemma OneStorer(s: System, id: nat, k: string)
    requires StoresFit(s) && BelongsTo(s.log, id, k) && OneMaker(s.log, k) && SnapshotStoredIn(s.log, k)
    ensures StoredBy(s.log, id, k)
  {
    var x, record :| SnapshotStored(x, record) in s.log && record.snapshotId == k;
    assert SnapshotStoreFits(s, SnapshotStored(x, record));
    SameMaker(s.log, id, x, k);
  }

  lemma OneGroupStorer(s: System, id: nat, g: string)
    requires StoresFit(s) && OwnsGroup(s.log, id, g) && SoleGroup(s.log, g) && GroupStoredIn(s.log, g)
    ensures GroupStoredBy(s.log, id, g)
  {
    var x, record :| GroupStored(x, record) in s.log && record.groupSnapshotId == g;
    assert GroupStoreFits(s, GroupStored(x, record));
    assert x == id;
  }

  lemma StorersArePast(s: System, id: nat, k: string)
    requires StoresFit(s)
    ensures StoredBy(s.log, id, k) ==> id in s.rpcs && PastStoring(s.rpcs[id])
    ensures GroupStoredBy(s.log, id, k) ==> id in s.rpcs && PastGrouping(s.rpcs[id])
  {
    if StoredBy(s.log, id, k) {
      var record :| SnapshotStored(id, record) in s.log && record.snapshotId == k;
      assert SnapshotStoreFits(s, SnapshotStored(id, record));
    }
    if GroupStoredBy(s.log, id, k) {
      var record :| GroupStored(id, record) in s.log && record.groupSnapshotId == k;
      assert GroupStoreFits(s, GroupStored(id, record));
    }
  }

  /** Nobody has dropped what its one Create has yet to store. */
  lemma NewSnapshotIsNotDropped(s: System, id: nat, k: string)
    requires StoresFit(s) && DropsWereStored(s.log)
    requires id in s.rpcs && !PastStoring(s.rpcs[id]) && BelongsTo(s.log, id, k)
    ensures NotDroppedYet(s.log, k)
  {
    StorersArePast(s, id, k);
    if SnapshotStoredIn(s.log, k) && OneMaker(s.log, k) {
      OneStorer(s, id, k);
    }
  }

  lemma NewGroupIsNotDropped(s: System, id: nat, g: string)
    requires StoresFit(s) && DropsWereStored(s.log)
    requires id in s.rpcs && !PastGrouping(s.rpcs[id]) && OwnsGroup(s.log, id, g)
    ensures GroupNotDroppedYet(s.log, g)
  {
    StorersArePast(s, id, g);
    if GroupStoredIn(s.log, g) && SoleGroup(s.log, g) {
      OneGroupStorer(s, id, g);
    }
  }

  /** What one RPC step adds to the log and moves, and none of it dropped before. */
  ghost predicate ExactMove(
    log: seq<Event>, snapshots: set<string>, groups: set<string>, more: seq<Event>,
    snapshots': set<string>, groups': set<string>)
  {
    && |more| <= 1 && SnapshotKeysMove(snapshots, more, snapshots') && GroupKeysMove(groups, more, groups')
    && (more != [] && more[0].SnapshotStored? ==> NotDroppedYet(log, more[0].record.snapshotId))
    && (more != [] && more[0].GroupStored? ==> GroupNotDroppedYet(log, more[0].group.groupSnapshotId))
  }

  lemma MoveKeepsExact(
    log: seq<Event>, snapshots: set<string>, groups: set<string>, more: seq<Event>,
    snapshots': set<string>, groups': set<string>)
    requires SnapshotsExact(log, snapshots) && GroupsExact(log, groups) && DropsWereStored(log)
    requires ExactMove(log, snapshots, groups, more, snapshots', groups')
    ensures SnapshotsExact(log + more, snapshots') && GroupsExact(log + more, groups') && DropsWereStored(log + more)
  {
    forall k ensures SnapshotExact(log + more, snapshots', k) {
      SnapshotStaysExact(log, snapshots, more, snapshots', k);
    }
    forall g ensures GroupExact(log + more, groups', g) {
      GroupStaysExact(log, groups, more, groups', g);
    }
    DropsStayStored(log, snapshots, groups, more, snapshots', groups');
  }

  lemma StoredSnapshotIsNew(s: System, id: nat, reply: Reply, s': System, e: Event)
    requires Inv(s) && StoresFit(s) && DropsWereStored(s.log) && Serves(s, id, reply, s')
    requires e in EventOf(id, s.rpcs[id], reply) && e.SnapshotStored?
    ensures NotDroppedYet(s.log, e.record.snapshotId)
  {
    assert Shape(s.log, id, s.rpcs[id]);
    SnapshotStoreIsOwn(s.store, s.log, id, s.rpcs[id], reply, s'.store, e);
    NewSnapshotIsNotDropped(s, id, e.record.snapshotId);
  }

  lemma StoredGroupIsNew(s: System, id: nat, reply: Reply, s': System, e: Event)
    requires Inv(s) && StoresFit(s) && DropsWereStored(s.log) && Serves(s, id, reply, s')
    requires e in EventOf(id, s.rpcs[id], reply) && e.GroupStored?
    ensures GroupNotDroppedYet(s.log, e.group.groupSnapshotId)
  {
    assert Shape(s.log, id, s.rpcs[id]);
    GroupStoreIsOwn(s.store, s.log, id, s.rpcs[id], reply, s'.store, e);
    NewGroupIsNotDropped(s, id, e.group.groupSnapshotId);
  }

  lemma ServeMovesExactly(s: System, id: nat, reply: Reply, s': System)
    requires Inv(s) && StoresFit(s) && DropsWereStored(s.log) && Serves(s, id, reply, s')
    ensures ExactMove(s.log, CM.Contents(s.store.snapshots).Keys, CM.Contents(s.store.groups).Keys,
              EventOf(id, s.rpcs[id], reply),
              CM.Contents(s'.store.snapshots).Keys, CM.Contents(s'.store.groups).Keys)
  {
    var more := EventOf(id, s.rpcs[id], reply);
    ServeMovesRecords(s, id, reply, s');
    if more != [] && more[0].SnapshotStored? {
      StoredSnapshotIsNew(s, id, reply, s', more[0]);
    } else if more != [] && more[0].GroupStored? {
      StoredGroupIsNew(s, id, reply, s', more[0]);
    }
  }

  lemma ServeKeepsExact(s: System, id: nat, reply: Reply, s': System)
    requires Inv(s) && StoresFit(s) && Exact(s) && Serves(s, id, reply, s')
    ensures Exact(s')
  {
    ServeMovesExactly(s, id, reply, s');
    MoveKeepsExact(s.log, CM.Contents(s.store.snapshots).Keys, CM.Contents(s.store.groups).Keys,
      EventOf(id, s.rpcs[id], reply),
      CM.Contents(s'.store.snapshots).Keys, CM.Contents(s'.store.groups).Keys);
  }

  lemma OthersKeepExact(s: System, step: Step, s': System)
    requires Exact(s) && Next(s, step, s') && !step.Serve?
    ensures Exact(s')
  {
    var more := if OnJob(step) then JobEvents(step) else [];
    var snapshots, groups := CM.Contents(s.store.snapshots).Keys, CM.Contents(s.store.groups).Keys;
    OthersMoveNoRecords(s, step, s');
    MoveKeepsExact(s.log, snapshots, groups, more, snapshots, groups);
  }

  /** In every reachable state every record in place had its Store acknowledged, and
      every record whose Store was acknowledged and whose removal was not is in place;
      and a record of a group that one Create only was given is in place exactly then. */
  lemma {:induction false} RecordsAreExact(run: seq<System>, steps: seq<Step>, i: nat)
    requires IsRun(run, steps) && i < |run|
    ensures Exact(run[i])
    decreases i
  {
    if i > 0 {
      var s, step, s' := run[i - 1], steps[i - 1], run[i - 1 + 1];
      assert StepAt(run, steps, i - 1);
      RecordsAreExact(run, steps, i - 1);
      if step.Serve? {
        RunKeepsInv(run, steps, i - 1);
        StoresFitInRuns(run, steps, i - 1);
        ServeKeepsExact(s, step.id, step.reply, s');
      } else {
        OthersKeepExact(s, step, s');
      }
    }
  }

  /** What an answer without error promises: its snapshot record is on record if this
      Create's own Store of it was acknowledged and no Delete has dropped it since, and
      so is its group record; and only then, if no other Create was given the group. */
  lemma AnsweredIsOnRecord(run: seq<System>, steps: seq<Step>, i: nat, id: nat)
    requires IsRun(run, steps) && i < |run|
    requires id in run[i].rpcs && run[i].rpcs[id].CreateDone? && run[i].rpcs[id].created.Ok?
    ensures var log, answer := run[i].log, run[i].rpcs[id].created.value;
      var snapshotKept := StoredBy(log, id, answer.snapshotId) && !SnapshotDroppedIn(log, answer.snapshotId);
      var groupKept := GroupStoredBy(log, id, answer.groupId) && !GroupDroppedIn(log, answer.groupId);
      && (snapshotKept ==> answer.snapshotId in CM.Contents(run[i].store.snapshots))
      && (groupKept ==> answer.groupId in CM.Contents(run[i].store.groups))
      && (SoleGroup(log, answer.groupId) ==>
            && (answer.snapshotId in CM.Contents(run[i].store.snapshots) <==> snapshotKept)
            && (answer.groupId in CM.Contents(run[i].store.groups) <==> groupKept))
  {
    var s, answer := run[i], run[i].rpcs[id].created.value;
    RecordsAreExact(run, steps, i);
    StoresFitInRuns(run, steps, i);
    AnswerOwns(run, steps, i, id);
    var snapshots, groups := CM.Contents(s.store.snapshots).Keys, CM.Contents(s.store.groups).Keys;
    assert SnapshotExact(s.log, snapshots, answer.snapshotId) && GroupExact(s.log, groups, answer.groupId);
    if SoleGroup(s.log, answer.groupId) {
      OneMakerOfSoleGroup(s.log, answer.groupId, answer.snapshotId);
      if answer.snapshotId in snapshots {
        OneStorer(s, id, answer.snapshotId);
      }
      if answer.groupId in groups {
        OneGroupStorer(s, id, answer.groupId);
      }
    }
  }

  lemma AnswerOwns(run: seq<System>, steps: seq<Step>, i: nat, id: nat)
    requires IsRun(run, steps) && i < |run|
    requires id in run[i].rpcs && run[i].rpcs[id].CreateDone? && run[i].rpcs[id].created.Ok?
    ensures var answer := run[i].rpcs[id].created.value;
      && SnapshotOf(answer.groupId, answer.snapshotId)
      && BelongsTo(run[i].log, id, answer.snapshotId) && OwnsGroup(run[i].log, id, answer.groupId)
  {
    RunIsJustified(run, steps, i);
    var answer := run[i].rpcs[id].created.value;
    assert Backed(run[i].log, id, run[i].rpcs[id]);
    var d :| Vouched(run[i].log, id, d) && answer == ResponseOf(d, answer.snapshotTime, answer.groupTime);
    NamedBelongs(run[i].log, id, d);
  }
}
