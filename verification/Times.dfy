/** The times that a Create puts into its records and its answer: each is the clock of
    the moment it is taken, and the moments come in order. */
module Times {
  import opened Api
  import opened Wrappers
  import opened Machine
  import opened Protocol
  import opened Records
  import opened JobWaits
  import opened Outcome

  /* ----- where they are read ----- */

  datatype Reading = OfSnapshot | OfGroup | OfAnswer | OfGroupAnswer

  predicate Reads(r: Rpc, what: Reading) {
    match what
    case OfSnapshot => r.StampingRecord?
    case OfGroup => r.StampingGroup?
    case OfAnswer => r.StampingReply?
    case OfGroupAnswer => r.StampingGroupReply?
  }

  /** In step a RPC id read t for this purpose, and t is what the clock showed. */
  ghost predicate ReadAt(run: seq<System>, steps: seq<Step>, a: nat, id: nat, what: Reading, t: nat)
    requires a < |steps| < |run|
  {
    Answers(run[a], steps[a], id) && Reads(run[a].rpcs[id], what) && t == run[a].store.clock
  }

  ghost predicate WasRead(run: seq<System>, steps: seq<Step>, j: nat, id: nat, what: Reading, t: nat)
    requires j < |run| == |steps| + 1
  {
    exists a: nat :: a < j && ReadAt(run, steps, a, id, what, t)
  }

  /** The times that an RPC holds. */
  ghost predicate HeldWereRead(run: seq<System>, steps: seq<Step>, j: nat, id: nat, r: Rpc)
    requires j < |run| == |steps| + 1
  {
    match r
    case StoringSnapshot(_, p) => p.req.Store? && WasRead(run, steps, j, id, OfSnapshot, p.req.record.creationTime)
    case StoringGroup(_, p) => p.req.Store? && WasRead(run, steps, j, id, OfGroup, p.req.record.creationTime)
    case StampingGroupReply(_, time) => WasRead(run, steps, j, id, OfAnswer, time)
    case CreateDone(Ok(answer)) =>
      && WasRead(run, steps, j, id, OfAnswer, answer.snapshotTime)
      && WasRead(run, steps, j, id, OfGroupAnswer, answer.groupTime)
    case _ => true
  }

  /** The time in a record that it has stored. */
  ghost predicate StoredWasRead(run: seq<System>, steps: seq<Step>, j: nat, id: nat, e: Event)
    requires j < |run| == |steps| + 1
  {
    && (e.SnapshotStored? && e.rpc == id ==> WasRead(run, steps, j, id, OfSnapshot, e.record.creationTime))
    && (e.GroupStored? && e.rpc == id ==> WasRead(run, steps, j, id, OfGroup, e.group.creationTime))
  }

  ghost predicate AllStoredWereRead(run: seq<System>, steps: seq<Step>, j: nat, id: nat, log: seq<Event>)
    requires j < |run| == |steps| + 1
  {
    forall e <- log :: StoredWasRead(run, steps, j, id, e)
  }

  ghost predicate TimesRead(run: seq<System>, steps: seq<Step>, j: nat, id: nat)
    requires j < |run| == |steps| + 1
  {
    && (id in run[j].rpcs ==> HeldWereRead(run, steps, j, id, run[j].rpcs[id]))
    && AllStoredWereRead(run, steps, j, id, run[j].log)
  }

  lemma ReadGrows(run: seq<System>, steps: seq<Step>, k: nat, id: nat, what: Reading, t: nat)
    requires k < |steps| && |run| == |steps| + 1
    ensures WasRead(run, steps, k, id, what, t) || ReadAt(run, steps, k, id, what, t) ==>
      WasRead(run, steps, k + 1, id, what, t)
  {
  }

  lemma HeldGrows(run: seq<System>, steps: seq<Step>, k: nat, id: nat, r: Rpc)
    requires k < |steps| && |run| == |steps| + 1 && HeldWereRead(run, steps, k, id, r)
    ensures HeldWereRead(run, steps, k + 1, id, r)
  {
    forall what, t | WasRead(run, steps, k, id, what, t) ensures WasRead(run, steps, k + 1, id, what, t) {
      ReadGrows(run, steps, k, id, what, t);
    }
  }

  lemma StoredGrowsRead(run: seq<System>, steps: seq<Step>, k: nat, id: nat, e: Event)
    requires k < |steps| && |run| == |steps| + 1 && StoredWasRead(run, steps, k, id, e)
    ensures StoredWasRead(run, steps, k + 1, id, e)
  {
    forall what, t | WasRead(run, steps, k, id, what, t) ensures WasRead(run, steps, k + 1, id, what, t) {
      ReadGrows(run, steps, k, id, what, t);
    }
  }

  /** What a Create does with a clock reading, and what else it passes on. */
  lemma TakingPassesTimes(r: Rpc, reply: Reply)
    requires Taking(r)
    ensures match TakingNext(r, reply)
      case StoringSnapshot(_, p) =>
        if r.StampingRecord? then p.req.Store? && p.req.record.creationTime == TimeOf(reply)
        else r.StoringSnapshot? && p.req == r.snapshotProc.req
      case StoringGroup(_, p) =>
        if r.StampingGroup? then p.req.Store? && p.req.record.creationTime == TimeOf(reply)
        else r.StoringGroup? && p.req == r.groupProc.req
      case StampingGroupReply(_, time) => r.StampingReply? && time == TimeOf(reply)
      case CreateDone(Ok(answer)) =>
        r.StampingGroupReply? && answer.snapshotTime == r.snapshotTime && answer.groupTime == TimeOf(reply)
      case _ => true
  {
  }

  lemma OthersHoldNoTimes(r: Rpc, reply: Reply)
    requires !Ended(r) && !Taking(r)
    ensures var r' := Advance(r, reply);
      !r'.StoringSnapshot? && !r'.StoringGroup? && !r'.StampingGroupReply? && !(r'.CreateDone? && r'.created.Ok?)
  {
    if Checking(r) {
      var r' := CheckingNext(r, reply);
      assert Checking(r') || r'.Saving? || (r'.CreateDone? && r'.created.Err?);
    } else if Deleting(r) {
      assert Deleting(DeletingNext(r, reply)) || DeletingNext(r, reply).DeleteDone?;
    }
  }

  lemma ClockIsRead(s: Store, r: Rpc, reply: Reply, s': Store)
    requires Taking(r) && (r.StampingRecord? || r.StampingGroup? || r.StampingReply? || r.StampingGroupReply?)
    requires Exec(s, NextCall(r), reply, s')
    ensures TimeOf(reply) == s.clock
  {
  }

  lemma OwnStepHolds(run: seq<System>, steps: seq<Step>, k: nat, id: nat)
    requires |run| == |steps| + 1 && k < |steps| && id in run[k].rpcs
    requires Answers(run[k], steps[k], id) && Serves(run[k], id, steps[k].reply, run[k + 1])
    requires HeldWereRead(run, steps, k, id, run[k].rpcs[id])
    ensures HeldWereRead(run, steps, k + 1, id, run[k + 1].rpcs[id])
  {
    var r, reply, now := run[k].rpcs[id], steps[k].reply, run[k].store.clock;
    if Taking(r) {
      TakingPassesTimes(r, reply);
      forall what, t | WasRead(run, steps, k, id, what, t) || ReadAt(run, steps, k, id, what, t)
        ensures WasRead(run, steps, k + 1, id, what, t)
      {
        ReadGrows(run, steps, k, id, what, t);
      }
      if r.StampingRecord? || r.StampingGroup? || r.StampingReply? || r.StampingGroupReply? {
        ClockIsRead(run[k].store, r, reply, run[k + 1].store);
        assert Reads(r, OfSnapshot) ==> ReadAt(run, steps, k, id, OfSnapshot, now);
        assert Reads(r, OfGroup) ==> ReadAt(run, steps, k, id, OfGroup, now);
        assert Reads(r, OfAnswer) ==> ReadAt(run, steps, k, id, OfAnswer, now);
        assert Reads(r, OfGroupAnswer) ==> ReadAt(run, steps, k, id, OfGroupAnswer, now);
      }
    } else {
      OthersHoldNoTimes(r, reply);
    }
  }

  /** What is stored is what the RPC held. */
  lemma StoresWhatItHeld(id: nat, r: Rpc, reply: Reply, e: Event)
    requires !Ended(r) && e in EventOf(id, r, reply)
    ensures e.SnapshotStored? ==>
      r.StoringSnapshot? && r.snapshotProc.req.Store? && e.record == r.snapshotProc.req.record
    ensures e.GroupStored? ==> r.StoringGroup? && r.groupProc.req.Store? && e.group == r.groupProc.req.record
  {
  }

  lemma NewStoredWasRead(run: seq<System>, steps: seq<Step>, k: nat, id: nat, e: Event)
    requires |run| == |steps| + 1 && k < |steps| && TimesRead(run, steps, k, id)
    requires steps[k].Serve? && Serves(run[k], steps[k].id, steps[k].reply, run[k + 1])
    requires e in EventOf(steps[k].id, run[k].rpcs[steps[k].id], steps[k].reply)
    ensures StoredWasRead(run, steps, k + 1, id, e)
  {
    if (e.SnapshotStored? || e.GroupStored?) && e.rpc == id {
      StoresWhatItHeld(steps[k].id, run[k].rpcs[steps[k].id], steps[k].reply, e);
      HeldGrows(run, steps, k, id, run[k].rpcs[id]);
    }
  }

  lemma StepKeepsHeld(run: seq<System>, steps: seq<Step>, k: nat, id: nat)
    requires IsRun(run, steps) && k < |steps| && TimesRead(run, steps, k, id) && id in run[k + 1].rpcs
    ensures HeldWereRead(run, steps, k + 1, id, run[k + 1].rpcs[id])
  {
    assert StepAt(run, steps, k);
    if Answers(run[k], steps[k], id) {
      OwnStepHolds(run, steps, k, id);
    } else if id in run[k].rpcs {
      HeldGrows(run, steps, k, id, run[k].rpcs[id]);
    }
  }

  lemma StepKeepsStoredRead(run: seq<System>, steps: seq<Step>, k: nat, id: nat)
    requires IsRun(run, steps) && k < |steps| && TimesRead(run, steps, k, id)
    ensures AllStoredWereRead(run, steps, k + 1, id, run[k + 1].log)
  {
    assert StepAt(run, steps, k);
    var j, log := k + 1, run[k + 1].log;
    forall e | e in log ensures StoredWasRead(run, steps, j, id, e) {
      if e in run[k].log {
        StoredGrowsRead(run, steps, k, id, e);
      } else if steps[k].Serve? {
        NewStoredWasRead(run, steps, k, id, e);
      }
    }
  }

  lemma {:induction false} TimesReadInRuns(run: seq<System>, steps: seq<Step>, j: nat, id: nat)
    requires IsRun(run, steps) && j < |run|
    ensures TimesRead(run, steps, j, id)
    decreases j
  {
    if j > 0 {
      TimesReadInRuns(run, steps, j - 1, id);
      StepKeepsStoredRead(run, steps, j - 1, id);
      if id in run[j].rpcs {
        StepKeepsHeld(run, steps, j - 1, id);
      }
    }
  }

  /* ----- in which order ----- */

  ghost predicate SnapshotBetween(log: seq<Event>, id: nat, lo: nat, hi: nat) {
    forall e <- log :: e.SnapshotStored? && e.rpc == id ==> lo <= e.record.creationTime <= hi
  }

  ghost predicate GroupBetween(log: seq<Event>, id: nat, lo: nat, hi: nat) {
    forall e <- log :: e.GroupStored? && e.rpc == id ==> lo <= e.group.creationTime <= hi
  }

  /** RPC id stored its snapshot record and its group record in the order of their times. */
  ghost predicate SnapshotFirst(log: seq<Event>, id: nat) {
    forall e, f | e in log && f in log && e.SnapshotStored? && f.GroupStored? && e.rpc == id && f.rpc == id ::
      e.record.creationTime <= f.group.creationTime
  }

  ghost predicate RecordsInOrder(log: seq<Event>, id: nat, lo: nat, hi: nat) {
    SnapshotBetween(log, id, lo, hi) && GroupBetween(log, id, lo, hi) && SnapshotFirst(log, id)
  }

  /** What an RPC has read and stored since its save was seen to succeed lies between that
      moment and now, in the order of the phases. */
  ghost predicate InOrder(r: Rpc, log: seq<Event>, id: nat, since: nat, now: nat) {
    && since <= now
    && match r
       case StampingRecord(_) => true
       case StoringSnapshot(_, p) => p.req.Store? && since <= p.req.record.creationTime <= now
       case StampingGroup(_) => SnapshotBetween(log, id, since, now)
       case StoringGroup(_, p) =>
         && p.req.Store? && since <= p.req.record.creationTime <= now
         && SnapshotBetween(log, id, since, p.req.record.creationTime)
       case StampingReply(_) => RecordsInOrder(log, id, since, now)
       case StampingGroupReply(_, time) => since <= time <= now && RecordsInOrder(log, id, since, time)
       case CreateDone(Ok(answer)) =>
         && since <= answer.snapshotTime <= answer.groupTime <= now
         && RecordsInOrder(log, id, since, answer.snapshotTime)
       case _ => false
  }

  /** Before its Store an RPC has stored nothing. */
  lemma NothingStoredBefore(s: System, id: nat)
    requires StoresFit(s) && id in s.rpcs
    ensures !PastStoring(s.rpcs[id]) ==> forall e <- s.log :: !(e.SnapshotStored? && e.rpc == id)
    ensures !PastGrouping(s.rpcs[id]) ==> forall e <- s.log :: !(e.GroupStored? && e.rpc == id)
  {
    forall e | e in s.log && e.SnapshotStored? && e.rpc == id ensures PastStoring(s.rpcs[id]) {
      assert SnapshotStoreFits(s, e);
    }
    forall e | e in s.log && e.GroupStored? && e.rpc == id ensures PastGrouping(s.rpcs[id]) {
      assert GroupStoreFits(s, e);
    }
  }

  lemma ReadingStaysInOrder(r: Rpc, log: seq<Event>, id: nat, since: nat, now: nat, reply: Reply)
    requires r.StampingRecord? || r.StampingGroup? || r.StampingReply? || r.StampingGroupReply?
    requires InOrder(r, log, id, since, now) && TimeOf(reply) == now
    ensures InOrder(TakingNext(r, reply), log, id, since, now)
  {
  }

  lemma SnapshotStoreStaysInOrder(
    r: Rpc, log: seq<Event>, id: nat, since: nat, now: nat, reply: Reply, more: seq<Event>)
    requires r.StoringSnapshot? && InOrder(r, log, id, since, now)
    requires forall e <- log :: !(e.SnapshotStored? && e.rpc == id)
    requires forall e <- more :: e.SnapshotStored? ==> e.record == r.snapshotProc.req.record
    ensures InOrder(TakingNext(r, reply), log + more, id, since, now)
  {
    TakingPassesTimes(r, reply);
    assert SnapshotBetween(log + more, id, since, now);
  }

  lemma GroupStoreStaysInOrder(
    r: Rpc, log: seq<Event>, id: nat, since: nat, now: nat, reply: Reply, more: seq<Event>)
    requires r.StoringGroup? && InOrder(r, log, id, since, now)
    requires forall e <- log :: !(e.GroupStored? && e.rpc == id)
    requires forall e <- more :: !e.SnapshotStored? && (e.GroupStored? ==> e.group == r.groupProc.req.record)
    ensures InOrder(TakingNext(r, reply), log + more, id, since, now)
  {
    TakingPassesTimes(r, reply);
    var time := r.groupProc.req.record.creationTime;
    assert SnapshotBetween(log + more, id, since, time) && GroupBetween(log + more, id, since, now);
    assert SnapshotFirst(log + more, id);
  }

  /** Later events of others, and a later clock, change nothing of it. */
  lemma OrderStays(r: Rpc, log: seq<Event>, more: seq<Event>, id: nat, since: nat, now: nat, later: nat)
    requires InOrder(r, log, id, since, now) && now <= later
    requires forall e <- more :: !((e.SnapshotStored? || e.GroupStored?) && e.rpc == id)
    ensures InOrder(r, log + more, id, since, later)
  {
  }

  lemma OwnStepStaysInOrder(s: System, id: nat, reply: Reply, s': System, since: nat)
    requires StoresFit(s) && Serves(s, id, reply, s') && InOrder(s.rpcs[id], s.log, id, since, s.store.clock)
    ensures InOrder(s'.rpcs[id], s'.log, id, since, s.store.clock)
  {
    var r, more := s.rpcs[id], EventOf(id, s.rpcs[id], reply);
    NothingStoredBefore(s, id);
    forall e | e in more
      ensures e.SnapshotStored? ==> r.StoringSnapshot? && e.record == r.snapshotProc.req.record
      ensures e.GroupStored? ==> r.StoringGroup? && e.group == r.groupProc.req.record
    {
      StoresWhatItHeld(id, r, reply, e);
    }
    if r.StoringSnapshot? {
      SnapshotStoreStaysInOrder(r, s.log, id, since, s.store.clock, reply, more);
    } else if r.StoringGroup? {
      GroupStoreStaysInOrder(r, s.log, id, since, s.store.clock, reply, more);
    } else {
      ClockIsRead(s.store, r, reply, s'.store);
      ReadingStaysInOrder(r, s.log, id, since, s.store.clock, reply);
      OrderStays(TakingNext(r, reply), s.log, more, id, since, s.store.clock, s.store.clock);
    }
  }

  lemma EventsOfOthers(x: nat, r: Rpc, reply: Reply, id: nat)
    requires !Ended(r) && x != id
    ensures forall e <- EventOf(x, r, reply) :: !((e.SnapshotStored? || e.GroupStored?) && e.rpc == id)
  {
  }

  lemma StepStaysInOrder(s: System, step: Step, s': System, id: nat, since: nat)
    requires StoresFit(s) && Next(s, step, s') && id in s.rpcs
    requires InOrder(s.rpcs[id], s.log, id, since, s.store.clock)
    ensures id in s'.rpcs && InOrder(s'.rpcs[id], s'.log, id, since, s'.store.clock)
  {
    StepKeepsTime(s, step, s');
    if step.Serve? && step.id == id {
      OwnStepStaysInOrder(s, id, step.reply, s', since);
    } else if step.Serve? {
      EventsOfOthers(step.id, s.rpcs[step.id], step.reply, id);
      OrderStays(s.rpcs[id], s.log, EventOf(step.id, s.rpcs[step.id], step.reply), id, since,
        s.store.clock, s'.store.clock);
    } else {
      OrderStays(s.rpcs[id], s.log, if OnJob(step) then JobEvents(step) else [], id, since,
        s.store.clock, s'.store.clock);
    }
  }

  /** In step a the Create saw its save succeed. */
  ghost predicate SavedAt(run: seq<System>, steps: seq<Step>, a: nat, id: nat)
    requires a < |steps| < |run|
  {
    SeesSuccess(run[a], steps[a], id) && run[a].rpcs[id].Saving?
  }

  lemma SavedIsInOrder(run: seq<System>, steps: seq<Step>, a: nat, id: nat)
    requires IsRun(run, steps) && a < |steps| && SavedAt(run, steps, a, id)
    ensures id in run[a + 1].rpcs
    ensures InOrder(run[a + 1].rpcs[id], run[a + 1].log, id, run[a].store.clock, run[a + 1].store.clock)
  {
    assert StepAt(run, steps, a);
    StepKeepsTime(run[a], steps[a], run[a + 1]);
    RunKeepsInv(run, steps, a);
    assert Shape(run[a].log, id, run[a].rpcs[id]);
    assert run[a + 1].rpcs[id].StampingRecord?;
  }

  lemma {:induction false} OrderInRuns(run: seq<System>, steps: seq<Step>, a: nat, j: nat, id: nat)
    requires IsRun(run, steps) && a < j < |run| && SavedAt(run, steps, a, id)
    ensures id in run[j].rpcs
    ensures InOrder(run[j].rpcs[id], run[j].log, id, run[a].store.clock, run[j].store.clock)
    decreases j - a
  {
    if j == a + 1 {
      SavedIsInOrder(run, steps, a, id);
    } else {
      OrderInRuns(run, steps, a, j - 1, id);
      StoresFitInRuns(run, steps, j - 1);
      assert StepAt(run, steps, j - 1);
      StepStaysInOrder(run[j - 1], steps[j - 1], run[j - 1 + 1], id, run[a].store.clock);
    }
  }

  lemma OnlyCreatesSave(r: Rpc, reply: Reply)
    requires !Ended(r) && !IsCreate(r)
    ensures !IsSaved(Advance(r, reply))
  {
    if Deleting(r) {
      assert Deleting(DeletingNext(r, reply)) || DeletingNext(r, reply).DeleteDone?;
    }
  }

  lemma SaveStep(s: System, step: Step, s': System, id: nat)
    requires Inv(s) && Next(s, step, s') && id in s'.rpcs && IsSaved(s'.rpcs[id])
    ensures id in s.rpcs
    ensures IsSaved(s.rpcs[id]) || (SeesSuccess(s, step, id) && s.rpcs[id].Saving?)
  {
    assert id in s.rpcs;
    if IsCreate(s.rpcs[id]) {
      StepMoves(s, step, s', id);
    } else if Answers(s, step, id) {
      OnlyCreatesSave(s.rpcs[id], step.reply);
    }
  }

  /** A Create past its save has seen it succeed. */
  lemma {:induction false} SaveWasSeen(run: seq<System>, steps: seq<Step>, j: nat, id: nat) returns (a: nat)
    requires IsRun(run, steps) && j < |run| && id in run[j].rpcs && IsSaved(run[j].rpcs[id])
    ensures a < j && SavedAt(run, steps, a, id)
    decreases j
  {
    assert j > 0;
    RunKeepsInv(run, steps, j - 1);
    assert StepAt(run, steps, j - 1);
    SaveStep(run[j - 1], steps[j - 1], run[j - 1 + 1], id);
    if IsSaved(run[j - 1].rpcs[id]) {
      a := SaveWasSeen(run, steps, j - 1, id);
    } else {
      a := j - 1;
    }
  }

  /** In any run, of a Create that has answered OK: its times are what the clock showed in
      the steps that read them, the last of which is the step that answers; and from the
      step in which it saw its save succeed they come in order: the snapshot record's, the
      group record's, the answer's snapshot time, the answer's group time, now. */
  lemma AnswerTimes(run: seq<System>, steps: seq<Step>, j: nat, id: nat) returns (a: nat)
    requires IsRun(run, steps) && j < |run|
    requires id in run[j].rpcs && run[j].rpcs[id].CreateDone? && run[j].rpcs[id].created.Ok?
    ensures a < j && SavedAt(run, steps, a, id)
    ensures var answer, log, saved := run[j].rpcs[id].created.value, run[j].log, run[a].store.clock;
      && saved <= answer.snapshotTime <= answer.groupTime <= run[j].store.clock
      && WasRead(run, steps, j, id, OfAnswer, answer.snapshotTime)
      && WasRead(run, steps, j, id, OfGroupAnswer, answer.groupTime)
      && (forall record :: SnapshotStored(id, record) in log ==>
            saved <= record.creationTime <= answer.snapshotTime
            && WasRead(run, steps, j, id, OfSnapshot, record.creationTime))
      && (forall group :: GroupStored(id, group) in log ==>
            saved <= group.creationTime <= answer.snapshotTime
            && WasRead(run, steps, j, id, OfGroup, group.creationTime))
      && (forall record, group :: SnapshotStored(id, record) in log && GroupStored(id, group) in log ==>
            record.creationTime <= group.creationTime)
  {
    a := SaveWasSeen(run, steps, j, id);
    OrderInRuns(run, steps, a, j, id);
    TimesReadInRuns(run, steps, j, id);
    var log := run[j].log;
    forall record | SnapshotStored(id, record) in log
      ensures WasRead(run, steps, j, id, OfSnapshot, record.creationTime)
    {
      assert StoredWasRead(run, steps, j, id, SnapshotStored(id, record));
    }
    forall group | GroupStored(id, group) in log ensures WasRead(run, steps, j, id, OfGroup, group.creationTime) {
      assert StoredWasRead(run, steps, j, id, GroupStored(id, group));
    }
  }

  /** The step that reads an answer's group time is the one that answers. */
  lemma AnswerIsLast(run: seq<System>, steps: seq<Step>, a: nat, id: nat, t: nat)
    requires IsRun(run, steps) && a < |steps| && ReadAt(run, steps, a, id, OfGroupAnswer, t)
    ensures id in run[a + 1].rpcs && run[a + 1].rpcs[id].CreateDone? && run[a + 1].rpcs[id].created.Ok?
    ensures run[a + 1].rpcs[id].created.value.groupTime == t == run[a + 1].store.clock
  {
    assert StepAt(run, steps, a);
    StepKeepsTime(run[a], steps[a], run[a + 1]);
    ClockIsRead(run[a].store, run[a].rpcs[id], steps[a].reply, run[a + 1].store);
  }
}
