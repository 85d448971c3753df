/** The metadata manager: one ConfigMap for snapshot records, one for group records. */
module Managers {
  import opened Api
  import opened Machine
  import opened Clients
  import opened Wrappers
  import CM = ConfigMaps

  /** How a metadata procedure ends when it starts at the n-th call. */
  ghost function SnapshotOutcome(env: (nat, Call) -> Reply, n: nat, req: CM.Request<SnapshotRecord>)
    : CM.Outcome<SnapshotRecord>
  {
    var p := CM.Advance(CM.Begin(req), SnapshotReplyOf(env(n, OnSnapshots(CM.Get))));
    if p.stage.Ended? then p.stage.outcome
    else CM.Advance(p, SnapshotReplyOf(env(n + 1, OnSnapshots(CM.NextCall(p))))).stage.outcome
  }

  ghost function GroupOutcome(env: (nat, Call) -> Reply, n: nat, req: CM.Request<GroupRecord>)
    : CM.Outcome<GroupRecord>
  {
    var p := CM.Advance(CM.Begin(req), GroupReplyOf(env(n, OnGroups(CM.Get))));
    if p.stage.Ended? then p.stage.outcome
    else CM.Advance(p, GroupReplyOf(env(n + 1, OnGroups(CM.NextCall(p))))).stage.outcome
  }

  /** The reply shows a ConfigMap that holds the record. */
  ghost predicate HoldsGroup(r: Reply, group: string) {
    r.Groups? && r.groupReply.Object? && group in r.groupReply.data
  }

  ghost predicate HoldsSnapshot(r: Reply, snapshot: string) {
    r.Snapshots? && r.snapshotReply.Object? && snapshot in r.snapshotReply.data
  }

  /** The write that a Store issues for what its Get returned: it puts its record beside the
      others, or creates the ConfigMap if it got none, for whatever reason. */
  function SnapshotWrite(first: Reply, k: string, record: SnapshotRecord): Call {
    if first.Snapshots? && first.snapshotReply.Object?
    then OnSnapshots(CM.Update(first.snapshotReply.data[k := record], first.snapshotReply.version))
    else OnSnapshots(CM.Create(map[k := record]))
  }

  function GroupWrite(first: Reply, g: string, record: GroupRecord): Call {
    if first.Groups? && first.groupReply.Object?
    then OnGroups(CM.Update(first.groupReply.data[g := record], first.groupReply.version))
    else OnGroups(CM.Create(map[g := record]))
  }

  class Manager {
    const client: Client

    constructor (client: Client)
      ensures this.client == client
    {
      this.client := client;
    }

    method StoreSnapshotMetadata(record: SnapshotRecord) returns (stored: bool)
      requires client.at.StoringSnapshot?
      requires client.at.snapshotProc == CM.Begin(CM.Store(record.snapshotId, record))
      modifies client
      ensures client.at == StampingGroup(old(client.at).d)
      ensures stored <==>
        SnapshotOutcome(client.env, old(client.issued), CM.Store(record.snapshotId, record)) == CM.Wrote
      ensures client.issued == old(client.issued) + 2
      ensures var first := old(client.env(client.issued, OnSnapshots(CM.Get)));
        var write := SnapshotWrite(first, record.snapshotId, record);
        stored <==> old(client.env(client.issued + 1, write)) == Snapshots(CM.Written)
    {
      var r := client.Do(OnSnapshots(CM.Get));
      if !(r.Snapshots? && r.snapshotReply.Object?) {
        r := client.Do(OnSnapshots(CM.Create(map[record.snapshotId := record])));
        return r == Snapshots(CM.Written);
      }
      var data := r.snapshotReply.data;
      data := data[record.snapshotId := record];
      r := client.Do(OnSnapshots(CM.Update(data, r.snapshotReply.version)));
      return r == Snapshots(CM.Written);
    }

    /** Looks a record up in whichever handler asks for it. */
    method RetrieveSnapshotMetadata(id: string) returns (record: Option<SnapshotRecord>)
      requires !Ended(client.at) && NextCall(client.at) == OnSnapshots(CM.Get)
      modifies client
      ensures record == FoundSnapshot(id, old(client.env(client.issued, OnSnapshots(CM.Get))))
      ensures var r := old(client.env(client.issued, OnSnapshots(CM.Get)));
        && (record.Some? <==> HoldsSnapshot(r, id))
        && (record.Some? ==> record.value == r.snapshotReply.data[id])
      ensures client.at == Advance(old(client.at), old(client.env(client.issued, OnSnapshots(CM.Get))))
      ensures client.issued == old(client.issued) + 1
    {
      var reply := client.Do(OnSnapshots(CM.Get));
      if reply.Snapshots? && reply.snapshotReply.Object? {
        var data := reply.snapshotReply.data;
        if id in data {
          return Some(data[id]);
        }
      }
      return None;
    }

    method DeleteSnapshotMetadata(id: string) returns (deleted: bool)
      requires client.at.CleanupDropping? && client.at.snapshotProc == CM.Begin(CM.Drop(id))
      modifies client
      ensures client.at == DropGroup(old(client.at).group)
      ensures deleted <==> SnapshotOutcome(client.env, old(client.issued), CM.Drop(id)) != CM.Failed
      ensures var first := old(client.env(client.issued, OnSnapshots(CM.Get)));
        if HoldsSnapshot(first, id) then
          var write := OnSnapshots(CM.Update(first.snapshotReply.data - {id}, first.snapshotReply.version));
          && client.issued == old(client.issued) + 2
          && (deleted <==> old(client.env(client.issued + 1, write)) == Snapshots(CM.Written))
        else deleted && client.issued == old(client.issued) + 1
    {
      var r := client.Do(OnSnapshots(CM.Get));
      if !(r.Snapshots? && r.snapshotReply.Object?) {
        return true;
      }
      var data := r.snapshotReply.data;
      if id in data {
        data := data - {id};
        r := client.Do(OnSnapshots(CM.Update(data, r.snapshotReply.version)));
        return r == Snapshots(CM.Written);
      }
      return true;
    }

    method StoreGroupSnapshotMetadata(record: GroupRecord) returns (stored: bool)
      requires client.at.StoringGroup?
      requires client.at.groupProc == CM.Begin(CM.Store(record.groupSnapshotId, record))
      modifies client
      ensures client.at == StampingReply(old(client.at).d)
      ensures stored <==>
        GroupOutcome(client.env, old(client.issued), CM.Store(record.groupSnapshotId, record)) == CM.Wrote
      ensures client.issued == old(client.issued) + 2
      ensures var first := old(client.env(client.issued, OnGroups(CM.Get)));
        var write := GroupWrite(first, record.groupSnapshotId, record);
        stored <==> old(client.env(client.issued + 1, write)) == Groups(CM.Written)
    {
      var r := client.Do(OnGroups(CM.Get));
      if !(r.Groups? && r.groupReply.Object?) {
        r := client.Do(OnGroups(CM.Create(map[record.groupSnapshotId := record])));
        return r == Groups(CM.Written);
      }
      var data := r.groupReply.data;
      data := data[record.groupSnapshotId := record];
      r := client.Do(OnGroups(CM.Update(data, r.groupReply.version)));
      return r == Groups(CM.Written);
    }

    method RetrieveGroupSnapshotMetadata(id: string) returns (record: Option<GroupRecord>)
      requires !Ended(client.at) && NextCall(client.at) == OnGroups(CM.Get)
      modifies client
      ensures record == FoundGroup(id, old(client.env(client.issued, OnGroups(CM.Get))))
      ensures var r := old(client.env(client.issued, OnGroups(CM.Get)));
        && (record.Some? <==> HoldsGroup(r, id))
        && (record.Some? ==> record.value == r.groupReply.data[id])
      ensures client.at == Advance(old(client.at), old(client.env(client.issued, OnGroups(CM.Get))))
      ensures client.issued == old(client.issued) + 1
    {
      var reply := client.Do(OnGroups(CM.Get));
      if reply.Groups? && reply.groupReply.Object? {
        var data := reply.groupReply.data;
        if id in data {
          return Some(data[id]);
        }
      }
      return None;
    }

    method DeleteGroupSnapshotMetadata(id: string) returns (deleted: bool)
      requires client.at.DroppingGroup? && client.at.groupProc == CM.Begin(CM.Drop(id))
      modifies client
      ensures client.at == DeleteDone(true)
      ensures deleted <==> GroupOutcome(client.env, old(client.issued), CM.Drop(id)) != CM.Failed
      ensures var first := old(client.env(client.issued, OnGroups(CM.Get)));
        if HoldsGroup(first, id) then
          var write := OnGroups(CM.Update(first.groupReply.data - {id}, first.groupReply.version));
          && client.issued == old(client.issued) + 2
          && (deleted <==> old(client.env(client.issued + 1, write)) == Groups(CM.Written))
        else deleted && client.issued == old(client.issued) + 1
    {
      var r := client.Do(OnGroups(CM.Get));
      if !(r.Groups? && r.groupReply.Object?) {
        return true;
      }
      var data := r.groupReply.data;
      if id in data {
        data := data - {id};
        r := client.Do(OnGroups(CM.Update(data, r.groupReply.version)));
        return r == Groups(CM.Written);
      }
      return true;
    }
  }
}
