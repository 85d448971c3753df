/** Any number of Creates provisioning the claim that holds their snapshots.
    Claims may come and be changed from outside at any time, but are not deleted. */
module SnapshotClaims {
  import opened Api
  import opened Machine
  import opened Protocol

  ghost predicate ClaimsKept(run: seq<System>, steps: seq<Step>)
    requires |run| == |steps| + 1
  {
    forall k :: 0 <= k < |steps| ==> KeepsClaims(run[k], steps[k])
  }

  predicate KeepsClaims(s: System, step: Step) {
    step.Claims? ==> s.store.claims.Keys <= step.claims.Keys
  }

  /** A Create that is past provisioning has its claim. */
  predicate HasClaim(r: Rpc, claims: map<Key, Claim>) {
    r.StampingSnapshot? || Taking(r) ==> SnapshotClaimKey(r.d) in claims
  }

  /** No claim was created twice, and what was created is there. */
  ghost predicate CreatedOnce(log: seq<Event>, claims: map<Key, Claim>) {
    && (forall e <- log :: e.ClaimCreated? ==> e.key in claims)
    && (forall i, j :: 0 <= i < j < |log| && log[i].ClaimCreated? && log[j].ClaimCreated? ==> log[i].key != log[j].key)
  }

  ghost predicate ClaimsFit(s: System) {
    CreatedOnce(s.log, s.store.claims) && forall id <- s.rpcs :: HasClaim(s.rpcs[id], s.store.claims)
  }

  /** All that an RPC can do to the claims: add the one that is missing. */
  lemma ServedClaims(store: Store, id: nat, r: Rpc, reply: Reply, store': Store)
    requires !Ended(r) && Exec(store, NextCall(r), reply, store')
    ensures if NextCall(r).CreateClaim? && reply == Reply.Created then
        && r.Provisioning? && EventOf(id, r, reply) == [ClaimCreated(id, SnapshotClaimKey(r.d))]
        && SnapshotClaimKey(r.d) !in store.claims
        && store'.claims == store.claims[SnapshotClaimKey(r.d) := NewClaim()]
      else store'.claims == store.claims && forall e <- EventOf(id, r, reply) :: !e.ClaimCreated?
  {
    OnlyProvisioningMakesClaims(id, r, reply);
  }

  lemma OnlyProvisioningMakesClaims(id: nat, r: Rpc, reply: Reply)
    requires !Ended(r)
    ensures NextCall(r).CreateClaim? ==> r.Provisioning?
    ensures !(NextCall(r).CreateClaim? && reply == Reply.Created) ==>
      forall e <- EventOf(id, r, reply) :: !e.ClaimCreated?
  {
  }

  lemma ProvisionedHasClaim(store: Store, r: Rpc, reply: Reply, store': Store)
    requires r.Provisioning? && !r.claim.Done? && Exec(store, NextCall(r), reply, store')
    ensures HasClaim(CheckingNext(r, reply), store'.claims)
  {
  }

  lemma ServedHasClaim(store: Store, log: seq<Event>, id: nat, r: Rpc, reply: Reply, store': Store)
    requires !Ended(r) && Shape(log, id, r) && HasClaim(r, store.claims) && Exec(store, NextCall(r), reply, store')
    requires store.claims.Keys <= store'.claims.Keys
    ensures HasClaim(Advance(r, reply), store'.claims)
  {
    if r.Provisioning? {
      ProvisionedHasClaim(store, r, reply, store');
    } else if Checking(r) {
      CheckingKeepsNamespace(r, reply);
    } else if Taking(r) {
      TakingKeepsNamespace(r, reply);
    }
  }

  lemma CheckingKeepsNamespace(r: Rpc, reply: Reply)
    requires Checking(r) && !r.Provisioning?
    ensures var r' := CheckingNext(r, reply);
      !r'.StampingSnapshot? && (Taking(r') ==> r.StampingSnapshot? && SnapshotClaimKey(r'.d) == SnapshotClaimKey(r.d))
  {
  }

  lemma TakingKeepsNamespace(r: Rpc, reply: Reply)
    requires Taking(r)
    ensures var r' := TakingNext(r, reply);
      !r'.StampingSnapshot? && (Taking(r') ==> SnapshotClaimKey(r'.d) == SnapshotClaimKey(r.d))
  {
  }

  lemma AppendCreated(log: seq<Event>, claims: map<Key, Claim>, more: seq<Event>, claims': map<Key, Claim>)
    requires CreatedOnce(log, claims) && |more| <= 1 && claims.Keys <= claims'.Keys
    requires forall e <- more :: e.ClaimCreated? ==> e.key !in claims && e.key in claims'
    ensures CreatedOnce(log + more, claims')
  {
  }

  lemma ServeKeepsClaims(s: System, id: nat, reply: Reply, s': System)
    requires Inv(s) && ClaimsFit(s) && Serves(s, id, reply, s')
    ensures ClaimsFit(s')
  {
    var r := s.rpcs[id];
    ServedClaims(s.store, id, r, reply, s'.store);
    assert Shape(s.log, id, r);
    ServedHasClaim(s.store, s.log, id, r, reply, s'.store);
    AppendCreated(s.log, s.store.claims, EventOf(id, r, reply), s'.store.claims);
  }

  lemma OtherStepsKeepClaims(s: System, step: Step, s': System)
    requires ClaimsFit(s) && Next(s, step, s') && KeepsClaims(s, step) && !step.Serve?
    ensures ClaimsFit(s')
  {
    AppendCreated(s.log, s.store.claims, if OnJob(step) then JobEvents(step) else [], s'.store.claims);
  }

  lemma StepKeepsClaims(s: System, step: Step, s': System)
    requires Inv(s) && ClaimsFit(s) && Next(s, step, s') && KeepsClaims(s, step)
    ensures ClaimsFit(s')
  {
    if step.Serve? {
      ServeKeepsClaims(s, step.id, step.reply, s');
    } else {
      OtherStepsKeepClaims(s, step, s');
    }
  }

  /** In every run in which nobody deletes claims, each claim is created at most
      once by all Creates together, and every Create past provisioning finds the
      claim of its namespace in place. */
  lemma {:induction false} ClaimsFitInRuns(run: seq<System>, steps: seq<Step>, i: nat)
    requires IsRun(run, steps) && ClaimsKept(run, steps) && i < |run|
    ensures ClaimsFit(run[i])
    decreases i
  {
    if i > 0 {
      ClaimsFitInRuns(run, steps, i - 1);
      RunKeepsInv(run, steps, i - 1);
      assert StepAt(run, steps, i - 1);
      StepKeepsClaims(run[i - 1], steps[i - 1], run[i - 1 + 1]);
    }
  }

  /** No step of any RPC changes a claim that exists. */
  lemma RpcsNeverChangeClaims(s: System, id: nat, reply: Reply, s': System, key: Key)
    requires Serves(s, id, reply, s') && key in s.store.claims
    ensures key in s'.store.claims && s'.store.claims[key] == s.store.claims[key]
  {
    ServedClaims(s.store, id, s.rpcs[id], reply, s'.store);
  }
}
