/** The quorum check a cluster must pass before it is snapshotted. */
module Health {
  /** A member as the member list reports it; answers says whether dialling its
      first client URL and reading one key from it both succeeded. */
  datatype Member = Member(id: nat, isLearner: bool, clientURLs: seq<string>, answers: bool)

  datatype AnyObservation =
    | NoClient
    | NoMemberList
    | Listed(responder: nat, members: seq<Member>)
  {
    predicate VotersHaveURLs() {
      Listed? ==> forall m <- members :: !m.isLearner ==> m.clientURLs != []
    }
  }

  type Observation = o: AnyObservation | o.VotersHaveURLs() witness NoClient

  datatype Verdict =
    | Healthy
    | NoEndpoints
    | CannotConnect
    | CannotList
    | NoMembers
    | NoVoters
    | NoQuorum(healthy: nat, voting: nat)
    | ResponderNotVoting

  predicate Voting(m: Member) {
    !m.isLearner
  }

  predicate Reachable(m: Member) {
    !m.isLearner && m.answers
  }

  /** What a count keeps: the voters, or those voters that answered. */
  datatype Want = Voter | HealthyVoter
  {
    predicate Of(m: Member) {
      if this.Voter? then Voting(m) else Reachable(m)
    }
  }

  /** The wanted members, in order. */
  function Keep(w: Want, ms: seq<Member>): seq<Member> {
    if ms == [] then []
    else
      var last := ms[|ms| - 1];
      Keep(w, ms[..|ms| - 1]) + if w.Of(last) then [last] else []
  }

  function Voters(ms: seq<Member>): seq<Member> {
    Keep(Voter, ms)
  }

  function HealthyVoters(ms: seq<Member>): seq<Member> {
    Keep(HealthyVoter, ms)
  }

  /** What the check demands: a majority of the voters answered, and the member
      that produced the list is itself a voter. */
  ghost predicate HasQuorum(responder: nat, ms: seq<Member>) {
    && 2 * |HealthyVoters(ms)| > |Voters(ms)|
    && exists m :: m in ms && Voting(m) && m.id == responder
  }

  /** The observation an accepted check must have made. */
  ghost predicate Accepts(endpoints: seq<string>, o: Observation) {
    endpoints != [] && o.Listed? && HasQuorum(o.responder, o.members)
  }

  /** v is the verdict on o: each error exactly in its own case, the one that is
      left being a quorum whose responder does not vote. */
  ghost predicate Judges(endpoints: seq<string>, o: Observation, v: Verdict) {
    && (v.Healthy? <==> Accepts(endpoints, o))
    && (v.NoEndpoints? <==> endpoints == [])
    && (v.CannotConnect? <==> endpoints != [] && o.NoClient?)
    && (v.CannotList? <==> endpoints != [] && o.NoMemberList?)
    && (endpoints != [] && o.Listed? ==>
          && (v.NoMembers? <==> o.members == [])
          && (v.NoVoters? <==> o.members != [] && Voters(o.members) == [])
          && (v.NoQuorum? <==> Voters(o.members) != [] && 2 * |HealthyVoters(o.members)| <= |Voters(o.members)|)
          && (v.NoQuorum? ==> v.healthy == |HealthyVoters(o.members)| && v.voting == |Voters(o.members)|))
  }

  method ValidateHealth(endpoints: seq<string>, o: Observation) returns (v: Verdict)
    ensures Judges(endpoints, o, v)
  {
    if |endpoints| == 0 {
      return NoEndpoints;
    }
    if o.NoClient? {
      return CannotConnect;
    }
    if o.NoMemberList? {
      return CannotList;
    }
    var members := o.members;
    if |members| == 0 {
      return NoMembers;
    }

    var voting := 0;
    for i := 0 to |members|
      invariant voting == |Voters(members[..i])|
    {
      assert members[..i + 1][..i] == members[..i];
      if !members[i].isLearner {
        voting := voting + 1;
      }
    }
    assert members[..|members|] == members;
    if voting == 0 {
      HealthyAreVoters(members);
      return NoVoters;
    }

    var required := voting / 2 + 1;
    var healthy, hasLeader := 0, false;
    for i := 0 to |members|
      invariant healthy == |HealthyVoters(members[..i])|
      invariant hasLeader <==> exists m :: m in members[..i] && Voting(m) && m.id == o.responder
    {
      var member := members[i];
      assert members[..i + 1] == members[..i] + [member];
      if member.isLearner {
        continue;
      }
      if o.responder == member.id {
        hasLeader := true;
      }
      if Ping(member, member.clientURLs[0]) {
        healthy := healthy + 1;
      }
    }
    if healthy < required {
      return NoQuorum(healthy, voting);
    }
    if !hasLeader {
      return ResponderNotVoting;
    }
    return Healthy;
  }

  /** Dial and read through the member's first URL. */
  predicate Ping(member: Member, endpoint: string)
    requires member.clientURLs != [] && endpoint == member.clientURLs[0]
  {
    member.answers
  }

  lemma {:induction false} KeepMembers(w: Want, ms: seq<Member>)
    ensures forall m :: m in Keep(w, ms) <==> m in ms && w.Of(m)
    decreases |ms|
  {
    if ms != [] {
      var n := |ms| - 1;
      assert ms == ms[..n] + [ms[n]];
      KeepMembers(w, ms[..n]);
    }
  }

  lemma {:induction false} HealthyAreVoters(ms: seq<Member>)
    ensures |HealthyVoters(ms)| <= |Voters(ms)|
    decreases |ms|
  {
    if ms != [] {
      HealthyAreVoters(ms[..|ms| - 1]);
    }
  }

  /** An accepted check had fewer than half of the voters down. */
  lemma FewVotersDown(responder: nat, ms: seq<Member>)
    requires HasQuorum(responder, ms)
    ensures |HealthyVoters(ms)| >= |Voters(ms)| / 2 + 1
    ensures 0 <= |Voters(ms)| - |HealthyVoters(ms)| <= (|Voters(ms)| - 1) / 2
    ensures exists m :: m in ms && !m.isLearner && m.id == responder
  {
    HealthyAreVoters(ms);
  }

  /* ----- the verdict ignores order and learners ----- */

  lemma {:induction false} KeepConcat(w: Want, a: seq<Member>, b: seq<Member>)
    ensures Keep(w, a + b) == Keep(w, a) + Keep(w, b)
    decreases |b|
  {
    if b == [] {
      assert a + b == a;
    } else {
      var n := |b| - 1;
      assert (a + b)[..|a| + n] == a + b[..n];
      KeepConcat(w, a, b[..n]);
    }
  }

  lemma KeepWithout(w: Want, b: seq<Member>, i: nat)
    requires i < |b|
    ensures |Keep(w, b)| == |Keep(w, b[..i] + b[i + 1..])| + if w.Of(b[i]) then 1 else 0
    ensures multiset(b[..i] + b[i + 1..]) == multiset(b) - multiset{b[i]}
  {
    var l, r := b[..i], b[i + 1..];
    assert b == l + [b[i]] + r;
    KeepConcat(w, l, r);
    KeepConcat(w, l + [b[i]], r);
    KeepConcat(w, l, [b[i]]);
  }

  lemma {:induction false} KeepByMultiset(w: Want, a: seq<Member>, b: seq<Member>)
    requires multiset(a) == multiset(b)
    ensures |Keep(w, a)| == |Keep(w, b)|
    decreases |a|
  {
    assert |a| == |multiset(a)| == |multiset(b)| == |b|;
    if a != [] {
      var n, m := |a| - 1, a[|a| - 1];
      assert a == a[..n] + [m];
      assert m in multiset(b);
      var i: nat :| i < |b| && b[i] == m;
      KeepWithout(w, b, i);
      assert multiset(a[..n]) == multiset(a) - multiset{m};
      KeepByMultiset(w, a[..n], b[..i] + b[i + 1..]);
    }
  }

  lemma SameMembers(a: seq<Member>, b: seq<Member>)
    requires multiset(a) == multiset(b)
    ensures |a| == |b| && forall m :: m in a <==> m in b
  {
    assert |a| == |multiset(a)| == |multiset(b)| == |b|;
    assert forall m :: m in a <==> m in multiset(a);
    assert forall m :: m in b <==> m in multiset(b);
  }

  /** The order of the member list decides nothing, neither the verdict nor the
      kind and the counts of an error. */
  lemma OrderDoesNotMatter(endpoints: seq<string>, o: Observation, p: Observation, v: Verdict, w: Verdict)
    requires o.Listed? && p.Listed? && o.responder == p.responder && multiset(o.members) == multiset(p.members)
    requires Judges(endpoints, o, v) && Judges(endpoints, p, w)
    ensures v == w
  {
    KeepByMultiset(Voter, o.members, p.members);
    KeepByMultiset(HealthyVoter, o.members, p.members);
    SameMembers(o.members, p.members);
    assert HasQuorum(o.responder, o.members) <==> HasQuorum(p.responder, p.members);
  }

  /** Nor does a learner at any place, except that a list of learners alone has
      members and yet no voters. */
  lemma LearnersDoNotMatter(
    endpoints: seq<string>, o: Observation, a: seq<Member>, learner: Member, b: seq<Member>, v: Verdict,
    p: Observation, w: Verdict)
    requires o.Listed? && o.members == a + [learner] + b && learner.isLearner
    requires p == AnyObservation.Listed(o.responder, a + b)
    requires Judges(endpoints, o, v) && Judges(endpoints, p, w)
    ensures v == if w == NoMembers then NoVoters else w
  {
    LearnerIsNotKept(Voter, a, learner, b);
    LearnerIsNotKept(HealthyVoter, a, learner, b);
    assert forall m :: m in a + [learner] + b <==> m in a + b || m == learner;
    assert HasQuorum(o.responder, o.members) <==> HasQuorum(o.responder, a + b);
  }

  lemma LearnerIsNotKept(w: Want, a: seq<Member>, learner: Member, b: seq<Member>)
    requires !w.Of(learner)
    ensures Keep(w, a + [learner] + b) == Keep(w, a + b)
  {
    KeepConcat(w, a + [learner], b);
    KeepConcat(w, a, b);
    assert (a + [learner])[..|a|] == a;
  }

  /* ----- two accepted checks overlap ----- */

  ghost function Ids(ms: seq<Member>): set<nat> {
    set m | m in ms :: m.id
  }

  ghost predicate DistinctIds(ms: seq<Member>) {
    forall i, j :: 0 <= i < j < |ms| ==> ms[i].id != ms[j].id
  }

  lemma {:induction false} IdsCountMembers(ms: seq<Member>)
    requires DistinctIds(ms)
    ensures |Ids(ms)| == |ms|
    decreases |ms|
  {
    if ms == [] {
      assert Ids(ms) == {};
    } else {
      var n := |ms| - 1;
      IdsCountMembers(ms[..n]);
      assert ms == ms[..n] + [ms[n]];
      assert Ids(ms) == Ids(ms[..n]) + {ms[n].id};
      assert ms[n].id !in Ids(ms[..n]);
    }
  }

  lemma {:induction false} KeepDistinct(w: Want, ms: seq<Member>)
    requires DistinctIds(ms)
    ensures DistinctIds(Keep(w, ms))
    decreases |ms|
  {
    if ms != [] {
      var n := |ms| - 1;
      KeepDistinct(w, ms[..n]);
      KeepMembers(w, ms[..n]);
      var front := Keep(w, ms[..n]);
      forall i | 0 <= i < |front| ensures front[i].id != ms[n].id {
        assert front[i] in ms[..n];
      }
    }
  }

  lemma HealthySubset(ms: seq<Member>)
    requires DistinctIds(ms)
    ensures |Ids(HealthyVoters(ms))| == |HealthyVoters(ms)|
    ensures |Ids(Voters(ms))| == |Voters(ms)|
    ensures Ids(HealthyVoters(ms)) <= Ids(Voters(ms))
  {
    KeepDistinct(Voter, ms);
    KeepDistinct(HealthyVoter, ms);
    IdsCountMembers(Voters(ms));
    IdsCountMembers(HealthyVoters(ms));
    KeepMembers(Voter, ms);
    KeepMembers(HealthyVoter, ms);
  }

  /** Two accepted checks of one voting membership share a voter that answered both. */
  lemma AcceptedChecksShareAVoter(r: nat, ms: seq<Member>, r': nat, ms': seq<Member>) returns (id: nat)
    requires DistinctIds(ms) && DistinctIds(ms')
    requires Ids(Voters(ms)) == Ids(Voters(ms'))
    requires HasQuorum(r, ms) && HasQuorum(r', ms')
    ensures exists m, m' :: m in ms && m' in ms' && m.id == m'.id == id && Reachable(m) && Reachable(m')
  {
    var a, b := HealthyVoters(ms), HealthyVoters(ms');
    HealthySubset(ms);
    HealthySubset(ms');
    SubsetSize(Ids(a) + Ids(b), Ids(Voters(ms)));
    assert |Ids(a) * Ids(b)| > 0;
    id :| id in Ids(a) * Ids(b);
    var m :| m in a && m.id == id;
    var m' :| m' in b && m'.id == id;
    KeepMembers(HealthyVoter, ms);
    KeepMembers(HealthyVoter, ms');
  }

  lemma SubsetSize<T>(a: set<T>, b: set<T>)
    requires a <= b
    ensures |a| <= |b|
  {
    assert b == a + (b - a);
  }
}
