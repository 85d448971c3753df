/** A versioned ConfigMap on the API server, and the read-modify-write
    procedures the metadata manager runs against it. Both metadata ConfigMaps
    are instances; R is the type of the stored record. */
module ConfigMaps {
  datatype ConfigMap<R> = Absent | Present(data: map<string, R>, version: nat)

  datatype Call<R> =
    | Get
    | Create(data: map<string, R>)
    | Update(data: map<string, R>, version: nat)

  datatype Fault = NotFound | AlreadyExists | Conflict | Other

  datatype Reply<R> =
    | Object(data: map<string, R>, version: nat)
    | Written
    | Error(fault: Fault)

  /** The key-value map a reader sees; an absent ConfigMap holds no keys. */
  function Contents<R>(cm: ConfigMap<R>): map<string, R> {
    if cm.Absent? then map[] else cm.data
  }

  /** How many writes the ConfigMap has taken; versions are only compared for equality. */
  function Version<R>(cm: ConfigMap<R>): nat {
    if cm.Absent? then 0 else cm.version
  }

  /** What the API server does with a call that it processes. */
  function Serve<R>(cm: ConfigMap<R>, c: Call<R>): (ConfigMap<R>, Reply<R>) {
    match (c, cm)
    case (Get, Absent) => (cm, Error(NotFound))
    case (Get, Present(data, version)) => (cm, Object(data, version))
    case (Create(data), Absent) => (Present(data, 1), Written)
    case (Create(_), Present(_, _)) => (cm, Error(AlreadyExists))
    case (Update(_, _), Absent) => (cm, Error(NotFound))
    case (Update(data, seen), Present(_, version)) =>
      if seen == version then (Present(data, version + 1), Written) else (cm, Error(Conflict))
  }

  /** One API call: processed, or failed without effect. */
  ghost predicate Exec<R>(cm: ConfigMap<R>, c: Call<R>, r: Reply<R>, cm': ConfigMap<R>) {
    (cm', r) == Serve(cm, c) || (cm' == cm && r == Error(Other))
  }

  /* ----- the manager's procedures, one API call at a time ----- */

  datatype Request<R> = Store(key: string, record: R) | Drop(key: string) | Find(key: string)

  datatype Stage<R> =
    | Getting
    | Creating
    | Updating(data: map<string, R>, version: nat)
    | Ended(outcome: Outcome<R>)

  /** Wrote: a write was acknowledged. Unchanged: a Drop returned without one.
      Failed: the error return. Found and Missing: the two returns of a Find. */
  datatype Outcome<R> = Wrote | Unchanged | Failed | Found(record: R) | Missing

  datatype Proc<R> = Proc(req: Request<R>, stage: Stage<R>)

  function Begin<R>(req: Request<R>): Proc<R> {
    Proc(req, Getting)
  }

  /** The data map as the procedure edits it before writing it back. */
  function Edit<R>(req: Request<R>, data: map<string, R>): map<string, R> {
    match req
    case Store(key, record) => data[key := record]
    case Drop(key) => data - {key}
    case Find(_) => data
  }

  /** An ended procedure issues no call; the last case is never used. */
  function NextCall<R>(p: Proc<R>): Call<R> {
    match p.stage
    case Getting => Get
    case Creating => Create(Edit(p.req, map[]))
    case Updating(data, version) => Update(Edit(p.req, data), version)
    case Ended(_) => Get
  }

  function Advance<R>(p: Proc<R>, r: Reply<R>): Proc<R> {
    match p.stage
    case Getting => Proc(p.req, AfterGet(p.req, r))
    case Ended(_) => p
    case _ => Proc(p.req, Ended(if r.Written? then Wrote else Failed))
  }

  function AfterGet<R>(req: Request<R>, r: Reply<R>): Stage<R> {
    match req
    case Store(_, _) =>
      if r.Object? then Updating(r.data, r.version) else Creating
    case Drop(key) =>
      if r.Object? && key in r.data then Updating(r.data, r.version) else Ended(Unchanged)
    case Find(key) =>
      Ended(if r.Object? && key in r.data then Found(r.data[key]) else Missing)
  }

  /** Only a Store reaches Creating, and a Find writes nothing. */
  predicate WellFormed<R>(p: Proc<R>) {
    && (p.stage.Creating? ==> p.req.Store?)
    && (p.stage.Updating? ==> !p.req.Find? && (p.req.Drop? ==> p.req.key in p.stage.data))
  }

  /** What a waiting Update has read is either stale or the current contents. */
  ghost predicate Faithful<R>(p: Proc<R>, cm: ConfigMap<R>) {
    p.stage.Updating? ==>
      && cm.Present? && p.stage.version <= cm.version
      && (p.stage.version == cm.version ==> p.stage.data == cm.data)
  }

  /** The whole effect of one step: an acknowledged write applies the
      procedure's own edit to the contents of that very moment, and nothing
      else ever changes the ConfigMap. */
  lemma StepIsAtomic<R>(p: Proc<R>, cm: ConfigMap<R>, r: Reply<R>, cm': ConfigMap<R>)
    requires !p.stage.Ended? && WellFormed(p) && Faithful(p, cm)
    requires Exec(cm, NextCall(p), r, cm')
    ensures var p' := Advance(p, r);
      && WellFormed(p') && Faithful(p', cm') && p'.req == p.req
      && (p'.stage == Ended(Wrote) ==>
            && Contents(cm') == Edit(p.req, Contents(cm))
            && cm'.Present? && Version(cm') == Version(cm) + 1
            && (p.req.Drop? ==> p.req.key in Contents(cm))
            && !p.req.Find?)
      && (p'.stage != Ended(Wrote) ==> cm' == cm)
      && (forall v :: p'.stage == Ended(Found(v)) ==>
            p.req.key in Contents(cm) && Contents(cm)[p.req.key] == v)
  {
  }

  lemma OthersStayFaithful<R>(q: Proc<R>, cm: ConfigMap<R>, c: Call<R>, r: Reply<R>, cm': ConfigMap<R>)
    requires Faithful(q, cm) && Exec(cm, c, r, cm')
    ensures Faithful(q, cm')
  {
  }

  /** A Drop that returns without error yet leaves its key in place is one whose
      Get failed on a ConfigMap that holds the key; every other Drop that
      returns without error leaves the key gone. */
  lemma DropMissesExactlyWhenGetFails<R>(p: Proc<R>, cm: ConfigMap<R>, r: Reply<R>, cm': ConfigMap<R>)
    requires !p.stage.Ended? && WellFormed(p) && Faithful(p, cm) && p.req.Drop?
    requires Exec(cm, NextCall(p), r, cm')
    ensures var p' := Advance(p, r);
      p'.stage in {Ended(Wrote), Ended(Unchanged)} ==>
        (p.req.key in Contents(cm') <==> p.stage.Getting? && p.req.key in Contents(cm) && r == Error(Other))
  {
  }

  /* ----- one procedure on its own ----- */

  /** Nobody has written since the procedure last looked. */
  ghost predicate InSync<R>(p: Proc<R>, cm: ConfigMap<R>) {
    match p.stage
    case Creating => cm.Absent?
    case Updating(data, version) => cm == Present(data, version)
    case _ => true
  }

  /** Alone and with every call processed, a Store or Drop stays in sync and
      ends with exactly its edit made. */
  lemma AloneItSucceeds<R>(p: Proc<R>, cm: ConfigMap<R>)
    requires WellFormed(p) && InSync(p, cm) && !p.stage.Ended? && !p.req.Find?
    ensures var (cm', r) := Serve(cm, NextCall(p));
      var p' := Advance(p, r);
      && InSync(p', cm')
      && (p'.stage.Ended? ==> p'.stage.outcome != Failed && Contents(cm') == Edit(p.req, Contents(cm)))
      && (!p'.stage.Ended? ==> cm' == cm)
  {
  }

  /* ----- any number of procedures on one ConfigMap ----- */

  /** A write that was acknowledged: who issued it, over which version, for which request. */
  datatype Commit<R> = Commit(writer: nat, base: nat, req: Request<R>)

  datatype Shared<R> = Shared(cm: ConfigMap<R>, procs: map<nat, Proc<R>>, commits: seq<Commit<R>>)

  ghost predicate Init<R>(s: Shared<R>) {
    s.procs == map[] && s.commits == []
  }

  ghost predicate Arrives<R(!new)>(s: Shared<R>, s': Shared<R>, id: nat, req: Request<R>) {
    id !in s.procs && s' == s.(procs := s.procs[id := Begin(req)])
  }

  ghost predicate Steps<R(!new)>(s: Shared<R>, s': Shared<R>, id: nat, r: Reply<R>) {
    && id in s.procs && !s.procs[id].stage.Ended?
    && var p := s.procs[id];
    && Exec(s.cm, NextCall(p), r, s'.cm)
    && s'.procs == s.procs[id := Advance(p, r)]
    && s'.commits == s.commits + if r.Written? then [Commit(id, Version(s.cm), p.req)] else []
  }

  ghost predicate Next<R(!new)>(s: Shared<R>, s': Shared<R>) {
    || (exists id, req :: Arrives(s, s', id, req))
    || (exists id, r :: Steps(s, s', id, r))
  }

  ghost predicate IsRun<R(!new)>(run: seq<Shared<R>>) {
    && run != [] && Init(run[0])
    && forall i :: 0 <= i < |run| - 1 ==> Next(run[i], run[i + 1])
  }

  /** The map that the commits produce when applied one at a time, in order. */
  ghost function Replay<R>(m: map<string, R>, commits: seq<Commit<R>>): map<string, R> {
    if commits == [] then m
    else Edit(commits[|commits| - 1].req, Replay(m, commits[..|commits| - 1]))
  }

  ghost function CommitsBy<R>(commits: seq<Commit<R>>, id: nat): nat {
    if commits == [] then 0
    else CommitsBy(commits[..|commits| - 1], id) + if commits[|commits| - 1].writer == id then 1 else 0
  }

  /** The ConfigMap is an atomic map: its contents are what the acknowledged
      writes produce in commit order, each procedure that reports a write
      committed its own request exactly once, no other procedure committed at
      all, and no two commits were made over the same version. */
  ghost predicate Atomic<R(!new)>(start: ConfigMap<R>, s: Shared<R>) {
    && Contents(s.cm) == Replay(Contents(start), s.commits)
    && Version(s.cm) == Version(start) + |s.commits|
    && (forall k :: 0 <= k < |s.commits| ==> s.commits[k].base == Version(start) + k)
    && (forall k :: 0 <= k < |s.commits| ==>
          && s.commits[k].writer in s.procs
          && s.procs[s.commits[k].writer] == Proc(s.commits[k].req, Ended(Wrote)))
    && (forall id <- s.procs :: CommitsBy(s.commits, id) == if s.procs[id].stage == Ended(Wrote) then 1 else 0)
  }

  ghost predicate Sound<R(!new)>(s: Shared<R>) {
    forall id <- s.procs :: WellFormed(s.procs[id]) && Faithful(s.procs[id], s.cm)
  }

  lemma {:induction false} NoCommitsBy<R>(commits: seq<Commit<R>>, id: nat)
    requires forall k :: 0 <= k < |commits| ==> commits[k].writer != id
    ensures CommitsBy(commits, id) == 0
    decreases |commits|
  {
    if commits != [] {
      NoCommitsBy(commits[..|commits| - 1], id);
    }
  }

  lemma ArrivalKeepsAtomic<R(!new)>(start: ConfigMap<R>, s: Shared<R>, s': Shared<R>, id: nat, req: Request<R>)
    requires Sound(s) && Atomic(start, s) && Arrives(s, s', id, req)
    ensures Sound(s') && Atomic(start, s')
  {
    NoCommitsBy(s.commits, id);
  }

  lemma StepKeepsSound<R(!new)>(s: Shared<R>, s': Shared<R>, id: nat, r: Reply<R>)
    requires Sound(s) && Steps(s, s', id, r)
    ensures Sound(s')
    ensures r.Written? <==> s'.procs[id].stage == Ended(Wrote)
    ensures s'.procs[id].req == s.procs[id].req
    ensures Contents(s'.cm) == if r.Written? then Edit(s.procs[id].req, Contents(s.cm)) else Contents(s.cm)
    ensures Version(s'.cm) == Version(s.cm) + if r.Written? then 1 else 0
  {
    var p := s.procs[id];
    assert WellFormed(p) && Faithful(p, s.cm);
    StepIsAtomic(p, s.cm, r, s'.cm);
    forall j | j in s'.procs && j != id ensures WellFormed(s'.procs[j]) && Faithful(s'.procs[j], s'.cm) {
      assert WellFormed(s.procs[j]) && Faithful(s.procs[j], s.cm);
      OthersStayFaithful(s.procs[j], s.cm, NextCall(p), r, s'.cm);
    }
  }

  lemma StepKeepsAtomic<R(!new)>(start: ConfigMap<R>, s: Shared<R>, s': Shared<R>, id: nat, r: Reply<R>)
    requires Sound(s) && Atomic(start, s) && Steps(s, s', id, r)
    ensures Sound(s') && Atomic(start, s')
  {
    StepKeepsSound(s, s', id, r);
    if r.Written? {
      var c := Commit(id, Version(s.cm), s.procs[id].req);
      assert s'.commits == s.commits + [c];
      AppendCommit(Contents(start), s.commits, c);
    } else {
      assert s'.commits == s.commits;
    }
  }

  lemma AppendCommit<R(!new)>(m: map<string, R>, commits: seq<Commit<R>>, c: Commit<R>)
    ensures Replay(m, commits + [c]) == Edit(c.req, Replay(m, commits))
    ensures forall id :: CommitsBy(commits + [c], id) == CommitsBy(commits, id) + if c.writer == id then 1 else 0
  {
    assert (commits + [c])[..|commits|] == commits;
  }

  lemma PrefixIsRun<R(!new)>(run: seq<Shared<R>>, n: nat)
    requires IsRun(run) && 0 < n <= |run|
    ensures IsRun(run[..n])
  {
    forall i | 0 <= i < n - 1 ensures Next(run[..n][i], run[..n][i + 1]) {
      assert Next(run[i], run[i + 1]);
    }
  }

  lemma {:induction false} RunIsAtomic<R(!new)>(run: seq<Shared<R>>)
    requires IsRun(run)
    ensures Sound(run[|run| - 1]) && Atomic(run[0].cm, run[|run| - 1])
    decreases |run|
  {
    var n := |run| - 1;
    if n > 0 {
      PrefixIsRun(run, n);
      RunIsAtomic(run[..n]);
      var s, s' := run[n - 1], run[n];
      assert Next(run[n - 1], run[n - 1 + 1]);
      if id, req :| Arrives(s, s', id, req) {
        ArrivalKeepsAtomic(run[0].cm, s, s', id, req);
      } else {
        var id, r :| Steps(s, s', id, r);
        StepKeepsAtomic(run[0].cm, s, s', id, r);
      }
    }
  }

  /** A Store whose Get failed although the ConfigMap existed never writes:
      from that moment on it can only fail. */
  ghost predicate Doomed<R(!new)>(s: Shared<R>, id: nat) {
    && s.cm.Present? && id in s.procs
    && (s.procs[id].stage.Creating? || s.procs[id].stage == Ended(Failed))
  }

  lemma DoomedStaysDoomed<R(!new)>(s: Shared<R>, s': Shared<R>, id: nat)
    requires Doomed(s, id) && Next(s, s')
    ensures Doomed(s', id)
  {
  }

  lemma {:induction false} DoomedAllAlong<R(!new)>(run: seq<Shared<R>>, id: nat, i: nat, j: nat)
    requires IsRun(run) && i <= j < |run| && Doomed(run[i], id)
    ensures Doomed(run[j], id)
    decreases j - i
  {
    if i < j {
      assert Next(run[i], run[i + 1]);
      DoomedStaysDoomed(run[i], run[i + 1], id);
      DoomedAllAlong(run, id, i + 1, j);
    }
  }

  lemma FailedGetNeverOverwrites<R(!new)>(run: seq<Shared<R>>, id: nat, i: nat, j: nat)
    requires IsRun(run) && i <= j < |run| && Doomed(run[i], id)
    ensures Doomed(run[j], id) && CommitsBy(run[j].commits, id) == 0
  {
    DoomedAllAlong(run, id, i, j);
    PrefixIsRun(run, j + 1);
    RunIsAtomic(run[..j + 1]);
  }
}
