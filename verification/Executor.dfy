/** Creating a job, or joining one that exists, and polling it to an end. */
module Executors {
  import opened Api
  import opened Machine
  import opened Clients
  import opened Wrappers
  import CM = ConfigMaps

  /** A poll that ends the wait. */
  predicate Decisive(r: Reply) {
    r.JobIs? && (r.succeeded > 0 || r.failed > 0)
  }

  /** The k-th select of a wait whose first call is the n-th takes a tick. */
  ghost predicate TicksAt(env: (nat, Call) -> Reply, n: nat, k: nat, limit: nat) {
    env(n + 2 * k, Await).Tick? && PERIOD * (k + 1) <= limit
  }

  /** The poll after that tick. */
  ghost function PollAt(env: (nat, Call) -> Reply, key: Key, n: nat, k: nat): Reply {
    env(n + 2 * k + 1, PollJob(key))
  }

  /** The verdict of a wait that made this many polls: the first decisive one
      speaks, success before failure, and without one the wait timed out. */
  ghost predicate WaitsFor(env: (nat, Call) -> Reply, key: Key, n: nat, polls: nat, v: Verdict) {
    if exists k: nat :: k < polls && Decisive(PollAt(env, key, n, k)) then
      exists k: nat ::
        && k < polls && Decisive(PollAt(env, key, n, k))
        && (forall j: nat :: j < k ==> !Decisive(PollAt(env, key, n, j)))
        && v == if PollAt(env, key, n, k).succeeded > 0 then Succeeded else Failed
    else v == TimedOut
  }

  /** The wait ticked before each of its first polls, and none of them decided it. */
  ghost predicate Open(env: (nat, Call) -> Reply, key: Key, n: nat, limit: nat, polls: nat) {
    polls == 0 ||
    (Open(env, key, n, limit, polls - 1)
     && TicksAt(env, n, polls - 1, limit) && !Decisive(PollAt(env, key, n, polls - 1)))
  }

  /** All that a wait does: ticks and polls in turn until the first decisive poll,
      which gives the verdict, or the first select that does not tick. */
  ghost predicate Waited(env: (nat, Call) -> Reply, key: Key, n: nat, limit: nat, polls: nat, v: Verdict) {
    match v
    case NotCreated => false
    case TimedOut => Open(env, key, n, limit, polls) && !TicksAt(env, n, polls, limit)
    case _ =>
      && polls > 0 && Open(env, key, n, limit, polls - 1)
      && TicksAt(env, n, polls - 1, limit) && Decisive(PollAt(env, key, n, polls - 1))
      && v == if PollAt(env, key, n, polls - 1).succeeded > 0 then Succeeded else Failed
  }

  lemma {:induction false} OpenIsUndecided(
    env: (nat, Call) -> Reply, key: Key, n: nat, limit: nat, polls: nat, k: nat)
    requires Open(env, key, n, limit, polls) && k < polls
    ensures TicksAt(env, n, k, limit) && !Decisive(PollAt(env, key, n, k))
    decreases polls
  {
    if k < polls - 1 {
      OpenIsUndecided(env, key, n, limit, polls - 1, k);
    }
  }

  /** The verdict is that of the first decisive poll, and a wait makes no more polls
      than fit between its ticks and its deadline. */
  lemma WaitedWaitsFor(env: (nat, Call) -> Reply, key: Key, n: nat, limit: nat, polls: nat, v: Verdict)
    requires Waited(env, key, n, limit, polls, v)
    ensures WaitsFor(env, key, n, polls, v) && PERIOD * polls <= limit
  {
    var open := if v == TimedOut then polls else polls - 1;
    forall k: nat | k < open ensures TicksAt(env, n, k, limit) && !Decisive(PollAt(env, key, n, k)) {
      OpenIsUndecided(env, key, n, limit, open, k);
    }
    assert polls > 0 ==> TicksAt(env, n, polls - 1, limit);
  }

  /** A wait that makes more than k polls ticks before the one after k, and only its
      last poll is decisive. */
  lemma WaitedBeyond(env: (nat, Call) -> Reply, key: Key, n: nat, limit: nat, polls: nat, v: Verdict, k: nat)
    requires Waited(env, key, n, limit, polls, v) && k < polls
    ensures TicksAt(env, n, k, limit)
    ensures Decisive(PollAt(env, key, n, k)) ==> k == polls - 1 && v != TimedOut
  {
    if v == TimedOut {
      OpenIsUndecided(env, key, n, limit, polls, k);
    } else if k < polls - 1 {
      OpenIsUndecided(env, key, n, limit, polls - 1, k);
    }
  }

  lemma NoLongerWait(
    env: (nat, Call) -> Reply, key: Key, n: nat, limit: nat, a: nat, v: Verdict, b: nat, w: Verdict)
    requires Waited(env, key, n, limit, a, v) && Waited(env, key, n, limit, b, w)
    ensures a >= b
  {
    if a < b {
      WaitedBeyond(env, key, n, limit, b, w, if v == TimedOut then a else a - 1);
    }
  }

  /** The outside world determines how long a wait is and how it ends. */
  lemma OneWait(env: (nat, Call) -> Reply, key: Key, n: nat, limit: nat, a: nat, v: Verdict, b: nat, w: Verdict)
    requires Waited(env, key, n, limit, a, v) && Waited(env, key, n, limit, b, w)
    ensures a == b && v == w
  {
    NoLongerWait(env, key, n, limit, a, v, b, w);
    NoLongerWait(env, key, n, limit, b, w, a, v);
    if a > 0 {
      WaitedBeyond(env, key, n, limit, a, v, a - 1);
      WaitedBeyond(env, key, n, limit, b, w, a - 1);
    }
  }

  /** From its n-th call on, the executor created or joined the job and saw it succeed in time. */
  ghost predicate SucceedsWith(
    env: (nat, Call) -> Reply, n: nat, limit: nat, job: JobSpec, versioned: bool, polls: nat)
  {
    && env(n, CreateJob(job, versioned)) in {Reply.Created, Failure(CM.AlreadyExists)}
    && Waited(env, JobKey(job), n + 1, limit, polls, Succeeded)
  }

  ghost predicate JobSucceeds(env: (nat, Call) -> Reply, n: nat, limit: nat, job: JobSpec, versioned: bool) {
    exists polls: nat :: SucceedsWith(env, n, limit, job, versioned, polls)
  }

  lemma OneSuccess(
    env: (nat, Call) -> Reply, n: nat, limit: nat, job: JobSpec, versioned: bool, polls: nat, v: Verdict, seen: nat)
    requires v == NotCreated <==> env(n, CreateJob(job, versioned)) !in {Reply.Created, Failure(CM.AlreadyExists)}
    requires v != NotCreated ==> Waited(env, JobKey(job), n + 1, limit, polls, v)
    ensures SucceedsWith(env, n, limit, job, versioned, seen) <==> v == Succeeded && seen == polls
  {
    if SucceedsWith(env, n, limit, job, versioned, seen) {
      OneWait(env, JobKey(job), n + 1, limit, polls, v, seen, Succeeded);
    }
  }

  lemma VerdictMeans(
    env: (nat, Call) -> Reply, n: nat, limit: nat, job: JobSpec, versioned: bool, polls: nat, v: Verdict)
    requires v == NotCreated <==> env(n, CreateJob(job, versioned)) !in {Reply.Created, Failure(CM.AlreadyExists)}
    requires v != NotCreated ==> Waited(env, JobKey(job), n + 1, limit, polls, v)
    ensures v == Succeeded <==> JobSucceeds(env, n, limit, job, versioned)
    ensures v != NotCreated ==> PERIOD * polls <= limit
  {
    if v != NotCreated {
      WaitedWaitsFor(env, JobKey(job), n + 1, limit, polls, v);
    }
    forall seen: nat ensures SucceedsWith(env, n, limit, job, versioned, seen) <==> v == Succeeded && seen == polls {
      OneSuccess(env, n, limit, job, versioned, polls, v, seen);
    }
    assert v == Succeeded ==> SucceedsWith(env, n, limit, job, versioned, polls);
  }

  ghost predicate Executes(r: Rpc, e: ExecStage) {
    (r.Saving? || r.CleanupRunning?) && r.exec == e
  }

  /** What one turn of the loop adds to a wait that is open after its first ticks: it stays
      open, or it is over. */
  ghost predicate Turned(
    env: (nat, Call) -> Reply, key: Key, n: nat, limit: nat, ticks: nat, v: Option<Verdict>)
  {
    match v
    case None => TicksAt(env, n, ticks, limit) && !Decisive(PollAt(env, key, n, ticks))
    case Some(TimedOut) => !TicksAt(env, n, ticks, limit)
    case Some(verdict) =>
      && TicksAt(env, n, ticks, limit) && Decisive(PollAt(env, key, n, ticks))
      && verdict == if PollAt(env, key, n, ticks).succeeded > 0 then Succeeded else Failed
  }

  lemma TurnDecides(
    env: (nat, Call) -> Reply, key: Key, n: nat, limit: nat, ticks: nat, v: Option<Verdict>)
    requires Open(env, key, n, limit, ticks) && Turned(env, key, n, limit, ticks, v)
    ensures v.None? ==> Open(env, key, n, limit, ticks + 1)
    ensures v.Some? ==> Waited(env, key, n, limit, if v.value == TimedOut then ticks else ticks + 1, v.value)
  {
  }

  class Executor {
    const client: Client

    constructor (client: Client)
      ensures this.client == client
    {
      this.client := client;
    }

    method ExecuteSnapshotJob(job: JobSpec, versioned: bool, timeout: nat)
      returns (v: Verdict, ghost polls: nat)
      requires Executes(client.at, Creating(job, versioned))
      modifies client
      ensures client.at == WithExec(old(client.at), Finished(v))
      ensures v == NotCreated <==>
        old(client.env(client.issued, CreateJob(job, versioned))) !in {Reply.Created, Failure(CM.AlreadyExists)}
      ensures v != NotCreated ==>
        && Waited(client.env, JobKey(job), old(client.issued) + 1, timeout + client.grace, polls, v)
        && PERIOD * polls <= timeout + client.grace
      ensures v == Succeeded <==>
        JobSucceeds(client.env, old(client.issued), timeout + client.grace, job, versioned)
      ensures v in {Succeeded, Failed} ==> client.issued == old(client.issued) + 1 + 2 * polls
    {
      v, polls := NotCreated, 0;
      var joined := CreateOrJoin(job, versioned);
      if joined {
        v, polls := WaitForJobCompletion(job, timeout);
      }
      VerdictMeans(client.env, old(client.issued), timeout + client.grace, job, versioned, polls, v);
    }

    /** A job that is there already is joined. */
    method CreateOrJoin(job: JobSpec, versioned: bool) returns (joined: bool)
      requires Executes(client.at, Creating(job, versioned))
      modifies client
      ensures joined <==>
        old(client.env(client.issued, CreateJob(job, versioned))) in {Reply.Created, Failure(CM.AlreadyExists)}
      ensures client.issued == old(client.issued) + 1
      ensures client.at == WithExec(old(client.at), if joined then Awaiting(job) else Finished(NotCreated))
    {
      var r := client.Do(CreateJob(job, versioned));
      if r != Reply.Created {
        if r != Failure(CM.AlreadyExists) {
          return false;
        }
      }
      return true;
    }

    method WaitForJobCompletion(job: JobSpec, timeout: nat) returns (v: Verdict, ghost polls: nat)
      requires Executes(client.at, Awaiting(job))
      modifies client
      ensures client.at == WithExec(old(client.at), Finished(v))
      ensures Waited(client.env, JobKey(job), old(client.issued), timeout + client.grace, polls, v)
      ensures v in {Succeeded, Failed} ==> client.issued == old(client.issued) + 2 * polls
    {
      ghost var n, limit := client.issued, timeout + client.grace;
      var ticks := 0;
      while true
        invariant client.at == old(client.at)
        invariant client.issued == n + 2 * ticks && PERIOD * ticks <= limit
        invariant Open(client.env, JobKey(job), n, limit, ticks)
        decreases limit - PERIOD * ticks
      {
        var verdict := TickAndPoll(job, ticks, timeout);
        TurnDecides(client.env, JobKey(job), n, limit, ticks, verdict);
        if verdict.Some? {
          return verdict.value, if verdict.value == TimedOut then ticks else ticks + 1;
        }
        ticks := ticks + 1;
      }
    }

    /** One turn of that loop. */
    method TickAndPoll(job: JobSpec, ticks: nat, timeout: nat) returns (v: Option<Verdict>)
      requires Executes(client.at, Awaiting(job)) && client.issued >= 2 * ticks
      modifies client
      ensures v.None? ==> client.at == old(client.at)
      ensures v.Some? ==> client.at == WithExec(old(client.at), Finished(v.value))
      ensures Turned(client.env, JobKey(job), old(client.issued) - 2 * ticks, timeout + client.grace, ticks, v)
      ensures v != Some(TimedOut) ==> client.issued == old(client.issued) + 2
    {
      var tick := client.Select(ticks, timeout);
      if !tick {
        return Some(TimedOut);
      }
      var r := client.Do(PollJob(JobKey(job)));
      if !r.JobIs? {
        return None;
      }
      if r.succeeded > 0 {
        return Some(Succeeded);
      }
      if r.failed > 0 {
        return Some(Failed);
      }
      return None;
    }
  }
}
