/** The driver's connection to everything outside its process. */
module Clients {
  import opened Api
  import opened Machine

  /** The period of the executor's ticker, in nanoseconds. */
  const PERIOD: nat := 5_000_000_000

  /** env answers the n-th call; nothing is assumed of it, so it covers faults
      and every interleaving with other clients. The ghost state is the RPC
      program being executed: a call can only be issued when it is the one that
      program issues next. */
  class Client {
    const env: (nat, Call) -> Reply
    /** How long after the deadline a select may still take a tick. */
    const grace: nat
    var issued: nat
    ghost var at: Rpc

    constructor (env: (nat, Call) -> Reply, grace: nat, ghost program: Rpc)
      ensures this.env == env && this.grace == grace && issued == 0 && at == program
    {
      this.env, this.grace, this.issued, this.at := env, grace, 0, program;
    }

    method Do(c: Call) returns (r: Reply)
      requires !Ended(at) && NextCall(at) == c
      modifies this
      ensures r == env(old(issued), c) && issued == old(issued) + 1
      ensures at == Advance(old(at), r)
    {
      r := env(issued, c);
      issued := issued + 1;
      at := Advance(at, r);
    }

    /** A select between the ticker and the deadline, after ticks earlier ticks:
        the next tick is never due before ticks + 1 periods have passed. */
    method Select(ticks: nat, timeout: nat) returns (tick: bool)
      requires !Ended(at) && NextCall(at) == Await
      modifies this
      ensures issued == old(issued) + 1
      ensures at == Advance(old(at), if tick then Tick else Deadline)
      ensures tick <==> old(env(issued, Await)).Tick? && PERIOD * (ticks + 1) <= timeout + grace
    {
      tick := env(issued, Await).Tick? && PERIOD * (ticks + 1) <= timeout + grace;
      issued := issued + 1;
      at := Advance(at, if tick then Tick else Deadline);
    }
  }
}
