/** `runExecutor` in its own form: the lock set around one inner run. */
module Server {
  import opened Prelude
  import opened Ledger
  import opened Keeper
  import C = Crank
  import E = Executor

  class ExecutorProcess {
    /** The vaults being cranked by this process. */
    var inFlight: set<Pubkey>

    constructor ()
      ensures inFlight == {}
    {
      inFlight := {};
    }

    method RunInner(e: C.Env, s: State, due: bool) returns (answer: E.Answered)
      requires C.Good(e, C.Start(s))
      ensures answer == E.Answer(E.RunInner(e, C.Start(s), due))
    {
      hide C.Phases, LandAll;
      var pass := new KeeperPass(e, s);
      var x := pass.Read();
      if x.Threw? { return Thrown(x.why); }
      x := pass.Read();
      if x.Threw? { return Thrown(x.why); }
      if pass.ledger.executed { return E.Acted(E.AlreadyExecuted); }
      x := pass.Read();
      if x.Threw? { return Thrown(x.why); }
      if !due { return E.Acted(E.NotDue); }
      x := pass.Phases();
      if x.Threw? { return Thrown(x.why); }
      x := pass.Read();
      if x.Threw? { return Thrown(x.why); }
      answer := E.Acted(if pass.ledger.executed then E.ExecutedNow else E.Cranked);
    }

    function Thrown(why: C.Exit): E.Answered {
      if why == C.Halted then E.AbortedReadinessRevoked else E.Rethrown(why.fault)
    }

    /** First caller wins; whatever the inner run does, the lock is as before when the call answers. */
    method RunExecutor(vault: Pubkey, e: C.Env, s: State, due: bool) returns (answer: E.Answered)
      requires C.Good(e, C.Start(s))
      modifies this
      ensures inFlight == old(inFlight)
      ensures vault in old(inFlight) ==> answer == E.Busy
      ensures vault !in old(inFlight) ==> answer == E.Answer(E.RunInner(e, C.Start(s), due))
    {
      if vault in inFlight {
        return E.Busy;
      }
      inFlight := inFlight + {vault};
      answer := RunInner(e, s, due);
      inFlight := inFlight - {vault};
    }
  }
}
