/**
 * The server's crank around the same steps: its finalize gate, its early returns, and the in-process
 * lock that keeps two runs off one vault.
 */
module Executor {
  import opened Prelude
  import opened Bits
  import opened Mints
  import opened Ledger
  import opened Crank
  import opened CrankSafety
  import opened CrankFailures
  import opened CrankPayments
  import opened CrankHalt
  import opened Selection
  import opened CrankCompletes
  import opened Completion

  // ---- the finalize gate ----

  predicate ShouldFinalize(completed: bool, solPaidMask: nat, planPaidMask: nat, benCount: nat,
                           hasPlan: bool, assignmentCount: nat, stuckCount: nat) {
    if completed then false
    else if stuckCount > 0 then false
    else
      var solFull := solPaidMask == FullMask(benCount);
      var planFull := !hasPlan || planPaidMask == FullMask(assignmentCount);
      solFull && planFull
  }

  /** The helper that the server exports and the condition that the keeper writes in place agree. */
  lemma GatesAgree(e: Env, p: Pass)
    ensures KeeperGate(e, p) <==>
              ShouldFinalize(p.completed, p.solMask, if e.v.plan.Some? then p.planMask else 0, |e.v.beneficiaries|,
                             e.v.plan.Some?, |e.v.Assignments()|, |p.stuck|)
  {
  }

  /** On masks freshly read from the ledger the gate opens exactly when nothing is left to pay and nothing is stuck. */
  lemma GateOpensWhenDone(log: ExecutionLog, planPaid: seq<bool>, hasPlan: bool, stuck: set<Pubkey>)
    ensures ShouldFinalize(log.completed, Mask(log.solPaid), if hasPlan then Mask(planPaid) else 0, |log.solPaid|,
                           hasPlan, |planPaid|, |stuck|)
            <==> !log.completed && stuck == {} && AllSet(log.solPaid) && (hasPlan ==> AllSet(planPaid))
  {
    MaskIsFull(log.solPaid);
    MaskIsFull(planPaid);
  }

  // ---- runExecutorInner ----

  datatype Action = AlreadyExecuted | NotDue | ExecutedNow | Cranked
  datatype Reply = Returns(pass: Pass, action: Action) | Throws(pass: Pass, why: Exit)

  /** The reads before the steps, then the steps, then the final read of the vault. */
  function RunInner(e: Env, p: Pass, due: bool): (r: Reply)
    requires Good(e, p)
    ensures Good(e, r.pass)
  {
    var fee := Read(e, p);
    if fee.Stop? then Throws(fee.pass, fee.why)
    else
      var cfg := Read(e, fee.pass);
      if cfg.Stop? then Throws(cfg.pass, cfg.why)
      else if cfg.pass.ledger.executed then Returns(cfg.pass, AlreadyExecuted)
      else
        var heartbeat := Read(e, cfg.pass);
        if heartbeat.Stop? then Throws(heartbeat.pass, heartbeat.why)
        else if !due then Returns(heartbeat.pass, NotDue)
        else
          var steps := Phases(e, heartbeat.pass);
          if steps.Stop? then Throws(steps.pass, steps.why)
          else
            var final := Read(e, steps.pass);
            if final.Stop? then Throws(final.pass, final.why)
            else Returns(final.pass, if final.pass.ledger.executed then ExecutedNow else Cranked)
  }

  /** An executed vault, or one that is not due, sees no submission at all. */
  lemma NothingSentWithoutCause(e: Env, s: State, due: bool)
    requires Good(e, Start(s)) && (s.executed || !due)
    ensures RunInner(e, Start(s), due).pass.trace == []
  {
    hide Phases, Enabled, Effect;
    AwaitSteps(e, Start(s));
    var fee := Read(e, Start(s));
    AwaitSteps(e, fee.pass);
  }

  /** The server's submissions obey the same rules as the keeper's, for every script. */
  lemma ServerSubmissionsFit(e: Env, s: State, due: bool)
    requires Good(e, Start(s))
    ensures AllFit(e.v, RunInner(e, Start(s), due).pass.trace)
  {
    hide Phases, Enabled, Effect, Land, WellFormed;
    AwaitSteps(e, Start(s));
    var fee := Read(e, Start(s));
    AwaitSteps(e, fee.pass);
    var cfg := Read(e, fee.pass);
    AwaitSteps(e, cfg.pass);
    var heartbeat := Read(e, cfg.pass);
    PhasesSteps(e, heartbeat.pass);
    AwaitSteps(e, Phases(e, heartbeat.pass).pass);
  }

  /** The ledger at the second read of the run, that of the vault's configuration. */
  function AtConfigRead(e: Env, s: State): State
    requires Good(e, Start(s))
  {
    LandAll(e.v, LandAll(e.v, s, e.tick(0).others), e.tick(1).others)
  }

  /**
   * What an answer means, for every script: `ExecutedNow` and `Cranked` tell whether the vault is executed at the
   * last read, after a run that was due and found it not executed; the other two say why there was no run.
   */
  lemma AnswerTellsExecution(e: Env, s: State, due: bool)
    requires Good(e, Start(s)) && RunInner(e, Start(s), due).Returns?
    ensures var r := RunInner(e, Start(s), due);
            var before := AtConfigRead(e, s).executed;
            && (r.action == AlreadyExecuted <==> before)
            && (r.action == NotDue <==> !before && !due)
            && (r.action == ExecutedNow <==> !before && due && r.pass.ledger.executed)
            && (r.action == Cranked <==> !before && due && !r.pass.ledger.executed)
            && (r.action == AlreadyExecuted ==> r.pass.ledger.executed)
  {
    hide Phases, WellFormed, LandAll;
  }

  /** A reply as the end of a pass. */
  function FlowOf(r: Reply): Flow {
    match r
    case Returns(pass, _) => Next(pass)
    case Throws(pass, why) => Stop(pass, why)
  }

  /**
   * Under every script the server's run meets failures as the keeper's pass does: operational ones of token steps
   * end in the skipped list, any other one is the last call and is thrown, and so is a refusal of the guard.
   */
  lemma ServerFailuresAreAccounted(e: Env, s: State, due: bool)
    requires Good(e, Start(s))
    ensures Ends(e, FlowOf(RunInner(e, Start(s), due)))
  {
    hide Phases, WellFormed, Kept, Read;
    StartIsBetween(e, s);
    ReadTells(e, Start(s));
    var fee := Read(e, Start(s));
    if fee.Next? {
      ReadTells(e, fee.pass);
      var cfg := Read(e, fee.pass);
      if cfg.Next? {
        ReadTells(e, cfg.pass);
        var heartbeat := Read(e, cfg.pass);
        if heartbeat.Next? {
          PhasesEnds(e, heartbeat.pass);
          var steps := Phases(e, heartbeat.pass);
          if steps.Next? {
            ReadTells(e, steps.pass);
          }
        }
      }
    }
  }

  /** And a run that went through has paid everything but what the stuck mints and skipped SOL bequests stand for. */
  lemma ServerPaidTheRest(e: Env, s: State, due: bool)
    requires Good(e, Start(s))
    ensures var r := RunInner(e, Start(s), due);
            r.Returns? && (r.action == ExecutedNow || r.action == Cranked) ==> ElsePaid(e, r.pass)
  {
    hide Phases, WellFormed, ElsePaid, LandAll;
    var fee := Read(e, Start(s));
    var cfg := Read(e, fee.pass);
    var heartbeat := Read(e, cfg.pass);
    var steps := Phases(e, heartbeat.pass);
    PhasesPay(e, heartbeat.pass);
    if steps.Next? {
      ReadKeepsPaid(e, steps.pass);
    }
  }

  lemma ReadKeepsPaid(e: Env, p: Pass)
    requires Good(e, p) && ElsePaid(e, p)
    ensures ElsePaid(e, Read(e, p).pass)
  {
    hide WellFormed, AllSharesPaid, AllGone, Lasts, AllFit, Wilts, LandAll;
    AwaitSteps(e, p);
    AwaitLasts(e, p);
    var q := Read(e, p).pass;
    AllSharesLast(e, p, q, p.mints);
    if p.executed {
      AllGoneLasts(e, p, q, p.mints);
    }
    assert Step(e, p, q);
    SolPaidGrows(e, p, q);
    PlanCoveredGrows(e, p, q);
  }

  /**
   * Without faults or races a due vault is treated as by the keeper: what keeps one mint from being paid costs the
   * others nothing, and the answer is that the vault was executed exactly if no mint is blocked.
   */
  lemma ServerPassPaysTheRest(e: Env, s: State)
    requires Good(e, Start(s)) && Quiet(e) && WalletsServe(e.v, s) && !s.executed
    ensures var r := RunInner(e, Start(s), true);
            && r.Returns? && QuietOutcome(e.v, s, Next(r.pass))
            && (r.action == ExecutedNow <==> forall k :: !Blocked(e.v, s, k))
            && (r.action == Cranked <==> exists k :: Blocked(e.v, s, k))
  {
    hide Phases, WellFormed, QuietOutcome, WalletsServe;
    QuietRead(e, Start(s));
    var fee := Read(e, Start(s)).pass;
    QuietRead(e, fee);
    var cfg := Read(e, fee).pass;
    QuietRead(e, cfg);
    var heartbeat := Read(e, cfg).pass;
    QuietPhases(e, heartbeat);
    var steps := Phases(e, heartbeat);
    OutcomeIsNext(e.v, s, steps);
    QuietRead(e, steps.pass);
    SameOutcome(e.v, s, steps, Read(e, steps.pass));
    ExecutedUnlessBlocked(e.v, s, Read(e, steps.pass));
  }

  lemma ExecutedUnlessBlocked(v: Vault, s: State, r: Flow)
    requires WellFormed(v, s) && QuietOutcome(v, s, r)
    ensures r.pass.ledger.executed <==> s.executed || forall k :: !Blocked(v, s, k)
  {
    hide WellFormed, Collected, Blocked, Aside, Chosen;
  }

  /** So a due vault with a completable ledger is executed by one call, and cleared. */
  lemma ServerPassCompletes(e: Env, s: State)
    requires Good(e, Start(s)) && Quiet(e) && Completable(e.v, s) && WalletsServe(e.v, s) && !s.executed
    ensures var r := RunInner(e, Start(s), true);
            && r.Returns? && r.action == ExecutedNow
            && Complete(e, s, Next(r.pass))
  {
    hide RunInner, WellFormed, Collected, Completable, QuietOutcome, Blocked, WalletsServe;
    ServerPassPaysTheRest(e, s);
    CompletableIsClear(e.v, s);
    ClearIsComplete(e, s, Next(RunInner(e, Start(s), true).pass));
  }

  // ---- runExecutor: the lock ----

  /** How one call of `runExecutor` answers its caller. */
  datatype Answered = Busy | Acted(action: Action) | AbortedReadinessRevoked | Rethrown(fault: Fault)

  /** The mapping of the try and catch around the inner run. */
  function Answer(r: Reply): Answered {
    match r
    case Returns(_, action) => Acted(action)
    case Throws(_, Halted) => AbortedReadinessRevoked
    case Throws(_, Raised(fault)) => Rethrown(fault)
  }

  /**
   * Main result for the server's halt: a guard that fails at call k + 1 yields the first k submissions
   * of the unguarded run and the answer `aborted_readiness_revoked`, or the guard was never asked that often.
   */
  lemma RevocationAborts(e: Env, s: State, due: bool, k: nat)
    requires Good(e, Start(s)) && FailsAt(e, k)
    ensures var full := RunInner(Unguarded(e), Start(s), due);
            var cut := RunInner(e, Start(s), due);
            if full.pass.guards <= k then cut == full
            else Answer(cut) == AbortedReadinessRevoked
                 && k <= |full.pass.trace| && cut.pass.trace == full.pass.trace[..k]
  {
    hide Phases, Enabled, Effect, Land, LandAll, WellFormed;
    var fee := Read(e, Start(s));
    var cfg := Read(e, fee.pass);
    var heartbeat := Read(e, cfg.pass);
    PhasesCut(e, heartbeat.pass, k);
  }

  /** Calls in flight: the lock set and, for each running call, its vault. */
  datatype Calls = Calls(inFlight: set<Pubkey>, running: map<nat, Pubkey>)

  datatype CallStep =
    | Enter(id: nat, vault: Pubkey)
    | Settle(id: nat, reply: Reply)

  /** `has` and `add` happen without an await between them; `finally` runs for every outcome. */
  function StepCall(c: Calls, step: CallStep): Calls {
    match step
    case Enter(id, vault) =>
      if id in c.running || vault in c.inFlight then c
      else Calls(c.inFlight + {vault}, c.running[id := vault])
    case Settle(id, _) =>
      if id in c.running then Calls(c.inFlight - {c.running[id]}, c.running - {id}) else c
  }

  function RunCalls(c: Calls, steps: seq<CallStep>): Calls {
    if steps == [] then c else StepCall(RunCalls(c, steps[..|steps| - 1]), steps[|steps| - 1])
  }

  /** A vault is locked exactly while one call runs on it, and never by two. */
  ghost predicate Exclusive(c: Calls) {
    && c.inFlight == c.running.Values
    && forall a, b :: a in c.running && b in c.running && a != b ==> c.running[a] != c.running[b]
  }

  lemma StepKeepsExclusive(c: Calls, step: CallStep)
    requires Exclusive(c)
    ensures Exclusive(StepCall(c, step))
  {
    var d := StepCall(c, step);
    if step.Enter? && d != c {
      assert d.running[step.id] == step.vault;
      forall v | v in d.inFlight ensures v in d.running.Values {
        if v != step.vault {
          var a :| a in c.running && c.running[a] == v;
          assert d.running[a] == v;
        }
      }
    } else if step.Settle? && step.id in c.running {
      forall v | v in d.inFlight ensures v in d.running.Values {
        var a :| a in c.running && c.running[a] == v;
        assert d.running[a] == v;
      }
    }
  }

  /** In every run of overlapping calls no vault is cranked twice at once, and a settled call leaves no lock behind. */
  lemma {:induction false} OneRunPerVault(steps: seq<CallStep>)
    ensures Exclusive(RunCalls(Calls({}, map[]), steps))
    ensures RunCalls(Calls({}, map[]), steps).running == map[] ==> RunCalls(Calls({}, map[]), steps).inFlight == {}
  {
    if steps != [] {
      OneRunPerVault(steps[..|steps| - 1]);
      StepKeepsExclusive(RunCalls(Calls({}, map[]), steps[..|steps| - 1]), steps[|steps| - 1]);
    }
  }
}
