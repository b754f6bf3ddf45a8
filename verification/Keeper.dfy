/**
 * The keeper's pass in its own form: an object whose variables the loops and catch blocks update.
 * Every method is proved to end in the state that the function of the same name computes.
 */
module Keeper {
  import opened Prelude
  import opened Bits
  import opened Mints
  import opened Ledger
  import L = Ledger
  import C = Crank

  /** How a method returns: normally or with an exception, which `:-` passes on. */
  datatype Outcome = Done | Threw(why: C.Exit) {
    predicate IsFailure() { Threw? }
    function PropagateFailure(): Outcome { this }
  }

  class KeeperPass {
    const e: C.Env
    var ledger: State
    var clock: nat
    var guards: nat
    var trace: seq<C.Event>
    var stuck: set<Pubkey>
    var skipped: seq<C.Skip>
    var planMask: nat
    var solMask: nat
    var completed: bool
    var info: seq<Held>
    var mints: seq<MintInfo>
    var executed: bool
    var block: C.Block
    var calls: seq<C.Call>

    ghost function Now(): C.Pass
      reads this
    {
      C.Pass(ledger, clock, guards, trace, stuck, skipped, planMask, solMask, completed, info, mints, executed, block, calls)
    }

    ghost predicate Valid()
      reads this
    {
      C.Good(e, Now())
    }

    ghost function Result(x: Outcome): C.Flow
      reads this
    {
      if x.Done? then C.Next(Now()) else C.Stop(Now(), x.why)
    }

    constructor (e: C.Env, s: State)
      requires C.Good(e, C.Start(s))
      ensures this.e == e && Now() == C.Start(s)
    {
      this.e := e;
      ledger, clock, guards, trace := s, 0, 0, [];
      stuck, skipped, planMask, solMask, completed := {}, [], 0, 0, false;
      info, mints, executed := [], [], false;
      block, calls := C.Outside, [];
    }

    // ---- awaits ----

    /** Others act while this pass waits. */
    method Await() returns (tick: C.Tick)
      requires Valid()
      modifies this
      ensures tick == e.tick(old(clock)) && Now() == C.Await(e, old(Now()))
    {
      hide WellFormed, Land;
      tick := e.tick(clock);
      var i := 0;
      while i < |tick.others|
        invariant i <= |tick.others| && Valid()
        invariant Now() == old(Now()).(ledger := ledger)
        invariant LandAll(e.v, old(ledger), tick.others) == LandAll(e.v, ledger, tick.others[i..])
      {
        ledger := Land(e.v, ledger, tick.others[i]);
        i := i + 1;
      }
      clock := clock + 1;
    }

    /** What is on record of a call; of the source's variables it touches none. */
    method Record(at: nat, failure: Option<C.Fault>)
      modifies this`calls
      ensures Now() == C.Record(old(Now()), at, failure)
    {
      calls := calls + [C.Call(block, at, failure)];
    }

    method Read() returns (x: Outcome)
      requires Valid()
      modifies this
      ensures Result(x) == C.Read(e, old(Now()))
    {
      var tick := Await();
      Record(clock - 1, C.Failure(tick.fault));
      x := if tick.fault == C.Fine then Done else Threw(C.Raised(tick.fault));
    }

    method Guard() returns (x: Outcome)
      requires Valid()
      modifies this
      ensures Result(x) == C.Guard(e, old(Now()))
    {
      var answer := e.canSubmit(guards);
      if e.asyncGuard {
        var _ := Await();
      }
      guards := guards + 1;
      x := if answer == C.Yes then Done else Threw(C.Halted);
    }

    method Submit(ix: Ix) returns (x: Outcome)
      requires Valid()
      modifies this
      ensures Result(x) == C.Submit(e, old(Now()), ix)
    {
      hide WellFormed, Enabled, Effect, LandAll;
      x := Done;
      :- Guard();
      trace := trace + [C.Submitted(ix, ledger, stuck)];
      var tick := Await();
      var accepted := Enabled(e.v, ledger, ix);
      if accepted && (tick.fault == C.Fine || tick.lands) {
        ledger := Effect(e.v, ledger, ix);
      }
      x := if tick.fault != C.Fine then Threw(C.Raised(tick.fault))
           else if accepted then Done
           else Threw(C.Raised(C.Rejection(ledger, ix)));
      Record(clock - 1, if x.Done? then None else Some(x.why.fault));
    }

    method EnsureAta(ata: Ata) returns (x: Outcome)
      requires Valid()
      modifies this
      ensures Result(x) == C.EnsureAta(e, old(Now()), ata)
    {
      x := Done;
      :- Read();
      if Exists(e.v, ledger, ata) {
        return Done;
      }
      x := Submit(CreateAta(ata));
    }

    method EnsureFor(ata: Ata) returns (x: Outcome)
      requires Valid()
      modifies this
      ensures Result(x) == C.EnsureFor(e, old(Now()), ata)
    {
      if ata.wallet in e.v.offCurve {
        Record(clock, Some(C.Fatal));
        return Threw(C.Raised(C.Fatal));
      }
      x := EnsureAta(ata);
    }

    /** The catch block around the token steps. */
    method Caught(thrown: Outcome, mint: Pubkey, step: string) returns (x: Outcome)
      requires Valid()
      modifies this
      ensures Result(x) == C.Catch(old(Result(thrown)), mint, step)
    {
      if thrown.Threw? && (!thrown.why.Raised? || !C.IsOperational(thrown.why.fault)) {
        return thrown;
      }
      block := C.Outside;
      if thrown.Done? {
        return thrown;
      }
      stuck := stuck + {mint};
      skipped := skipped + [C.Skip(mint, step)];
      x := Done;
    }

    // ---- 1. begin_execution ----

    method BeginLog() returns (x: Outcome)
      requires Valid()
      modifies this
      ensures Result(x) == C.BeginLog(e, old(Now()))
    {
      x := Done;
      :- Read();
      if ledger.log.None? {
        :- Submit(BeginExecution);
        :- Read();
      }
      x := Done;
    }

    method ReadPlan() returns (x: Outcome)
      requires Valid()
      modifies this
      ensures Result(x) == C.ReadPlan(e, old(Now()))
    {
      if e.v.plan.Some? {
        :- Read();
        planMask := Mask(ledger.planPaid);
      }
      x := Done;
    }

    // ---- collectMints ----

    method ScanProgram(program: Pubkey) returns (x: Outcome)
      requires Valid()
      modifies this
      ensures Result(x) == C.ScanProgram(e, old(Now()), program)
    {
      x := Done;
      :- Read();
      var accounts := OfProgram(Accounts(e.v, ledger), program);
      ghost var before := Now();
      var i := 0;
      while i < |accounts|
        invariant i <= |accounts|
        invariant Now() == before.(info := info)
        invariant AddAccounts(before.info, accounts, program) == AddAccounts(info, accounts[i..], program)
      {
        info := AddAccount(info, accounts[i], program);
        i := i + 1;
      }
      x := Done;
    }

    method LookUp(mint: Pubkey) returns (x: Outcome)
      requires Valid()
      modifies this
      ensures Result(x) == C.LookUp(e, old(Now()), mint)
    {
      var tick := Await();
      var throws := tick.fault == C.Fatal || (tick.fault != C.Fine && !tick.lands);
      Record(clock - 1, if throws then Some(tick.fault) else None);
      if throws {
        return Threw(C.Raised(tick.fault));
      }
      if tick.fault == C.Fine && mint in e.v.programOf {
        info := info + [Held(mint, e.v.programOf[mint], 0, true)];
      }
      x := Done;
    }

    method PlanMints() returns (x: Outcome)
      requires Valid()
      modifies this
      ensures Result(x) == C.PlanMints(e, old(Now()), 0)
    {
      var j := 0;
      while j < |e.v.Assignments()|
        invariant j <= |e.v.Assignments()| && Valid()
        invariant C.PlanMints(e, old(Now()), 0) == C.PlanMints(e, Now(), j)
      {
        var mint := e.v.Assignments()[j].mint;
        if mint != DEFAULT_KEY {
          if Has(info, mint) {
            info := MarkPlanned(info, mint);
          } else {
            :- LookUp(mint);
          }
        }
        j := j + 1;
      }
      x := Done;
    }

    method CollectMints() returns (x: Outcome)
      requires Valid()
      modifies this
      ensures Result(x) == C.CollectMints(e, old(Now()))
    {
      hide C.ScanProgram, C.PlanMints, LandAll, Enabled, Effect;
      info := [];
      :- ScanProgram(TOKEN_PROGRAM);
      :- ScanProgram(TOKEN_2022_PROGRAM);
      :- PlanMints();
      mints := Infos(Choose(info));
      x := Done;
    }

    // ---- 2. begin_token_dist per mint ----

    method TryBegin(m: MintInfo) returns (x: Outcome)
      requires Valid()
      modifies this
      ensures Result(x) == C.TryBegin(e, old(Now()), m)
    {
      block := C.TokenBlock(m.mint, "begin_token_dist");
      :- EnsureAta(Ata(e.v.key, m.mint, m.program));
      x := Submit(BeginTokenDist(m.mint, m.program));
    }

    method BeginDist(m: MintInfo) returns (x: Outcome)
      requires Valid()
      modifies this
      ensures Result(x) == C.BeginDist(e, old(Now()), m)
    {
      x := Done;
      :- Read();
      if m.mint in ledger.dists {
        return Done;
      }
      x := TryBegin(m);
      x := Caught(x, m.mint, "begin_token_dist");
    }

    method BeginDists() returns (x: Outcome)
      requires Valid()
      modifies this
      ensures Result(x) == C.BeginDists(e, old(Now()), old(mints))
    {
      var list := mints;
      var i := 0;
      while i < |list|
        invariant i <= |list| && Valid()
        invariant C.BeginDists(e, old(Now()), list) == C.BeginDists(e, Now(), list[i..])
      {
        :- BeginDist(list[i]);
        i := i + 1;
      }
      x := Done;
    }

    // ---- 3. specific bequests ----

    method TryBequest(j: nat) returns (x: Outcome)
      requires Valid() && j < |e.v.Assignments()|
      modifies this
      ensures Result(x) == C.TryBequest(e, old(Now()), j)
    {
      var a := e.v.Assignments()[j];
      var program := C.ProgramFor(mints, a.mint);
      block := C.TokenBlock(a.mint, "execute_specific_asset");
      :- EnsureFor(Ata(e.v.Wallet(a.beneficiary), a.mint, program));
      x := Submit(SpecificAsset(j, program));
    }

    method Bequest(j: nat) returns (x: Outcome)
      requires Valid() && j < |e.v.Assignments()|
      modifies this
      ensures Result(x) == C.Bequest(e, old(Now()), j)
    {
      var mint := e.v.Assignments()[j].mint;
      if BitSet(planMask, j) {
        return Done;
      }
      if mint == DEFAULT_KEY {
        block := C.SolBlock;
        x := Submit(SpecificSol(j));
        if x.Threw? && (!x.why.Raised? || !C.IsOperational(x.why.fault)) {
          return;
        }
        block := C.Outside;
        if x.Threw? {
          skipped := skipped + [C.Skip("SOL", "execute_specific_sol")];
          x := Done;
        }
        return;
      }
      if mint in stuck {
        return Done;
      }
      x := TryBequest(j);
      x := Caught(x, mint, "execute_specific_asset");
    }

    method Bequests() returns (x: Outcome)
      requires Valid()
      modifies this
      ensures Result(x) == C.Bequests(e, old(Now()), 0)
    {
      hide C.Bequest, WellFormed;
      var j := 0;
      while j < |e.v.Assignments()|
        invariant j <= |e.v.Assignments()| && Valid()
        invariant C.Bequests(e, old(Now()), 0) == C.Bequests(e, Now(), j)
      {
        :- Bequest(j);
        j := j + 1;
      }
      x := Done;
    }

    // ---- 4. SOL shares ----

    method ReadLog() returns (x: Outcome)
      requires Valid()
      modifies this
      ensures Result(x) == C.ReadLog(e, old(Now()))
    {
      x := Done;
      :- Read();
      if ledger.log.None? {
        Record(clock - 1, Some(C.Operational));
        return Threw(C.Raised(C.Operational));
      }
      solMask, completed := Mask(ledger.log.value.solPaid), ledger.log.value.completed;
      x := Done;
    }

    method PaySol() returns (x: Outcome)
      requires Valid()
      modifies this
      ensures Result(x) == C.PaySol(e, old(Now()))
    {
      x := Done;
      :- ReadLog();
      var parts := C.Chunk(C.Unpaid(solMask, |e.v.beneficiaries|), C.BATCH);
      ghost var before := Now();
      var i := 0;
      while i < |parts|
        invariant i <= |parts| && Valid()
        invariant C.SolBatches(e, before, parts) == C.SolBatches(e, Now(), parts[i..])
      {
        :- Submit(SolShares(parts[i]));
        i := i + 1;
      }
      x := Done;
    }

    // ---- 5. finalize ----

    method FinalizeIfFull() returns (x: Outcome)
      requires Valid()
      modifies this
      ensures Result(x) == C.FinalizeIfFull(e, old(Now()))
    {
      x := Done;
      :- ReadLog();
      :- ReadPlan();
      var solFull := solMask == FullMask(|e.v.beneficiaries|);
      var planFull := e.v.plan.None? || planMask == FullMask(|e.v.Assignments()|);
      if !completed && solFull && planFull && |stuck| == 0 {
        :- Submit(Finalize);
      }
      x := Done;
    }

    // ---- 6. token shares ----

    method EnsureAtas(m: MintInfo, part: seq<nat>) returns (x: Outcome)
      requires Valid() && forall k :: 0 <= k < |part| ==> part[k] < |e.v.beneficiaries|
      modifies this
      ensures Result(x) == C.EnsureAtas(e, old(Now()), m, part)
    {
      var i := 0;
      while i < |part|
        invariant i <= |part| && Valid()
        invariant C.EnsureAtas(e, old(Now()), m, part) == C.EnsureAtas(e, Now(), m, part[i..])
      {
        :- EnsureFor(Ata(e.v.Wallet(part[i]), m.mint, m.program));
        i := i + 1;
      }
      x := Done;
    }

    method TokenBatches(m: MintInfo, parts: seq<seq<nat>>) returns (x: Outcome)
      requires Valid() && C.InRange(parts, |e.v.beneficiaries|)
      modifies this
      ensures Result(x) == C.TokenBatches(e, old(Now()), m, parts)
    {
      var i := 0;
      while i < |parts|
        invariant i <= |parts| && Valid()
        invariant C.TokenBatches(e, old(Now()), m, parts) == C.TokenBatches(e, Now(), m, parts[i..])
      {
        :- EnsureAtas(m, parts[i]);
        :- Submit(TokenShares(m.mint, m.program, parts[i]));
        i := i + 1;
      }
      x := Done;
    }

    method PayToken(m: MintInfo) returns (x: Outcome)
      requires Valid()
      modifies this
      ensures Result(x) == C.PayToken(e, old(Now()), m)
    {
      if m.mint in stuck {
        return Done;
      }
      :- Read();
      if m.mint !in ledger.dists {
        return Done;
      }
      var mask := Mask(ledger.dists[m.mint].paid);
      C.BatchesInRange(mask, |e.v.beneficiaries|);
      block := C.TokenBlock(m.mint, "execute_token_shares");
      x := TokenBatches(m, C.Chunk(C.Unpaid(mask, |e.v.beneficiaries|), C.BATCH));
      x := Caught(x, m.mint, "execute_token_shares");
    }

    method PayTokens() returns (x: Outcome)
      requires Valid()
      modifies this
      ensures Result(x) == C.PayTokens(e, old(Now()), old(mints))
    {
      var list := mints;
      var i := 0;
      while i < |list|
        invariant i <= |list| && Valid()
        invariant C.PayTokens(e, old(Now()), list) == C.PayTokens(e, Now(), list[i..])
      {
        :- PayToken(list[i]);
        i := i + 1;
      }
      x := Done;
    }

    // ---- 7. close ----

    method LargestShareIndex() returns (best: nat)
      requires e.v.beneficiaries != []
      ensures best == L.LargestShareIndex(e.v.beneficiaries)
    {
      var bs := e.v.beneficiaries;
      best := 0;
      var bestBps: int := -1;
      for i := 0 to |bs|
        invariant L.LargestFrom(bs, 0, 0, -1) == L.LargestFrom(bs, i, best, bestBps)
      {
        if bs[i].shareBps > bestBps {
          bestBps, best := bs[i].shareBps, i;
        }
      }
    }

    method TryClose(m: MintInfo) returns (x: Outcome)
      requires Valid()
      modifies this
      ensures Result(x) == C.TryClose(e, old(Now()), m)
    {
      var best := LargestShareIndex();
      var wallet := e.v.Wallet(best);
      block := C.TokenBlock(m.mint, "close_token_dist");
      var tick := Await();
      Record(clock - 1, if tick.fault == C.Fatal then Some(C.Fatal) else None);
      if tick.fault == C.Fatal {
        return Threw(C.Raised(C.Fatal));
      }
      var found := tick.fault == C.Fine && Exists(e.v, ledger, Ata(e.v.key, m.mint, m.program));
      var withheld := found && m.mint in ledger.withheld;
      var dustTo := None;
      if found && OwnOf(ledger, m.mint) > 0 {
        dustTo := Some(wallet);
        :- EnsureFor(Ata(wallet, m.mint, m.program));
      }
      x := Submit(CloseTokenDist(m.mint, m.program, dustTo, withheld));
    }

    method CloseDist(m: MintInfo) returns (x: Outcome)
      requires Valid()
      modifies this
      ensures Result(x) == C.CloseDist(e, old(Now()), m)
    {
      if m.mint in stuck {
        return Done;
      }
      :- Read();
      if m.mint !in ledger.dists || Mask(ledger.dists[m.mint].paid) != FullMask(|e.v.beneficiaries|) {
        return Done;
      }
      x := TryClose(m);
      x := Caught(x, m.mint, "close_token_dist");
    }

    method CloseIfExecuted() returns (x: Outcome)
      requires Valid()
      modifies this
      ensures Result(x) == C.CloseIfExecuted(e, old(Now()))
    {
      x := Done;
      :- Read();
      executed := ledger.executed;
      ghost var before := Now();
      if executed {
        var list := mints;
        var i := 0;
        while i < |list|
          invariant i <= |list| && Valid()
          invariant C.CloseDists(e, before, list) == C.CloseDists(e, Now(), list[i..])
        {
          :- CloseDist(list[i]);
          i := i + 1;
        }
      }
      x := Done;
    }

    // ---- the pass ----

    method Prepare() returns (x: Outcome)
      requires Valid()
      modifies this
      ensures Result(x) == C.Prepare(e, old(Now()))
    {
      x := Done;
      :- BeginLog();
      :- ReadPlan();
      x := CollectMints();
    }

    method Distribute() returns (x: Outcome)
      requires Valid()
      modifies this
      ensures Result(x) == C.Distribute(e, old(Now()))
    {
      x := Done;
      :- PaySol();
      :- FinalizeIfFull();
      :- PayTokens();
      x := CloseIfExecuted();
    }

    /** The state and the exception are those of the function for every script. */
    method CrankVault() returns (x: Outcome)
      requires Valid()
      modifies this
      ensures Result(x) == C.CrankVault(e, old(Now()))
    {
      x := Done;
      :- Read();
      x := Phases();
    }

    method Phases() returns (x: Outcome)
      requires Valid()
      modifies this
      ensures Result(x) == C.Phases(e, old(Now()))
    {
      x := Done;
      :- Prepare();
      :- BeginDists();
      :- Bequests();
      x := Distribute();
    }
  }
}
