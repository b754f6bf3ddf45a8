/** `cleanupExecutedVault`: the post-window close of an executed vault, and the gate in front of it. */
module Cleanup {
  import opened Prelude
  import opened Mints
  import opened Ledger
  import opened Crank
  import opened CrankSafety

  datatype Result = NoExecutionLog | TokenDistsOpen | HeldMintsRemain | WindowOpen | Closed | Thrown(why: Exit)
  datatype Cleaned = Cleaned(pass: Pass, result: Result)

  /** One of the two scans of `vaultHoldsUndistributedTokens`: uncapped, unlike the selection of mints. */
  predicate HoldsTokens(v: Vault, s: State, program: Pubkey) {
    exists i :: 0 <= i < |s.shelf| && AccountOf(v, s, s.shelf[i]).program == program && AccountOf(v, s, s.shelf[i]).amount > 0
  }

  /** The local variables of a new pass over the same ledger. */
  function Fresh(p: Pass): Pass {
    p.(stuck := {}, skipped := [], planMask := 0, solMask := 0, completed := false, info := [], mints := [], executed := false,
       block := Outside, calls := [])
  }

  /** With leftover TokenDists the whole crank runs again, and the vault is read again. */
  function FinishDists(e: Env, p: Pass, openDists: bool): (r: Flow)
    requires Good(e, p)
    ensures Good(e, r.pass)
  {
    if !openDists then Next(p)
    else
      var p :- CrankVault(e, Fresh(p));
      Read(e, p)
  }

  /** The catch block around the close turns the program's refusal within the owner's window into an answer. */
  function CloseAnswer(r: Flow): Result {
    if r.Next? then Closed else if r.why == Raised(TooEarly) then WindowOpen else Thrown(r.why)
  }

  function CloseIfEmpty(e: Env, p: Pass): (r: Cleaned)
    requires Good(e, p)
  {
    var scan := Read(e, p);
    if scan.Stop? then Cleaned(scan.pass, Thrown(scan.why))
    else if HoldsTokens(e.v, scan.pass.ledger, TOKEN_PROGRAM) then Cleaned(scan.pass, HeldMintsRemain)
    else
      var scan2022 := Read(e, scan.pass);
      if scan2022.Stop? then Cleaned(scan2022.pass, Thrown(scan2022.why))
      else if HoldsTokens(e.v, scan2022.pass.ledger, TOKEN_2022_PROGRAM) then Cleaned(scan2022.pass, HeldMintsRemain)
      else
        var close := Submit(e, scan2022.pass, CloseVault);
        Cleaned(close.pass, CloseAnswer(close))
  }

  /** `openDists` is what the scan of all vaults said before this pass. */
  function CleanupVault(e: Env, p: Pass, openDists: bool): (r: Cleaned)
    requires Good(e, p)
  {
    var fee := Read(e, p);
    if fee.Stop? then Cleaned(fee.pass, Thrown(fee.why))
    else
      var log := Read(e, fee.pass);
      if log.Stop? then Cleaned(log.pass, Thrown(log.why))
      else if log.pass.ledger.log.None? || !log.pass.ledger.log.value.completed then Cleaned(log.pass, NoExecutionLog)
      else
        var r := FinishDists(e, log.pass, openDists);
        if r.Stop? then Cleaned(r.pass, Thrown(r.why))
        else if openDists && r.pass.ledger.dists != map[] then Cleaned(r.pass, TokenDistsOpen)
        else CloseIfEmpty(e, r.pass)
  }

  // ---- what a close can orphan ----

  predicate IsDeposit(ix: Ix) {
    ix.DepositToken? || ix.OpenStray?
  }

  /** Someone gives the vault tokens during an await from `lo` on and before `hi`. */
  ghost predicate DepositBetween(e: Env, lo: nat, hi: nat) {
    exists k: nat, i: nat :: lo <= k < hi && i < |e.tick(k).others| && IsDeposit(e.tick(k).others[i])
  }

  /** No balance rose and no token account came with one. */
  ghost predicate Shrinks(s: State, t: State) {
    && (forall m :: OwnOf(t, m) <= OwnOf(s, m))
    && (forall x :: x in t.shelf ==> x in s.shelf || (x.Canonical? && OwnOf(t, x.mint) == 0))
  }

  lemma EffectShrinks(v: Vault, s: State, ix: Ix)
    requires WellFormed(v, s) && Enabled(v, s, ix) && !IsDeposit(ix)
    ensures Shrinks(s, Effect(v, s, ix))
  {
    hide SolCovered, MintCovered, Shelved, Shares, Owed, Pledged, EarlierPaid, LargestShareIndex, AllBelow;
  }

  lemma ShrinkingStaysEmpty(v: Vault, s: State, t: State, program: Pubkey)
    requires Shrinks(s, t) && !HoldsTokens(v, s, program)
    ensures !HoldsTokens(v, t, program)
  {
    forall i | 0 <= i < |t.shelf| && AccountOf(v, t, t.shelf[i]).program == program ensures AccountOf(v, t, t.shelf[i]).amount == 0 {
      var x := t.shelf[i];
      if x in s.shelf {
        var k :| 0 <= k < |s.shelf| && s.shelf[k] == x;
        assert AccountOf(v, s, s.shelf[k]).amount == 0;
      }
    }
  }

  /** Whatever else lands, a vault without a balance gets none but by a deposit. */
  lemma LandKeepsEmpty(v: Vault, s: State, ix: Ix, program: Pubkey)
    requires WellFormed(v, s) && !HoldsTokens(v, s, program) && !IsDeposit(ix)
    ensures !HoldsTokens(v, Land(v, s, ix), program)
  {
    hide WellFormed, Enabled, Effect, HoldsTokens;
    if Enabled(v, s, ix) {
      EffectShrinks(v, s, ix);
      ShrinkingStaysEmpty(v, s, Effect(v, s, ix), program);
    }
  }

  lemma {:induction false} LandAllKeepsEmpty(v: Vault, s: State, ixs: seq<Ix>, program: Pubkey)
    requires WellFormed(v, s) && !HoldsTokens(v, s, program)
    requires forall i :: 0 <= i < |ixs| ==> !IsDeposit(ixs[i])
    ensures !HoldsTokens(v, LandAll(v, s, ixs), program)
    decreases |ixs|
  {
    hide WellFormed, Land, HoldsTokens, IsDeposit;
    if ixs != [] {
      LandKeepsEmpty(v, s, ixs[0], program);
      LandAllKeepsEmpty(v, Land(v, s, ixs[0]), ixs[1..], program);
    }
  }

  lemma AwaitKeepsEmpty(e: Env, p: Pass, program: Pubkey, lo: nat)
    requires Good(e, p) && lo <= p.clock
    ensures HoldsTokens(e.v, Await(e, p).ledger, program) ==> HoldsTokens(e.v, p.ledger, program) || DepositBetween(e, lo, p.clock + 1)
  {
    hide WellFormed, HoldsTokens, IsDeposit;
    if !HoldsTokens(e.v, p.ledger, program) && !DepositBetween(e, lo, p.clock + 1) {
      forall i | 0 <= i < |e.tick(p.clock).others| ensures !IsDeposit(e.tick(p.clock).others[i]) {
      }
      LandAllKeepsEmpty(e.v, p.ledger, e.tick(p.clock).others, program);
    }
  }

  lemma DepositWider(e: Env, lo: nat, mid: nat, hi: nat)
    requires mid <= hi && DepositBetween(e, lo, mid)
    ensures DepositBetween(e, lo, hi)
  {
  }

  predicate Sent(trace: seq<Event>) {
    exists k :: 0 <= k < |trace| && trace[k].ix == CloseVault
  }

  /** The submission of the close takes one or two awaits and is the last on record. */
  lemma CloseIsRecorded(e: Env, p: Pass)
    requires Good(e, p) && !Sent(p.trace)
    ensures var r := Submit(e, p, CloseVault);
            Sent(r.pass.trace) ==>
              && Guard(e, p).Next? && r.pass.clock == p.clock + (if e.asyncGuard then 2 else 1)
              && r.pass.trace != [] && r.pass.trace[..|r.pass.trace| - 1] == p.trace
  {
    hide WellFormed, Enabled, LandAll;
    var g := Guard(e, p).pass;
    assert (g.trace + [Submitted(CloseVault, g.ledger, g.stuck)])[..|g.trace|] == g.trace;
  }

  /** Neither await brings a balance without a deposit. */
  lemma CloseKeepsEmpty(e: Env, p: Pass, program: Pubkey, lo: nat)
    requires Good(e, p) && lo <= p.clock && Guard(e, p).Next?
    ensures var r := Submit(e, p, CloseVault);
            HoldsTokens(e.v, r.pass.ledger, program) ==>
              HoldsTokens(e.v, p.ledger, program) || DepositBetween(e, lo, r.pass.clock)
  {
    hide WellFormed, Enabled, HoldsTokens, DepositBetween, LandAll;
    if e.asyncGuard {
      AwaitKeepsEmpty(e, p, program, lo);
    }
    var g := Guard(e, p).pass;
    var sent := g.(trace := g.trace + [Submitted(CloseVault, g.ledger, g.stuck)]);
    AwaitKeepsEmpty(e, sent, program, lo);
    CloseChangesNothing(e.v, Await(e, sent).ledger);
    if e.asyncGuard && DepositBetween(e, lo, p.clock + 1) {
      DepositWider(e, lo, p.clock + 1, g.clock + 1);
    }
  }

  lemma CloseChangesNothing(v: Vault, s: State)
    requires WellFormed(v, s)
    ensures Land(v, s, CloseVault) == s
  {
  }

  /** The first scan is the third, or with an awaited guard the fourth, await from the end. */
  function ScanTick(e: Env, clock: nat): int {
    clock - if e.asyncGuard then 4 else 3
  }

  /** Whatever balance is there at the end came from a deposit made after the scan of its token program. */
  ghost predicate OnlyLateDeposits(e: Env, r: Pass) {
    var scan := ScanTick(e, r.clock);
    && scan >= 0
    && (HoldsTokens(e.v, r.ledger, TOKEN_PROGRAM) ==> DepositBetween(e, scan + 1, r.clock))
    && (HoldsTokens(e.v, r.ledger, TOKEN_2022_PROGRAM) ==> DepositBetween(e, scan + 2, r.clock))
  }

  /** What a close that was sent, whether or not it landed, finds. */
  ghost predicate SentClean(e: Env, r: Pass) {
    && r.trace != [] && !Sent(r.trace[..|r.trace| - 1])
    && r.ledger.executed && OnlyLateDeposits(e, r)
  }

  lemma CloseIfEmptyClean(e: Env, p: Pass)
    requires Good(e, p) && !Sent(p.trace)
    ensures var r := CloseIfEmpty(e, p).pass;
            Sent(r.trace) ==> OnlyLateDeposits(e, r) && r.trace != [] && !Sent(r.trace[..|r.trace| - 1])
  {
    hide HoldsTokens, DepositBetween, WellFormed, LandAll, Sent, Submit;
    var a := Read(e, p);
    if a.Next? && !HoldsTokens(e.v, a.pass.ledger, TOKEN_PROGRAM) {
      var scan := a.pass;
      AwaitKeepsEmpty(e, scan, TOKEN_PROGRAM, p.clock + 1);
      var b := Read(e, scan);
      if b.Next? && !HoldsTokens(e.v, b.pass.ledger, TOKEN_2022_PROGRAM) {
        var r := Submit(e, b.pass, CloseVault).pass;
        CloseIsRecorded(e, b.pass);
        if Sent(r.trace) {
          CloseKeepsEmpty(e, b.pass, TOKEN_PROGRAM, p.clock + 1);
          CloseKeepsEmpty(e, b.pass, TOKEN_2022_PROGRAM, p.clock + 2);
          if DepositBetween(e, p.clock + 1, scan.clock + 1) {
            DepositWider(e, p.clock + 1, scan.clock + 1, r.clock);
          }
        }
      }
    }
  }

  lemma CloseIfEmptyKeepsExecuted(e: Env, p: Pass)
    requires Good(e, p)
    ensures var r := CloseIfEmpty(e, p);
            && (p.ledger.executed ==> r.pass.ledger.executed)
            && (r.result == Closed ==> Sent(r.pass.trace) && r.pass.ledger.dists == map[] && r.pass.ledger.delayOver)
  {
    hide HoldsTokens, AllFit, Wilts, SolCovered, MintCovered, Shelved, LandAll;
    AwaitSteps(e, p);
    var a := Read(e, p);
    if a.Next? && !HoldsTokens(e.v, a.pass.ledger, TOKEN_PROGRAM) {
      AwaitSteps(e, a.pass);
      var b := Read(e, a.pass);
      if b.Next? && !HoldsTokens(e.v, b.pass.ledger, TOKEN_2022_PROGRAM) {
        SubmitKeepsExecuted(e, b.pass);
      }
    }
  }

  lemma SubmitKeepsExecuted(e: Env, p: Pass)
    requires Good(e, p)
    ensures var r := Submit(e, p, CloseVault);
            && (p.ledger.executed ==> r.pass.ledger.executed)
            && (r.Next? ==> Sent(r.pass.trace) && r.pass.ledger.dists == map[] && r.pass.ledger.delayOver)
  {
    hide AllFit, Wilts, SolCovered, MintCovered, Shelved, LandAll;
    GuardSteps(e, p);
    var g := Guard(e, p).pass;
    var sent := g.(trace := g.trace + [Submitted(CloseVault, g.ledger, g.stuck)]);
    assert sent.trace[|g.trace|].ix == CloseVault;
    AwaitSteps(e, sent);
    CloseChangesNothing(e.v, Await(e, sent).ledger);
  }

  lemma FitIsNotSent(v: Vault, trace: seq<Event>)
    requires AllFit(v, trace)
    ensures !Sent(trace)
  {
  }

  lemma FinishDistsSteps(e: Env, p: Pass, openDists: bool)
    requires Good(e, p) && AllFit(e.v, p.trace)
    ensures AllFit(e.v, FinishDists(e, p, openDists).pass.trace)
    ensures p.ledger.executed ==> FinishDists(e, p, openDists).pass.ledger.executed
  {
    hide WellFormed, CrankVault, AllFit, Wilts;
    if openDists {
      CrankVaultSteps(e, Fresh(p));
      var r := CrankVault(e, Fresh(p));
      if r.Next? {
        AwaitSteps(e, r.pass);
        StepTransitive(e, Fresh(p), r.pass, Await(e, r.pass));
      }
    }
  }

  /**
   * Main result: for every script, and whether or not leftover TokenDists made the crank run again, the close is
   * sent at most once, last, and for an executed vault; a balance that is in the vault then was deposited after
   * the scan of its token program. A close that is answered as done found no TokenDist open and the window over.
   */
  lemma CleanupOrphansOnlyLateDeposits(e: Env, s: State, openDists: bool)
    requires Good(e, Start(s))
    ensures var r := CleanupVault(e, Start(s), openDists);
            && (Sent(r.pass.trace) ==> SentClean(e, r.pass))
            && (r.result == Closed ==> Sent(r.pass.trace) && r.pass.ledger.dists == map[] && r.pass.ledger.delayOver)
  {
    hide WellFormed, FinishDists, CloseIfEmpty, OnlyLateDeposits, AllFit, Wilts, Sent;
    NothingSent();
    AwaitSteps(e, Start(s));
    FitIsNotSentYet(e.v);
    var fee := Read(e, Start(s));
    if fee.Next? {
      AwaitSteps(e, fee.pass);
      var log := Read(e, fee.pass);
      if log.Next? && log.pass.ledger.log.Some? && log.pass.ledger.log.value.completed {
        CompletedIsExecuted(e.v, log.pass.ledger);
        FinishDistsSteps(e, log.pass, openDists);
        var r := FinishDists(e, log.pass, openDists);
        FitIsNotSent(e.v, r.pass.trace);
        if r.Next? {
          CloseIfEmptyClean(e, r.pass);
          CloseIfEmptyKeepsExecuted(e, r.pass);
        }
      }
    }
  }

  lemma NothingSent()
    ensures !Sent([])
  {
  }

  lemma FitIsNotSentYet(v: Vault)
    ensures AllFit(v, [])
  {
  }

  lemma CompletedIsExecuted(v: Vault, s: State)
    requires WellFormed(v, s) && s.log.Some? && s.log.value.completed
    ensures s.executed
  {
  }

  /** And it happens: tokens that arrive while the guard is awaited are in the vault when it is closed. */
  lemma DepositAfterScanIsOrphaned(e: Env, p: Pass, m: Pubkey, amount: nat)
    requires Good(e, p) && e.asyncGuard && e.canSubmit(p.guards) == Yes
    requires p.ledger.executed && p.ledger.dists == map[] && p.ledger.delayOver
    requires !HoldsTokens(e.v, p.ledger, TOKEN_PROGRAM) && !HoldsTokens(e.v, p.ledger, TOKEN_2022_PROGRAM)
    requires m in e.v.programOf && amount > 0
    requires forall k: nat :: e.tick(k).fault == Fine
    requires e.tick(p.clock).others == [] && e.tick(p.clock + 1).others == [] && e.tick(p.clock + 3).others == []
    requires e.tick(p.clock + 2).others == [OpenStray(m, amount)]
    ensures CloseIfEmpty(e, p).result == Closed
    ensures HoldsTokens(e.v, CloseIfEmpty(e, p).pass.ledger, e.v.programOf[m])
  {
    hide WellFormed, HoldsTokens, Enabled, Effect;
    StrayLands(e.v, p.ledger, m, amount);
    OneOther(e.v, p.ledger, OpenStray(m, amount));
    var scan2022 := Read(e, Read(e, p).pass).pass;
    assert scan2022.ledger == p.ledger && scan2022.clock == p.clock + 2 && scan2022.guards == p.guards;
    var g := Guard(e, scan2022).pass;
    assert g.ledger == Land(e.v, p.ledger, OpenStray(m, amount));
    CloseChangesNothing(e.v, g.ledger);
  }

  lemma StrayLands(v: Vault, s: State, m: Pubkey, amount: nat)
    requires WellFormed(v, s) && s.executed && s.dists == map[] && s.delayOver && m in v.programOf && amount > 0
    ensures var t := Land(v, s, OpenStray(m, amount));
            HoldsTokens(v, t, v.programOf[m]) && WellFormed(v, t) && Enabled(v, t, CloseVault)
  {
    var t := Land(v, s, OpenStray(m, amount));
    assert t.shelf[|s.shelf|] == Stray(m, amount);
  }

  lemma OneOther(v: Vault, s: State, ix: Ix)
    requires WellFormed(v, s)
    ensures LandAll(v, s, [ix]) == Land(v, s, ix)
  {
    hide WellFormed, Land;
    assert [ix][1..] == [];
    assert LandAll(v, Land(v, s, ix), []) == Land(v, s, ix);
  }
}
