/** `cleanupExecutedVault` in its own form, on the object of the keeper's pass. */
module KeeperCleanup {
  import opened Prelude
  import opened Mints
  import opened Ledger
  import opened Keeper
  import C = Crank
  import R = Cleanup

  /** One scan for a positive balance. */
  method ScanForTokens(v: Vault, s: State, program: Pubkey) returns (found: bool)
    ensures found == R.HoldsTokens(v, s, program)
  {
    var accounts := Accounts(v, s);
    for i := 0 to |accounts|
      invariant forall k :: 0 <= k < i ==> !(accounts[k].program == program && accounts[k].amount > 0)
    {
      if accounts[i].program == program && accounts[i].amount > 0 {
        return true;
      }
    }
    found := false;
  }

  /** The local variables of a new pass. */
  method Renew(k: KeeperPass)
    modifies k
    ensures k.Now() == R.Fresh(old(k.Now()))
  {
    k.stuck, k.skipped, k.planMask, k.solMask, k.completed := {}, [], 0, 0, false;
    k.info, k.mints, k.executed, k.block, k.calls := [], [], false, C.Outside, [];
  }

  method FinishDists(k: KeeperPass, openDists: bool) returns (x: Outcome)
    requires k.Valid()
    modifies k
    ensures k.Result(x) == R.FinishDists(k.e, old(k.Now()), openDists)
  {
    hide C.CrankVault, C.Read, WellFormed;
    if openDists {
      Renew(k);
      :- k.CrankVault();
      :- k.Read();
    }
    x := Done;
  }

  method CloseIfEmpty(k: KeeperPass) returns (result: R.Result)
    requires k.Valid()
    modifies k
    ensures R.Cleaned(k.Now(), result) == R.CloseIfEmpty(k.e, old(k.Now()))
  {
    hide C.Submit, LandAll, R.HoldsTokens, WellFormed;
    var x := k.Read();
    if x.Threw? { return R.Thrown(x.why); }
    var held := ScanForTokens(k.e.v, k.ledger, TOKEN_PROGRAM);
    if held { return R.HeldMintsRemain; }
    x := k.Read();
    if x.Threw? { return R.Thrown(x.why); }
    held := ScanForTokens(k.e.v, k.ledger, TOKEN_2022_PROGRAM);
    if held { return R.HeldMintsRemain; }
    x := k.Submit(CloseVault);
    if x.Threw? {
      return if x.why == C.Raised(C.TooEarly) then R.WindowOpen else R.Thrown(x.why);
    }
    result := R.Closed;
  }

  method CleanupVault(k: KeeperPass, openDists: bool) returns (result: R.Result)
    requires k.Valid()
    modifies k
    ensures R.Cleaned(k.Now(), result) == R.CleanupVault(k.e, old(k.Now()), openDists)
  {
    hide R.FinishDists, R.CloseIfEmpty, LandAll;
    var x := k.Read();
    if x.Threw? { return R.Thrown(x.why); }
    x := k.Read();
    if x.Threw? { return R.Thrown(x.why); }
    if k.ledger.log.None? || !k.ledger.log.value.completed {
      return R.NoExecutionLog;
    }
    x := FinishDists(k, openDists);
    if x.Threw? { return R.Thrown(x.why); }
    if openDists && k.ledger.dists != map[] {
      return R.TokenDistsOpen;
    }
    result := CloseIfEmpty(k);
  }
}
