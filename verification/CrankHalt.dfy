/**
 * The guard: if it first answers badly at call k + 1, the pass makes exactly the first k submissions of
 * the same run under a guard that always says yes, then nothing, and the halt reaches the caller.
 */
module CrankHalt {
  import opened Prelude
  import opened Bits
  import opened Mints
  import opened Ledger
  import opened Crank

  function AlwaysYes(): nat -> Answer {
    (_: nat) => Yes
  }

  /** The same script under a guard that never objects. */
  function Unguarded(e: Env): Env {
    e.(canSubmit := AlwaysYes())
  }

  /** The guard says yes k times and then, for whatever reason, does not. */
  ghost predicate FailsAt(e: Env, k: nat) {
    (forall i: nat :: i < k ==> e.canSubmit(i) == Yes) && e.canSubmit(k) != Yes
  }

  /** One submission per positive answer so far. */
  ghost predicate InStep(p: Pass) {
    |p.trace| == p.guards
  }

  ghost predicate Running(e: Env, p: Pass, k: nat) {
    Good(e, p) && FailsAt(e, k) && InStep(p) && p.guards <= k
  }

  /** `full` is the unguarded result and `cut` the guarded one. */
  ghost predicate Cut(full: Flow, cut: Flow, k: nat) {
    if full.pass.guards <= k then cut == full && InStep(full.pass)
    else cut.Stop? && cut.why == Halted && |cut.pass.trace| == k && cut.pass.trace <= full.pass.trace
  }

  /** Sending does not ask the guard, and it records exactly one submission. */
  lemma SendIgnoresGuard(e: Env, p: Pass, ix: Ix)
    requires Good(e, p)
    ensures Send(Unguarded(e), p, ix) == Send(e, p, ix)
    ensures Send(e, p, ix).pass.trace == p.trace + [Submitted(ix, p.ledger, p.stuck)]
    ensures Send(e, p, ix).pass.guards == p.guards
  {
    hide WellFormed, Enabled, Effect, Land, LandAll;
  }

  lemma SubmitCut(e: Env, p: Pass, k: nat, ix: Ix)
    requires Running(e, p, k)
    ensures Cut(Submit(Unguarded(e), p, ix), Submit(e, p, ix), k)
  {
    hide WellFormed, Enabled, Effect, Land, LandAll, Send;
    SendIgnoresGuard(e, Guard(Unguarded(e), p).pass, ix);
  }

  lemma EnsureAtaCut(e: Env, p: Pass, k: nat, ata: Ata)
    requires Running(e, p, k)
    ensures Cut(EnsureAta(Unguarded(e), p, ata), EnsureAta(e, p, ata), k)
  {
    hide WellFormed, Enabled, Effect, Land;
    var a := Read(e, p);
    if a.Next? {
      SubmitCut(e, a.pass, k, CreateAta(ata));
    }
  }

  lemma EnsureForCut(e: Env, p: Pass, k: nat, ata: Ata)
    requires Running(e, p, k)
    ensures Cut(EnsureFor(Unguarded(e), p, ata), EnsureFor(e, p, ata), k)
  {
    hide WellFormed, EnsureAta;
    if ata.wallet !in e.v.offCurve {
      EnsureAtaCut(e, p, k, ata);
    }
  }

  lemma BeginLogCut(e: Env, p: Pass, k: nat)
    requires Running(e, p, k)
    ensures Cut(BeginLog(Unguarded(e), p), BeginLog(e, p), k)
  {
    hide WellFormed, Enabled, Effect, Land;
    var a := Read(e, p);
    if a.Next? {
      SubmitCut(e, a.pass, k, BeginExecution);
    }
  }

  lemma {:induction false} PlanMintsCut(e: Env, p: Pass, k: nat, j: nat)
    requires Running(e, p, k)
    requires j <= |e.v.Assignments()|
    ensures Cut(PlanMints(Unguarded(e), p, j), PlanMints(e, p, j), k)
    decreases |e.v.Assignments()| - j
  {
    hide WellFormed, Enabled, Effect, Land;
    if j < |e.v.Assignments()| {
      var mint := e.v.Assignments()[j].mint;
      if mint == DEFAULT_KEY {
        PlanMintsCut(e, p, k, j + 1);
      } else if Has(p.info, mint) {
        PlanMintsCut(e, p.(info := MarkPlanned(p.info, mint)), k, j + 1);
      } else if LookUp(e, p, mint).Next? {
        PlanMintsCut(e, LookUp(e, p, mint).pass, k, j + 1);
      }
    }
  }

  lemma CollectMintsCut(e: Env, p: Pass, k: nat)
    requires Running(e, p, k)
    ensures Cut(CollectMints(Unguarded(e), p), CollectMints(e, p), k)
  {
    hide WellFormed, Enabled, Effect, Land, LandAll, AddAccounts, OfProgram;
    var a := ScanProgram(e, p.(info := []), TOKEN_PROGRAM);
    if a.Next? {
      var b := ScanProgram(e, a.pass, TOKEN_2022_PROGRAM);
      if b.Next? {
        PlanMintsCut(e, b.pass, k, 0);
      }
    }
  }

  lemma TryBeginCut(e: Env, p: Pass, k: nat, m: MintInfo)
    requires Running(e, p, k)
    ensures Cut(TryBegin(Unguarded(e), p, m), TryBegin(e, p, m), k)
  {
    hide WellFormed, Enabled, Effect, Land;
    var ata := Ata(e.v.key, m.mint, m.program);
    var q := Enter(p, TokenBlock(m.mint, "begin_token_dist"));
    EnsureAtaCut(e, q, k, ata);
    var a := EnsureAta(Unguarded(e), q, ata);
    if a.Next? && a.pass.guards <= k {
      SubmitCut(e, a.pass, k, BeginTokenDist(m.mint, m.program));
    }
  }

  lemma BeginDistCut(e: Env, p: Pass, k: nat, m: MintInfo)
    requires Running(e, p, k)
    ensures Cut(BeginDist(Unguarded(e), p, m), BeginDist(e, p, m), k)
  {
    hide WellFormed, Enabled, Effect, Land, LandAll, TryBegin;
    var a := Read(e, p);
    if a.Next? {
      TryBeginCut(e, a.pass, k, m);
    }
  }

  lemma {:induction false} BeginDistsCut(e: Env, p: Pass, k: nat, mints: seq<MintInfo>)
    requires Running(e, p, k)
    ensures Cut(BeginDists(Unguarded(e), p, mints), BeginDists(e, p, mints), k)
    decreases |mints|
  {
    hide WellFormed, Enabled, Effect, Land, BeginDist;
    if mints != [] {
      BeginDistCut(e, p, k, mints[0]);
      var a := BeginDist(Unguarded(e), p, mints[0]);
      if a.Next? && a.pass.guards <= k {
        BeginDistsCut(e, a.pass, k, mints[1..]);
      }
    }
  }

  lemma TryBequestCut(e: Env, p: Pass, k: nat, j: nat)
    requires Running(e, p, k)
    requires j < |e.v.Assignments()|
    ensures Cut(TryBequest(Unguarded(e), p, j), TryBequest(e, p, j), k)
  {
    hide WellFormed, Enabled, Effect, Land;
    var a := e.v.Assignments()[j];
    var program := ProgramFor(p.mints, a.mint);
    var ata := Ata(e.v.Wallet(a.beneficiary), a.mint, program);
    var q := Enter(p, TokenBlock(a.mint, "execute_specific_asset"));
    EnsureForCut(e, q, k, ata);
    var r := EnsureFor(Unguarded(e), q, ata);
    if r.Next? && r.pass.guards <= k {
      SubmitCut(e, r.pass, k, SpecificAsset(j, program));
    }
  }

  lemma BequestCut(e: Env, p: Pass, k: nat, j: nat)
    requires Running(e, p, k)
    requires j < |e.v.Assignments()|
    ensures Cut(Bequest(Unguarded(e), p, j), Bequest(e, p, j), k)
  {
    hide WellFormed, Enabled, Effect, Land, TryBequest, Submit;
    TryBequestCut(e, p, k, j);
    SubmitCut(e, Enter(p, SolBlock), k, SpecificSol(j));
  }

  lemma {:induction false} BequestsCut(e: Env, p: Pass, k: nat, j: nat)
    requires Running(e, p, k)
    requires j <= |e.v.Assignments()|
    ensures Cut(Bequests(Unguarded(e), p, j), Bequests(e, p, j), k)
    decreases |e.v.Assignments()| - j
  {
    hide WellFormed, Enabled, Effect, Land, Bequest;
    if j < |e.v.Assignments()| {
      BequestCut(e, p, k, j);
      var a := Bequest(Unguarded(e), p, j);
      if a.Next? && a.pass.guards <= k {
        BequestsCut(e, a.pass, k, j + 1);
      }
    }
  }

  lemma {:induction false} SolBatchesCut(e: Env, p: Pass, k: nat, parts: seq<seq<nat>>)
    requires Running(e, p, k)
    ensures Cut(SolBatches(Unguarded(e), p, parts), SolBatches(e, p, parts), k)
    decreases |parts|
  {
    hide WellFormed, Enabled, Effect, Land, Submit;
    if parts != [] {
      SubmitCut(e, p, k, SolShares(parts[0]));
      var a := Submit(Unguarded(e), p, SolShares(parts[0]));
      if a.Next? && a.pass.guards <= k {
        SolBatchesCut(e, a.pass, k, parts[1..]);
      }
    }
  }

  lemma PaySolCut(e: Env, p: Pass, k: nat)
    requires Running(e, p, k)
    ensures Cut(PaySol(Unguarded(e), p), PaySol(e, p), k)
  {
    hide WellFormed, Enabled, Effect, Land;
    var a := ReadLog(e, p);
    if a.Next? {
      SolBatchesCut(e, a.pass, k, Chunk(Unpaid(a.pass.solMask, |e.v.beneficiaries|), BATCH));
    }
  }

  lemma FinalizeCut(e: Env, p: Pass, k: nat)
    requires Running(e, p, k)
    ensures Cut(FinalizeIfFull(Unguarded(e), p), FinalizeIfFull(e, p), k)
  {
    hide WellFormed, Enabled, Effect, Land, LandAll, Submit;
    var a := ReadLog(e, p);
    if a.Next? {
      var b := ReadPlan(e, a.pass);
      if b.Next? {
        SubmitCut(e, b.pass, k, Finalize);
      }
    }
  }

  lemma {:induction false} EnsureAtasCut(e: Env, p: Pass, k: nat, m: MintInfo, part: seq<nat>)
    requires Running(e, p, k)
    requires forall i :: 0 <= i < |part| ==> part[i] < |e.v.beneficiaries|
    ensures Cut(EnsureAtas(Unguarded(e), p, m, part), EnsureAtas(e, p, m, part), k)
    decreases |part|
  {
    hide WellFormed, Enabled, Effect, Land, EnsureFor;
    if part != [] {
      var ata := Ata(e.v.Wallet(part[0]), m.mint, m.program);
      EnsureForCut(e, p, k, ata);
      var a := EnsureFor(Unguarded(e), p, ata);
      if a.Next? && a.pass.guards <= k {
        EnsureAtasCut(e, a.pass, k, m, part[1..]);
      }
    }
  }

  lemma {:induction false} TokenBatchesCut(e: Env, p: Pass, k: nat, m: MintInfo, parts: seq<seq<nat>>)
    requires Running(e, p, k)
    requires InRange(parts, |e.v.beneficiaries|)
    ensures Cut(TokenBatches(Unguarded(e), p, m, parts), TokenBatches(e, p, m, parts), k)
    decreases |parts|
  {
    hide WellFormed, Enabled, Effect, Land, Submit, EnsureAtas;
    if parts != [] {
      EnsureAtasCut(e, p, k, m, parts[0]);
      var a := EnsureAtas(Unguarded(e), p, m, parts[0]);
      if a.Next? && a.pass.guards <= k {
        var ix := TokenShares(m.mint, m.program, parts[0]);
        SubmitCut(e, a.pass, k, ix);
        var b := Submit(Unguarded(e), a.pass, ix);
        if b.Next? && b.pass.guards <= k {
          TokenBatchesCut(e, b.pass, k, m, parts[1..]);
        }
      }
    }
  }

  lemma PayTokenCut(e: Env, p: Pass, k: nat, m: MintInfo)
    requires Running(e, p, k)
    ensures Cut(PayToken(Unguarded(e), p, m), PayToken(e, p, m), k)
  {
    hide WellFormed, Enabled, Effect, Land;
    var a := Read(e, p);
    if a.Next? && m.mint in a.pass.ledger.dists {
      var mask := Mask(a.pass.ledger.dists[m.mint].paid);
      BatchesInRange(mask, |e.v.beneficiaries|);
      var q := Enter(a.pass, TokenBlock(m.mint, "execute_token_shares"));
      TokenBatchesCut(e, q, k, m, Chunk(Unpaid(mask, |e.v.beneficiaries|), BATCH));
    }
  }

  lemma {:induction false} PayTokensCut(e: Env, p: Pass, k: nat, mints: seq<MintInfo>)
    requires Running(e, p, k)
    ensures Cut(PayTokens(Unguarded(e), p, mints), PayTokens(e, p, mints), k)
    decreases |mints|
  {
    hide WellFormed, Enabled, Effect, Land, PayToken;
    if mints != [] {
      PayTokenCut(e, p, k, mints[0]);
      var a := PayToken(Unguarded(e), p, mints[0]);
      if a.Next? && a.pass.guards <= k {
        PayTokensCut(e, a.pass, k, mints[1..]);
      }
    }
  }

  lemma TryCloseCut(e: Env, p: Pass, k: nat, m: MintInfo)
    requires Running(e, p, k)
    ensures Cut(TryClose(Unguarded(e), p, m), TryClose(e, p, m), k)
  {
    hide WellFormed, Enabled, Effect, Land;
    var q := Peek(e, Enter(p, TokenBlock(m.mint, "close_token_dist")));
    var wallet := LargestWallet(e.v);
    var found := e.tick(p.clock).fault == Fine && Exists(e.v, q.ledger, Ata(e.v.key, m.mint, m.program));
    var withheld := found && m.mint in q.ledger.withheld;
    if found && OwnOf(q.ledger, m.mint) > 0 {
      var ata := Ata(wallet, m.mint, m.program);
      EnsureForCut(e, q, k, ata);
      var a := EnsureFor(Unguarded(e), q, ata);
      if a.Next? && a.pass.guards <= k {
        SubmitCut(e, a.pass, k, CloseTokenDist(m.mint, m.program, Some(wallet), withheld));
      }
    } else {
      SubmitCut(e, q, k, CloseTokenDist(m.mint, m.program, None, withheld));
    }
  }

  lemma CloseDistCut(e: Env, p: Pass, k: nat, m: MintInfo)
    requires Running(e, p, k)
    ensures Cut(CloseDist(Unguarded(e), p, m), CloseDist(e, p, m), k)
  {
    hide WellFormed, Enabled, Effect, Land;
    var a := Read(e, p);
    if a.Next? {
      TryCloseCut(e, a.pass, k, m);
    }
  }

  lemma {:induction false} CloseDistsCut(e: Env, p: Pass, k: nat, mints: seq<MintInfo>)
    requires Running(e, p, k)
    ensures Cut(CloseDists(Unguarded(e), p, mints), CloseDists(e, p, mints), k)
    decreases |mints|
  {
    hide WellFormed, Enabled, Effect, Land, CloseDist;
    if mints != [] {
      CloseDistCut(e, p, k, mints[0]);
      var a := CloseDist(Unguarded(e), p, mints[0]);
      if a.Next? && a.pass.guards <= k {
        CloseDistsCut(e, a.pass, k, mints[1..]);
      }
    }
  }

  lemma CloseIfExecutedCut(e: Env, p: Pass, k: nat)
    requires Running(e, p, k)
    ensures Cut(CloseIfExecuted(Unguarded(e), p), CloseIfExecuted(e, p), k)
  {
    hide WellFormed, Enabled, Effect, Land;
    var a := Read(e, p);
    if a.Next? {
      var q := a.pass.(executed := a.pass.ledger.executed);
      CloseDistsCut(e, q, k, q.mints);
    }
  }

  lemma PrepareCut(e: Env, p: Pass, k: nat)
    requires Running(e, p, k)
    ensures Cut(Prepare(Unguarded(e), p), Prepare(e, p), k)
  {
    hide WellFormed, Enabled, Effect, Land, BeginLog, CollectMints;
    BeginLogCut(e, p, k);
    var b := BeginLog(Unguarded(e), p);
    if b.Next? && b.pass.guards <= k {
      var c := ReadPlan(Unguarded(e), b.pass);
      if c.Next? && c.pass.guards <= k {
        CollectMintsCut(e, c.pass, k);
      }
    }
  }

  lemma PayBequestsCut(e: Env, p: Pass, k: nat)
    requires Running(e, p, k)
    ensures Cut(PayBequests(Unguarded(e), p), PayBequests(e, p), k)
  {
    hide WellFormed, Enabled, Effect, Land;
    BeginDistsCut(e, p, k, p.mints);
    var a := BeginDists(Unguarded(e), p, p.mints);
    if a.Next? && a.pass.guards <= k {
      BequestsCut(e, a.pass, k, 0);
    }
  }

  lemma DistributeCut(e: Env, p: Pass, k: nat)
    requires Running(e, p, k)
    ensures Cut(Distribute(Unguarded(e), p), Distribute(e, p), k)
  {
    hide WellFormed, Enabled, Effect, Land, PaySol, FinalizeIfFull, PayTokens, CloseIfExecuted;
    PaySolCut(e, p, k);
    var a := PaySol(Unguarded(e), p);
    if a.Next? && a.pass.guards <= k {
      FinalizeCut(e, a.pass, k);
      var b := FinalizeIfFull(Unguarded(e), a.pass);
      if b.Next? && b.pass.guards <= k {
        PayTokensCut(e, b.pass, k, b.pass.mints);
        var c := PayTokens(Unguarded(e), b.pass, b.pass.mints);
        if c.Next? && c.pass.guards <= k {
          CloseIfExecutedCut(e, c.pass, k);
        }
      }
    }
  }

  lemma PhasesCut(e: Env, p: Pass, k: nat)
    requires Running(e, p, k)
    ensures Cut(Phases(Unguarded(e), p), Phases(e, p), k)
  {
    hide WellFormed, Enabled, Effect, Land, Prepare, PayBequests, Distribute;
    PrepareCut(e, p, k);
    var a := Prepare(Unguarded(e), p);
    if a.Next? && a.pass.guards <= k {
      PayBequestsCut(e, a.pass, k);
      var b := PayBequests(Unguarded(e), a.pass);
      if b.Next? && b.pass.guards <= k {
        DistributeCut(e, b.pass, k);
      }
    }
  }

  lemma CrankVaultCut(e: Env, p: Pass, k: nat)
    requires Running(e, p, k)
    ensures Cut(CrankVault(Unguarded(e), p), CrankVault(e, p), k)
  {
    hide WellFormed, Enabled, Effect, Land, Phases;
    var a := Read(e, p);
    if a.Next? {
      PhasesCut(e, a.pass, k);
    }
  }

  /**
   * Main result. A pass whose guard fails at call k + 1 submits the first k transactions of the unguarded
   * pass and no other, and it ends in the halt if the unguarded pass would have submitted more than k;
   * no catch block turns the halt into a stuck mint.
   */
  lemma HaltCutsThePass(e: Env, s: State, k: nat)
    requires Good(e, Start(s)) && FailsAt(e, k)
    ensures var full := CrankVault(Unguarded(e), Start(s));
            var cut := CrankVault(e, Start(s));
            if full.pass.guards <= k then cut == full
            else cut.Stop? && cut.why == Halted
                 && k <= |full.pass.trace| && cut.pass.trace == full.pass.trace[..k]
  {
    hide CrankVault;
    CrankVaultCut(e, Start(s), k);
  }
}
