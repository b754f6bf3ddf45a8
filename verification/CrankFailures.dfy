/**
 * What a failed call does to a pass, for every script: an operational failure in a try block costs its mint the
 * rest of the pass and nothing else; any other failure ends the pass and reaches the caller.
 */
module CrankFailures {
  import opened Prelude
  import opened Bits
  import opened Mints
  import opened Ledger
  import opened Crank
  import opened CrankSafety

  /** The failures that the pass is meant to survive. */
  predicate Survived(c: Call) {
    c.block != Outside && c.failure.Some? && IsOperational(c.failure.value)
  }

  function SkipOf(c: Call): Skip
    requires c.block != Outside
  {
    if c.block.SolBlock? then Skip("SOL", "execute_specific_sol") else Skip(c.block.mint, c.block.step)
  }

  /** One entry for each failure survived, in order. */
  function Skips(calls: seq<Call>): seq<Skip> {
    if calls == [] then []
    else
      var n := |calls| - 1;
      Skips(calls[..n]) + if Survived(calls[n]) then [SkipOf(calls[n])] else []
  }

  /** A token step of the mint failed. */
  predicate TokenFailed(calls: seq<Call>, mint: Pubkey) {
    exists k :: 0 <= k < |calls| && Survived(calls[k]) && calls[k].block.TokenBlock? && calls[k].block.mint == mint
  }

  predicate AllSurvived(calls: seq<Call>) {
    forall k :: 0 <= k < |calls| && calls[k].failure.Some? ==> Survived(calls[k])
  }

  predicate Proper(b: Block) {
    b.TokenBlock? ==> b.step != "execute_specific_sol"
  }

  /**
   * A call fails as its await does or, after a good one, as the program rejects it or finds nothing; fatally also
   * for a wallet off the curve. It succeeds on an await that faults only where a read is best effort or its
   * retries end in nothing found.
   */
  ghost predicate Honest(e: Env, c: Call) {
    var tick := e.tick(c.clock);
    && Proper(c.block)
    && match c.failure
       case None =>
         tick.fault == Fine || (tick.fault != Fatal && (tick.lands || (c.block.TokenBlock? && c.block.step == "close_token_dist")))
       case Some(f) =>
         || (f != Fine && f == tick.fault)
         || (tick.fault == Fine && IsOperational(f))
         || (f == Fatal && c.block != Outside && e.v.offCurve != {})
  }

  /** The mints marked stuck and the entries skipped are those of the failures so far, and none of them was of another kind. */
  ghost predicate Kept(e: Env, calls: seq<Call>, skipped: seq<Skip>, stuck: set<Pubkey>) {
    && skipped == Skips(calls) && AllSurvived(calls)
    && (forall m :: m in stuck <==> TokenFailed(calls, m))
    && (forall k :: 0 <= k < |calls| ==> Honest(e, calls[k]))
  }

  ghost predicate Settled(e: Env, p: Pass) {
    Kept(e, p.calls, p.skipped, p.stuck)
  }

  /** The last call threw f, and everything before it is settled. */
  ghost predicate Broken(e: Env, p: Pass, f: Fault) {
    && p.calls != []
    && var n := |p.calls| - 1;
    && Kept(e, p.calls[..n], p.skipped, p.stuck)
    && Honest(e, p.calls[n]) && p.calls[n].block == p.block && p.calls[n].failure == Some(f)
  }

  /** The guard was asked last and did not say yes. */
  ghost predicate Refused(e: Env, p: Pass) {
    p.guards > 0 && e.canSubmit(p.guards - 1) != Yes
  }

  /** How calls within one block end. */
  ghost predicate Tells(e: Env, b: Block, r: Flow) {
    && r.pass.block == b
    && if r.Next? then Settled(e, r.pass)
       else if r.why.Halted? then Settled(e, r.pass) && Refused(e, r.pass)
       else Broken(e, r.pass, r.why.fault)
  }

  /** How a phase ends: an exception that leaves it is one that no catch block takes. */
  ghost predicate Ends(e: Env, r: Flow) {
    if r.Next? then Settled(e, r.pass) && r.pass.block == Outside
    else if r.why.Halted? then Settled(e, r.pass) && Refused(e, r.pass)
    else Broken(e, r.pass, r.why.fault) && (r.pass.block == Outside || !IsOperational(r.why.fault))
  }

  // ---- calls ----

  lemma SkipsAppend(calls: seq<Call>, c: Call)
    ensures Skips(calls + [c]) == Skips(calls) + if Survived(c) then [SkipOf(c)] else []
    ensures forall m :: TokenFailed(calls + [c], m) <==>
              TokenFailed(calls, m) || (Survived(c) && c.block.TokenBlock? && c.block.mint == m)
  {
    var all := calls + [c];
    assert all[..|calls|] == calls;
    forall m ensures TokenFailed(all, m) <==> TokenFailed(calls, m) || (Survived(c) && c.block.TokenBlock? && c.block.mint == m) {
      if k :| 0 <= k < |calls| && Survived(calls[k]) && calls[k].block.TokenBlock? && calls[k].block.mint == m {
        assert all[k] == calls[k];
      }
      if Survived(c) && c.block.TokenBlock? && c.block.mint == m {
        assert all[|calls|] == c;
      }
    }
  }

  lemma Recorded(e: Env, p: Pass, clock: nat, failure: Option<Fault>)
    requires Settled(e, p) && Honest(e, Call(p.block, clock, failure))
    ensures var q := Record(p, clock, failure);
            if failure.None? then Settled(e, q) else Broken(e, q, failure.value)
  {
    hide Survived;
    var c := Call(p.block, clock, failure);
    assert (p.calls + [c])[..|p.calls|] == p.calls;
    SkipsAppend(p.calls, c);
    NoFailureToSurvive(c);
  }

  lemma NoFailureToSurvive(c: Call)
    ensures Survived(c) ==> c.failure.Some?
  {
  }

  /** A pass that may make a call. */
  ghost predicate Standing(e: Env, p: Pass) {
    Good(e, p) && Settled(e, p) && Proper(p.block)
  }

  lemma ReadTells(e: Env, p: Pass)
    requires Standing(e, p)
    ensures Tells(e, p.block, Read(e, p))
  {
    hide WellFormed, Kept;
    Recorded(e, Await(e, p), p.clock, Failure(e.tick(p.clock).fault));
  }

  lemma SendTells(e: Env, p: Pass, ix: Ix)
    requires Standing(e, p)
    ensures Tells(e, p.block, Send(e, p, ix))
  {
    hide WellFormed, Kept, Enabled, Land, LandAll;
    var tick := e.tick(p.clock);
    var w := Await(e, p.(trace := p.trace + [Submitted(ix, p.ledger, p.stuck)]));
    if tick.fault != Fine {
      var landed := w.(ledger := Land(e.v, w.ledger, ix));
      Recorded(e, if tick.lands then landed else w, p.clock, Some(tick.fault));
    } else if Enabled(e.v, w.ledger, ix) {
      Recorded(e, w.(ledger := Land(e.v, w.ledger, ix)), p.clock, None);
    } else {
      Recorded(e, w, p.clock, Some(Rejection(w.ledger, ix)));
    }
  }

  lemma SubmitTells(e: Env, p: Pass, ix: Ix)
    requires Standing(e, p)
    ensures Tells(e, p.block, Submit(e, p, ix))
  {
    hide WellFormed, Kept, Send;
    var g := Guard(e, p);
    if g.Next? {
      SendTells(e, g.pass, ix);
    }
  }

  lemma EnsureAtaTells(e: Env, p: Pass, ata: Ata)
    requires Standing(e, p)
    ensures Tells(e, p.block, EnsureAta(e, p, ata))
  {
    hide WellFormed, Kept, Submit, Read;
    ReadTells(e, p);
    var r := Read(e, p);
    if r.Next? {
      SubmitTells(e, r.pass, CreateAta(ata));
    }
  }

  lemma EnsureForTells(e: Env, p: Pass, ata: Ata)
    requires Standing(e, p) && p.block != Outside
    ensures Tells(e, p.block, EnsureFor(e, p, ata))
  {
    hide WellFormed, Kept, EnsureAta;
    if ata.wallet in e.v.offCurve {
      Recorded(e, p, p.clock, Some(Fatal));
    } else {
      EnsureAtaTells(e, p, ata);
    }
  }

  // ---- the catch blocks ----

  /** The catch block settles what its try block told. */
  lemma CatchEnds(e: Env, r: Flow, mint: Pubkey, step: string)
    requires Tells(e, TokenBlock(mint, step), r)
    ensures Ends(e, Catch(r, mint, step))
  {
    var x := Catch(r, mint, step);
    if r.Stop? && r.why.Raised? && IsOperational(r.why.fault) {
      var n := |r.pass.calls| - 1;
      assert r.pass.calls == r.pass.calls[..n] + [r.pass.calls[n]];
      SkipsAppend(r.pass.calls[..n], r.pass.calls[n]);
    }
  }

  lemma CatchSolEnds(e: Env, r: Flow)
    requires Tells(e, SolBlock, r)
    ensures Ends(e, CatchSol(r))
  {
    if r.Stop? && r.why.Raised? && IsOperational(r.why.fault) {
      var n := |r.pass.calls| - 1;
      assert r.pass.calls == r.pass.calls[..n] + [r.pass.calls[n]];
      SkipsAppend(r.pass.calls[..n], r.pass.calls[n]);
    }
  }

  // ---- the phases ----

  /** A pass between try blocks. */
  ghost predicate Between(e: Env, p: Pass) {
    Good(e, p) && Settled(e, p) && p.block == Outside
  }

  lemma BeginLogTells(e: Env, p: Pass)
    requires Between(e, p)
    ensures Tells(e, Outside, BeginLog(e, p))
  {
    hide WellFormed, Kept, Submit, Read;
    ReadTells(e, p);
    var r := Read(e, p);
    if r.Next? && r.pass.ledger.log.None? {
      SubmitTells(e, r.pass, BeginExecution);
      var b := Submit(e, r.pass, BeginExecution);
      if b.Next? {
        ReadTells(e, b.pass);
      }
    }
  }

  lemma ReadPlanTells(e: Env, p: Pass)
    requires Between(e, p)
    ensures Tells(e, Outside, ReadPlan(e, p))
  {
    hide WellFormed, Kept, Read;
    ReadTells(e, p);
  }

  lemma {:induction false} PlanMintsTells(e: Env, p: Pass, j: nat)
    requires Between(e, p) && j <= |e.v.Assignments()|
    ensures Tells(e, Outside, PlanMints(e, p, j))
    decreases |e.v.Assignments()| - j
  {
    hide WellFormed, Kept, LandAll;
    if j < |e.v.Assignments()| {
      var mint := e.v.Assignments()[j].mint;
      if mint == DEFAULT_KEY {
        PlanMintsTells(e, p, j + 1);
      } else if Has(p.info, mint) {
        PlanMintsTells(e, p.(info := MarkPlanned(p.info, mint)), j + 1);
      } else {
        var tick := e.tick(p.clock);
        var throws := tick.fault == Fatal || (tick.fault != Fine && !tick.lands);
        Recorded(e, Await(e, p), p.clock, if throws then Some(tick.fault) else None);
        var r := LookUp(e, p, mint);
        if r.Next? {
          PlanMintsTells(e, r.pass, j + 1);
        }
      }
    }
  }

  /**
   * A lookup whose retries find nothing costs a mint its place in the list, not the pass: the walk over the plan
   * stops only at an await that is fatal or meets the deadline.
   */
  lemma {:induction false} WalkStopsOnlyAtDeadline(e: Env, p: Pass, j: nat)
    requires Good(e, p) && j <= |e.v.Assignments()|
    ensures PlanMints(e, p, j).pass.clock >= p.clock
    ensures PlanMints(e, p, j).Stop? ==>
              exists k: nat :: p.clock <= k < PlanMints(e, p, j).pass.clock && (e.tick(k).fault == Fatal || (e.tick(k).fault != Fine && !e.tick(k).lands))
    decreases |e.v.Assignments()| - j
  {
    hide WellFormed, LandAll;
    if j < |e.v.Assignments()| {
      var mint := e.v.Assignments()[j].mint;
      if mint == DEFAULT_KEY {
        WalkStopsOnlyAtDeadline(e, p, j + 1);
      } else if Has(p.info, mint) {
        WalkStopsOnlyAtDeadline(e, p.(info := MarkPlanned(p.info, mint)), j + 1);
      } else {
        var r := LookUp(e, p, mint);
        if r.Next? {
          WalkStopsOnlyAtDeadline(e, r.pass, j + 1);
        }
      }
    }
  }

  lemma CollectMintsTells(e: Env, p: Pass)
    requires Between(e, p)
    ensures Tells(e, Outside, CollectMints(e, p))
  {
    hide WellFormed, Kept, Read, PlanMints, AddAccounts;
    var p0 := p.(info := []);
    ReadTells(e, p0);
    var a := ScanProgram(e, p0, TOKEN_PROGRAM);
    if a.Next? {
      ReadTells(e, a.pass);
      var b := ScanProgram(e, a.pass, TOKEN_2022_PROGRAM);
      if b.Next? {
        PlanMintsTells(e, b.pass, 0);
      }
    }
  }

  lemma TryBeginTells(e: Env, p: Pass, m: MintInfo)
    requires Between(e, p)
    ensures Tells(e, TokenBlock(m.mint, "begin_token_dist"), TryBegin(e, p, m))
  {
    hide WellFormed, Kept, EnsureAta, Submit;
    var ata := Ata(e.v.key, m.mint, m.program);
    var q := Enter(p, TokenBlock(m.mint, "begin_token_dist"));
    EnsureAtaTells(e, q, ata);
    var r := EnsureAta(e, q, ata);
    if r.Next? {
      SubmitTells(e, r.pass, BeginTokenDist(m.mint, m.program));
    }
  }

  lemma BeginDistEnds(e: Env, p: Pass, m: MintInfo)
    requires Between(e, p)
    ensures Ends(e, BeginDist(e, p, m))
  {
    hide WellFormed, Kept, Read, TryBegin, Catch;
    ReadTells(e, p);
    var r := Read(e, p);
    if r.Next? && m.mint !in r.pass.ledger.dists {
      TryBeginTells(e, r.pass, m);
      CatchEnds(e, TryBegin(e, r.pass, m), m.mint, "begin_token_dist");
    }
  }

  lemma {:induction false} BeginDistsEnds(e: Env, p: Pass, mints: seq<MintInfo>)
    requires Between(e, p)
    ensures Ends(e, BeginDists(e, p, mints))
    decreases |mints|
  {
    hide WellFormed, Kept, BeginDist;
    if mints != [] {
      BeginDistEnds(e, p, mints[0]);
      var r := BeginDist(e, p, mints[0]);
      if r.Next? {
        BeginDistsEnds(e, r.pass, mints[1..]);
      }
    }
  }

  lemma TryBequestTells(e: Env, p: Pass, j: nat)
    requires Between(e, p) && j < |e.v.Assignments()|
    ensures Tells(e, TokenBlock(e.v.Assignments()[j].mint, "execute_specific_asset"), TryBequest(e, p, j))
  {
    hide WellFormed, Kept, EnsureFor, Submit;
    var a := e.v.Assignments()[j];
    var program := ProgramFor(p.mints, a.mint);
    var q := Enter(p, TokenBlock(a.mint, "execute_specific_asset"));
    var ata := Ata(e.v.Wallet(a.beneficiary), a.mint, program);
    EnsureForTells(e, q, ata);
    var r := EnsureFor(e, q, ata);
    if r.Next? {
      SubmitTells(e, r.pass, SpecificAsset(j, program));
    }
  }

  lemma BequestEnds(e: Env, p: Pass, j: nat)
    requires Between(e, p) && j < |e.v.Assignments()|
    ensures Ends(e, Bequest(e, p, j))
  {
    hide WellFormed, Kept, TryBequest, Submit, Catch, CatchSol, BitSet;
    var mint := e.v.Assignments()[j].mint;
    if mint == DEFAULT_KEY {
      SubmitTells(e, Enter(p, SolBlock), SpecificSol(j));
      CatchSolEnds(e, Submit(e, Enter(p, SolBlock), SpecificSol(j)));
    } else {
      TryBequestTells(e, p, j);
      CatchEnds(e, TryBequest(e, p, j), mint, "execute_specific_asset");
    }
  }

  lemma {:induction false} BequestsEnds(e: Env, p: Pass, j: nat)
    requires Between(e, p) && j <= |e.v.Assignments()|
    ensures Ends(e, Bequests(e, p, j))
    decreases |e.v.Assignments()| - j
  {
    hide WellFormed, Kept, Bequest;
    if j < |e.v.Assignments()| {
      BequestEnds(e, p, j);
      var r := Bequest(e, p, j);
      if r.Next? {
        BequestsEnds(e, r.pass, j + 1);
      }
    }
  }

  lemma ReadLogTells(e: Env, p: Pass)
    requires Between(e, p)
    ensures Tells(e, Outside, ReadLog(e, p))
  {
    hide WellFormed, Kept, LandAll;
    ReadTells(e, p);
    var r := Read(e, p);
    if r.Next? && r.pass.ledger.log.None? {
      Recorded(e, r.pass, r.pass.clock - 1, Some(Operational));
    }
  }

  lemma {:induction false} SolBatchesTells(e: Env, p: Pass, parts: seq<seq<nat>>)
    requires Between(e, p)
    ensures Tells(e, Outside, SolBatches(e, p, parts))
    decreases |parts|
  {
    hide WellFormed, Kept, Submit;
    if parts != [] {
      SubmitTells(e, p, SolShares(parts[0]));
      var r := Submit(e, p, SolShares(parts[0]));
      if r.Next? {
        SolBatchesTells(e, r.pass, parts[1..]);
      }
    }
  }

  lemma PaySolTells(e: Env, p: Pass)
    requires Between(e, p)
    ensures Tells(e, Outside, PaySol(e, p))
  {
    hide WellFormed, Kept, ReadLog, SolBatches;
    ReadLogTells(e, p);
    var r := ReadLog(e, p);
    if r.Next? {
      SolBatchesTells(e, r.pass, Chunk(Unpaid(r.pass.solMask, |e.v.beneficiaries|), BATCH));
    }
  }

  lemma FinalizeTells(e: Env, p: Pass)
    requires Between(e, p)
    ensures Tells(e, Outside, FinalizeIfFull(e, p))
  {
    hide WellFormed, Kept, ReadLog, ReadPlan, Submit, KeeperGate;
    ReadLogTells(e, p);
    var a := ReadLog(e, p);
    if a.Next? {
      ReadPlanTells(e, a.pass);
      var b := ReadPlan(e, a.pass);
      if b.Next? {
        SubmitTells(e, b.pass, Finalize);
      }
    }
  }

  lemma {:induction false} EnsureAtasTells(e: Env, p: Pass, m: MintInfo, part: seq<nat>)
    requires Standing(e, p) && p.block != Outside
    requires forall k :: 0 <= k < |part| ==> part[k] < |e.v.beneficiaries|
    ensures Tells(e, p.block, EnsureAtas(e, p, m, part))
    decreases |part|
  {
    hide WellFormed, Kept, EnsureFor;
    if part != [] {
      var ata := Ata(e.v.Wallet(part[0]), m.mint, m.program);
      EnsureForTells(e, p, ata);
      var r := EnsureFor(e, p, ata);
      if r.Next? {
        EnsureAtasTells(e, r.pass, m, part[1..]);
      }
    }
  }

  lemma {:induction false} TokenBatchesTells(e: Env, p: Pass, m: MintInfo, parts: seq<seq<nat>>)
    requires Standing(e, p) && p.block != Outside && InRange(parts, |e.v.beneficiaries|)
    ensures Tells(e, p.block, TokenBatches(e, p, m, parts))
    decreases |parts|
  {
    hide WellFormed, Kept, EnsureAtas, Submit;
    if parts != [] {
      EnsureAtasTells(e, p, m, parts[0]);
      var a := EnsureAtas(e, p, m, parts[0]);
      if a.Next? {
        var ix := TokenShares(m.mint, m.program, parts[0]);
        SubmitTells(e, a.pass, ix);
        var b := Submit(e, a.pass, ix);
        if b.Next? {
          TokenBatchesTells(e, b.pass, m, parts[1..]);
        }
      }
    }
  }

  lemma PayTokenEnds(e: Env, p: Pass, m: MintInfo)
    requires Between(e, p)
    ensures Ends(e, PayToken(e, p, m))
  {
    hide WellFormed, Kept, Read, TokenBatches, Catch;
    ReadTells(e, p);
    var r := Read(e, p);
    if m.mint !in p.stuck && r.Next? && m.mint in r.pass.ledger.dists {
      var mask := Mask(r.pass.ledger.dists[m.mint].paid);
      BatchesInRange(mask, |e.v.beneficiaries|);
      var parts := Chunk(Unpaid(mask, |e.v.beneficiaries|), BATCH);
      var q := Enter(r.pass, TokenBlock(m.mint, "execute_token_shares"));
      TokenBatchesTells(e, q, m, parts);
      CatchEnds(e, TokenBatches(e, q, m, parts), m.mint, "execute_token_shares");
    }
  }

  lemma {:induction false} PayTokensEnds(e: Env, p: Pass, mints: seq<MintInfo>)
    requires Between(e, p)
    ensures Ends(e, PayTokens(e, p, mints))
    decreases |mints|
  {
    hide WellFormed, Kept, PayToken;
    if mints != [] {
      PayTokenEnds(e, p, mints[0]);
      var r := PayToken(e, p, mints[0]);
      if r.Next? {
        PayTokensEnds(e, r.pass, mints[1..]);
      }
    }
  }

  lemma TryCloseTells(e: Env, p: Pass, m: MintInfo)
    requires Between(e, p)
    ensures Tells(e, TokenBlock(m.mint, "close_token_dist"), TryClose(e, p, m))
  {
    hide WellFormed, Kept, EnsureFor, Submit, LargestWallet;
    var p' := Enter(p, TokenBlock(m.mint, "close_token_dist"));
    var fault := e.tick(p.clock).fault;
    Recorded(e, Await(e, p'), p.clock, if fault == Fatal then Some(Fatal) else None);
    var q := Peek(e, p');
    if fault != Fatal {
      var found := fault == Fine && Exists(e.v, q.ledger, Ata(e.v.key, m.mint, m.program));
      var dust := found && OwnOf(q.ledger, m.mint) > 0;
      var wallet := LargestWallet(e.v);
      var a := if dust then EnsureFor(e, q, Ata(wallet, m.mint, m.program)) else Next(q);
      if dust {
        EnsureForTells(e, q, Ata(wallet, m.mint, m.program));
      }
      if a.Next? {
        SubmitTells(e, a.pass,
          CloseTokenDist(m.mint, m.program, if dust then Some(wallet) else None, found && m.mint in q.ledger.withheld));
      }
    }
  }

  /** An account that cannot be read is no reason not to close: the close is submitted as for one without dust. */
  lemma UnreadAccountIsStillClosed(e: Env, p: Pass, m: MintInfo)
    requires Good(e, p) && IsOperational(e.tick(p.clock).fault) && e.canSubmit(p.guards) == Yes
    ensures var r := TryClose(e, p, m).pass;
            && |r.trace| == |p.trace| + 1 && p.trace <= r.trace
            && r.trace[|p.trace|].ix == CloseTokenDist(m.mint, m.program, None, false)
  {
    hide WellFormed, LandAll, Enabled, Land, LargestWallet;
  }

  lemma CloseDistEnds(e: Env, p: Pass, m: MintInfo)
    requires Between(e, p)
    ensures Ends(e, CloseDist(e, p, m))
  {
    hide WellFormed, Kept, Read, TryClose, Catch;
    ReadTells(e, p);
    var r := Read(e, p);
    if r.Next? {
      TryCloseTells(e, r.pass, m);
      CatchEnds(e, TryClose(e, r.pass, m), m.mint, "close_token_dist");
    }
  }

  lemma {:induction false} CloseDistsEnds(e: Env, p: Pass, mints: seq<MintInfo>)
    requires Between(e, p)
    ensures Ends(e, CloseDists(e, p, mints))
    decreases |mints|
  {
    hide WellFormed, Kept, CloseDist;
    if mints != [] {
      CloseDistEnds(e, p, mints[0]);
      var r := CloseDist(e, p, mints[0]);
      if r.Next? {
        CloseDistsEnds(e, r.pass, mints[1..]);
      }
    }
  }

  lemma PrepareEnds(e: Env, p: Pass)
    requires Between(e, p)
    ensures Ends(e, Prepare(e, p))
  {
    hide WellFormed, Kept, BeginLog, ReadPlan, CollectMints;
    BeginLogTells(e, p);
    var a := BeginLog(e, p);
    if a.Next? {
      ReadPlanTells(e, a.pass);
      var b := ReadPlan(e, a.pass);
      if b.Next? {
        CollectMintsTells(e, b.pass);
      }
    }
  }

  lemma PayBequestsEnds(e: Env, p: Pass)
    requires Between(e, p)
    ensures Ends(e, PayBequests(e, p))
  {
    hide WellFormed, Kept, BeginDists, Bequests;
    BeginDistsEnds(e, p, p.mints);
    var a := BeginDists(e, p, p.mints);
    if a.Next? {
      BequestsEnds(e, a.pass, 0);
    }
  }

  lemma CloseIfExecutedEnds(e: Env, p: Pass)
    requires Between(e, p)
    ensures Ends(e, CloseIfExecuted(e, p))
  {
    hide WellFormed, Kept, Read, CloseDists;
    ReadTells(e, p);
    var r := Read(e, p);
    if r.Next? {
      var q := r.pass.(executed := r.pass.ledger.executed);
      CloseDistsEnds(e, q, q.mints);
    }
  }

  lemma DistributeEnds(e: Env, p: Pass)
    requires Between(e, p)
    ensures Ends(e, Distribute(e, p))
  {
    hide WellFormed, Kept, PaySol, FinalizeIfFull, PayTokens, CloseIfExecuted;
    PaySolTells(e, p);
    var a := PaySol(e, p);
    if a.Next? {
      FinalizeTells(e, a.pass);
      var b := FinalizeIfFull(e, a.pass);
      if b.Next? {
        PayTokensEnds(e, b.pass, b.pass.mints);
        var c := PayTokens(e, b.pass, b.pass.mints);
        if c.Next? {
          CloseIfExecutedEnds(e, c.pass);
        }
      }
    }
  }

  lemma PhasesEnds(e: Env, p: Pass)
    requires Between(e, p)
    ensures Ends(e, Phases(e, p))
  {
    hide WellFormed, Kept, Prepare, PayBequests, Distribute;
    PrepareEnds(e, p);
    var a := Prepare(e, p);
    if a.Next? {
      PayBequestsEnds(e, a.pass);
      var b := PayBequests(e, a.pass);
      if b.Next? {
        DistributeEnds(e, b.pass);
      }
    }
  }

  lemma StartIsBetween(e: Env, s: State)
    requires Good(e, Start(s))
    ensures Between(e, Start(s))
  {
  }

  lemma CrankVaultEnds(e: Env, s: State)
    requires Good(e, Start(s))
    ensures Ends(e, CrankVault(e, Start(s)))
  {
    hide WellFormed, Kept, Read, Phases;
    StartIsBetween(e, s);
    ReadTells(e, Start(s));
    var r := Read(e, Start(s));
    if r.Next? {
      PhasesEnds(e, r.pass);
    }
  }
}
