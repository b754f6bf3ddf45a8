/**
 * What a pass that returns normally has paid, for every script: everything but what a mint it marked stuck
 * stood in the way of.
 */
module CrankPayments {
  import opened Prelude
  import opened Bits
  import opened Mints
  import opened Ledger
  import opened Crank
  import opened CrankSafety
  import opened CrankFailures

  const SOL_SKIP := Skip("SOL", "execute_specific_sol")

  /** Nobody else begins the distribution of the mint during the pass. */
  ghost predicate Undisturbed(e: Env, m: Pubkey) {
    forall k: nat, i :: 0 <= i < |e.tick(k).others| ==> !IsBegin(e.tick(k).others[i], m)
  }

  predicate IsBegin(ix: Ix, m: Pubkey) {
    ix.BeginTokenDist? && ix.mint == m
  }

  /** The mint has been begun, or the vault is past distribution. */
  predicate Known(s: State, m: Pubkey) {
    s.executed || m in s.dists
  }

  /**
   * Share i of the mint is paid, be its TokenDist closed since. Once the vault is executed others may begin a
   * mint anew, so then that is all that can be said of a mint that they disturb.
   */
  predicate SharePaid(undisturbed: bool, s: State, m: Pubkey, i: nat) {
    if m in s.dists && (undisturbed || !s.executed) then i < |s.dists[m].paid| && s.dists[m].paid[i] else s.executed
  }

  /** Distributed and closed. */
  predicate Gone(s: State, m: Pubkey) {
    s.executed && m !in s.dists
  }

  // ---- what paid shares survive ----

  lemma EffectKeepsShare(v: Vault, s: State, ix: Ix, undisturbed: bool, m: Pubkey, i: nat)
    requires WellFormed(v, s) && Enabled(v, s, ix) && (undisturbed ==> !IsBegin(ix, m))
    requires SharePaid(undisturbed, s, m, i)
    ensures SharePaid(undisturbed, Effect(v, s, ix), m, i)
  {
    hide WellFormed, Enabled, Effect;
    EffectGrows(v, s, ix);
    if undisturbed {
      DistsOnlyGain(v, s, ix, m);
    }
    if m in s.dists && m !in Effect(v, s, ix).dists {
      OnlyExecutedLoses(v, s, ix, m);
    }
  }

  lemma DistsOnlyGain(v: Vault, s: State, ix: Ix, m: Pubkey)
    requires WellFormed(v, s) && Enabled(v, s, ix) && !IsBegin(ix, m)
    ensures m !in s.dists ==> m !in Effect(v, s, ix).dists
    ensures m in s.dists && m in Effect(v, s, ix).dists ==> BitsGrow(s.dists[m].paid, Effect(v, s, ix).dists[m].paid)
  {
    hide SolCovered, MintCovered, Shelved, Shares, Owed, Due, Exists, AllSet, Debit, Pledged;
  }

  lemma OnlyExecutedLoses(v: Vault, s: State, ix: Ix, m: Pubkey)
    requires WellFormed(v, s) && Enabled(v, s, ix) && m in s.dists && m !in Effect(v, s, ix).dists
    ensures s.executed && Effect(v, s, ix).executed
  {
    hide SolCovered, MintCovered, Shelved, Shares, Owed, Due, Exists, AllSet, Debit, Pledged;
  }

  /** Paid shares stay paid and closed mints closed, as far as nobody begins them. */
  ghost predicate Lasts(e: Env, s: State, t: State) {
    && (forall m, i: nat :: SharePaid(Undisturbed(e, m), s, m, i) ==> SharePaid(Undisturbed(e, m), t, m, i))
    && (forall m :: Undisturbed(e, m) && Gone(s, m) ==> Gone(t, m))
    && (forall m :: Known(s, m) ==> Known(t, m))
  }

  lemma LastsTransitive(e: Env, a: State, b: State, c: State)
    requires Lasts(e, a, b) && Lasts(e, b, c)
    ensures Lasts(e, a, c)
  {
    hide Undisturbed, SharePaid, Gone, Known;
  }

  lemma LandLasts(e: Env, s: State, ix: Ix)
    requires e.v.Valid() && WellFormed(e.v, s) && forall m :: Undisturbed(e, m) ==> !IsBegin(ix, m)
    ensures Lasts(e, s, Land(e.v, s, ix))
  {
    hide WellFormed, Enabled, Effect, Undisturbed, SharePaid, IsBegin;
    if Enabled(e.v, s, ix) {
      EffectGrows(e.v, s, ix);
      forall m, i: nat | SharePaid(Undisturbed(e, m), s, m, i)
        ensures SharePaid(Undisturbed(e, m), Effect(e.v, s, ix), m, i)
      {
        EffectKeepsShare(e.v, s, ix, Undisturbed(e, m), m, i);
      }
      forall m | Undisturbed(e, m) && Gone(s, m) ensures Gone(Effect(e.v, s, ix), m) {
        DistsOnlyGain(e.v, s, ix, m);
      }
    }
  }

  lemma {:induction false} LandAllLasts(e: Env, s: State, ixs: seq<Ix>)
    requires e.v.Valid() && WellFormed(e.v, s)
    requires forall i, m :: 0 <= i < |ixs| && Undisturbed(e, m) ==> !IsBegin(ixs[i], m)
    ensures Lasts(e, s, LandAll(e.v, s, ixs))
    decreases |ixs|
  {
    hide WellFormed, Land, Undisturbed, SharePaid, Gone, Known, IsBegin;
    if ixs != [] {
      LandLasts(e, s, ixs[0]);
      LandAllLasts(e, Land(e.v, s, ixs[0]), ixs[1..]);
      LastsTransitive(e, s, Land(e.v, s, ixs[0]), LandAll(e.v, s, ixs));
    }
  }

  lemma AwaitLasts(e: Env, p: Pass)
    requires Good(e, p)
    ensures Lasts(e, p.ledger, Await(e, p).ledger)
  {
    hide WellFormed, SharePaid, Gone, Known, LandAll, IsBegin;
    forall i, m | 0 <= i < |e.tick(p.clock).others| && Undisturbed(e, m) ensures !IsBegin(e.tick(p.clock).others[i], m) {
    }
    LandAllLasts(e, p.ledger, e.tick(p.clock).others);
  }

  lemma SubmitLasts(e: Env, p: Pass, ix: Ix)
    requires Good(e, p) && !ix.BeginTokenDist?
    ensures Lasts(e, p.ledger, Submit(e, p, ix).pass.ledger)
  {
    hide WellFormed, Lasts, Land, LandAll, Enabled;
    LastsItself(e, p.ledger);
    AwaitLasts(e, p);
    var g := Guard(e, p);
    if g.Next? {
      var q := g.pass.(trace := g.pass.trace + [Submitted(ix, g.pass.ledger, g.pass.stuck)]);
      AwaitLasts(e, q);
      var w := Await(e, q);
      LandLasts(e, w.ledger, ix);
      LastsTransitive(e, p.ledger, q.ledger, w.ledger);
      LastsTransitive(e, p.ledger, w.ledger, Land(e.v, w.ledger, ix));
    }
  }

  lemma LastsItself(e: Env, s: State)
    ensures Lasts(e, s, s)
  {
  }

  lemma EnsureForLasts(e: Env, p: Pass, ata: Ata)
    requires Good(e, p)
    ensures Lasts(e, p.ledger, EnsureFor(e, p, ata).pass.ledger)
  {
    hide WellFormed, Lasts, Submit, LandAll;
    LastsItself(e, p.ledger);
    if ata.wallet !in e.v.offCurve {
      AwaitLasts(e, p);
      var r := Read(e, p);
      if r.Next? {
        SubmitLasts(e, r.pass, CreateAta(ata));
        LastsTransitive(e, p.ledger, r.pass.ledger, Submit(e, r.pass, CreateAta(ata)).pass.ledger);
      }
    }
  }

  // ---- begin_token_dist ----

  /** A mint is begun after its turn, or stuck, or the pass has stopped. */
  lemma BegunOrStuck(e: Env, p: Pass, m: MintInfo)
    requires Good(e, p) && p.ledger.log.Some?
    ensures BeginDist(e, p, m).Next? ==>
              m.mint in BeginDist(e, p, m).pass.stuck || m.mint in BeginDist(e, p, m).pass.ledger.dists
  {
    hide WellFormed, EnsureAta, Submit, AllFit, Wilts, Grows;
    AwaitSteps(e, p);
    var r := Read(e, p);
    if r.Next? && m.mint !in r.pass.ledger.dists {
      LogGrows(p, r.pass);
      var q := Enter(r.pass, TokenBlock(m.mint, "begin_token_dist"));
      EnsureAtaSteps(e, q, Ata(e.v.key, m.mint, m.program));
      var a := EnsureAta(e, q, Ata(e.v.key, m.mint, m.program));
      if a.Next? {
        LogGrows(q, a.pass);
        SubmitSteps(e, a.pass, BeginTokenDist(m.mint, m.program));
      }
    }
  }

  /** Every mint of the list is known or stuck. */
  ghost predicate AllKnown(p: Pass, mints: seq<MintInfo>) {
    forall i :: 0 <= i < |mints| ==> mints[i].mint in p.stuck || Known(p.ledger, mints[i].mint)
  }

  lemma AllKnownGrows(e: Env, p: Pass, q: Pass, mints: seq<MintInfo>)
    requires AllKnown(p, mints) && Step(e, p, q)
    ensures AllKnown(q, mints)
  {
    hide WellFormed, AllFit, Wilts;
  }

  lemma {:induction false} BeginDistsBegins(e: Env, p: Pass, mints: seq<MintInfo>)
    requires Good(e, p) && p.ledger.log.Some?
    ensures BeginDists(e, p, mints).Next? ==> AllKnown(BeginDists(e, p, mints).pass, mints)
    decreases |mints|
  {
    hide WellFormed, BeginDist, AllFit, Wilts, Grows;
    if mints != [] {
      BeginDistSteps(e, p, mints[0]);
      BegunOrStuck(e, p, mints[0]);
      var r := BeginDist(e, p, mints[0]);
      if r.Next? {
        LogGrows(p, r.pass);
        BeginDistsBegins(e, r.pass, mints[1..]);
        BeginDistsSteps(e, r.pass, mints[1..]);
        var t := BeginDists(e, p, mints);
        if t.Next? {
          AllKnownGrows(e, r.pass, t.pass, mints[..1]);
          forall i | 0 <= i < |mints| ensures mints[i].mint in t.pass.stuck || Known(t.pass.ledger, mints[i].mint) {
            if i > 0 { assert mints[1..][i - 1] == mints[i]; } else { assert mints[..1][0] == mints[0]; }
          }
        }
      }
    }
  }

  // ---- bequests ----

  /** Before index j a SOL bequest is paid, or one was skipped. */
  ghost predicate SolCoveredTo(e: Env, p: Pass, j: nat)
    requires Good(e, p) && j <= |e.v.Assignments()|
  {
    forall i :: 0 <= i < j && e.v.Assignments()[i].mint == DEFAULT_KEY ==> p.ledger.planPaid[i] || SOL_SKIP in p.skipped
  }

  lemma SolCoveredGrows(e: Env, p: Pass, q: Pass, j: nat)
    requires Step(e, p, q) && j <= |e.v.Assignments()| && SolCoveredTo(e, p, j)
    ensures SolCoveredTo(e, q, j)
  {
    hide SolCovered, MintCovered, Shelved, AllFit, Wilts;
    assert forall x :: x in p.skipped ==> x in q.skipped;
  }

  lemma SolBequestPaid(e: Env, p: Pass, j: nat)
    requires Good(e, p) && j < |e.v.Assignments()| && p.ledger.log.Some? && e.v.Assignments()[j].mint == DEFAULT_KEY
    requires Backed(e, p) && SolTurn(e.v, p.ledger, p.trace, j)
    ensures var r := Bequest(e, p, j); r.Next? ==> j < |r.pass.ledger.planPaid| && (r.pass.ledger.planPaid[j] || SOL_SKIP in r.pass.skipped)
  {
    hide Submit, Enabled, Effect, Land, SolCovered, MintCovered, Shelved, AllFit, Wilts, EarlierPaid;
    var q := Enter(p, SolBlock);
    SubmitSteps(e, q, SpecificSol(j));
  }

  lemma {:induction false} BequestsPay(e: Env, p: Pass, j: nat)
    requires Good(e, p) && j <= |e.v.Assignments()| && p.ledger.log.Some?
    requires Backed(e, p) && Covered(e, p, j) && SolTurn(e.v, p.ledger, p.trace, j) && SolCoveredTo(e, p, j)
    ensures var r := Bequests(e, p, j);
            r.Next? ==> Covered(e, r.pass, |e.v.Assignments()|) && SolCoveredTo(e, r.pass, |e.v.Assignments()|)
    decreases |e.v.Assignments()| - j
  {
    hide Bequest, WellFormed, AllFit, Wilts, Grows, Backed, SolTurn;
    if j < |e.v.Assignments()| {
      BequestSteps(e, p, j);
      var r := Bequest(e, p, j);
      if r.Next? {
        LogGrows(p, r.pass);
        SolCoveredGrows(e, p, r.pass, j);
        if e.v.Assignments()[j].mint == DEFAULT_KEY {
          SolBequestPaid(e, p, j);
        }
        BequestsPay(e, r.pass, j + 1);
      }
    }
  }

  // ---- SOL shares ----

  predicate SolPaidAt(s: State, i: nat) {
    s.log.Some? && i < |s.log.value.solPaid| && s.log.value.solPaid[i]
  }

  lemma {:induction false} SolBatchesPay(e: Env, p: Pass, parts: seq<seq<nat>>)
    requires Good(e, p) && p.ledger.log.Some? && AllBatches(e.v, parts)
    ensures SolBatches(e, p, parts).Next? ==> forall i :: i in Flatten(parts) ==> SolPaidAt(SolBatches(e, p, parts).pass.ledger, i)
    decreases |parts|
  {
    hide WellFormed, Submit, AllFit, Wilts, EarlierPaid;
    if parts != [] {
      SubmitSteps(e, p, SolShares(parts[0]));
      var r := Submit(e, p, SolShares(parts[0]));
      if r.Next? {
        SolBatchesPay(e, r.pass, parts[1..]);
        SolBatchesSteps(e, r.pass, parts[1..]);
      }
    }
  }

  lemma AllPaidAtLast(paid: seq<bool>, after: seq<bool>)
    requires BitsGrow(paid, after)
    requires forall i: nat :: i in Flatten(Chunk(Unpaid(Mask(paid), |paid|), BATCH)) ==> i < |after| && after[i]
    ensures AllSet(after)
  {
    UnpaidSpec(Mask(paid), |paid|);
    ChunkSpec(Unpaid(Mask(paid), |paid|), BATCH);
    var unpaid := Unpaid(Mask(paid), |paid|);
    assert Flatten(Chunk(unpaid, BATCH)) == unpaid;
    hide Mask, Chunk, Unpaid, BitSet, Flatten;
    forall i: nat | i < |after| ensures after[i] {
      BitSetReadsBit(paid, i);
      if !paid[i] { assert i in unpaid; }
    }
  }

  lemma PaySolPays(e: Env, p: Pass)
    requires Good(e, p)
    ensures var r := PaySol(e, p); r.Next? ==> r.pass.ledger.log.Some? && AllSet(r.pass.ledger.log.value.solPaid)
  {
    hide SolCovered, MintCovered, Shelved, SolBatches, AllFit, Wilts, AllSet, Chunk, Unpaid, Mask, LandAll;
    var r := ReadLog(e, p);
    if r.Next? {
      var paid := r.pass.ledger.log.value.solPaid;
      var parts := Chunk(Unpaid(r.pass.solMask, |e.v.beneficiaries|), BATCH);
      BatchesFit(e.v, r.pass.solMask);
      SolBatchesPay(e, r.pass, parts);
      SolBatchesSteps(e, r.pass, parts);
      var t := SolBatches(e, r.pass, parts);
      if t.Next? {
        AllPaidAtLast(paid, t.pass.ledger.log.value.solPaid);
      }
    }
  }

  // ---- token shares ----

  lemma {:induction false} EnsureAtasLasts(e: Env, p: Pass, m: MintInfo, part: seq<nat>)
    requires Good(e, p) && forall k :: 0 <= k < |part| ==> part[k] < |e.v.beneficiaries|
    ensures Lasts(e, p.ledger, EnsureAtas(e, p, m, part).pass.ledger)
    decreases |part|
  {
    hide WellFormed, Lasts, EnsureFor;
    LastsItself(e, p.ledger);
    if part != [] {
      var ata := Ata(e.v.Wallet(part[0]), m.mint, m.program);
      EnsureForLasts(e, p, ata);
      var r := EnsureFor(e, p, ata);
      if r.Next? {
        EnsureAtasLasts(e, r.pass, m, part[1..]);
        LastsTransitive(e, p.ledger, r.pass.ledger, EnsureAtas(e, p, m, part).pass.ledger);
      }
    }
  }

  /** A batch that went through has paid its indices. */
  lemma TokenBatchPays(e: Env, p: Pass, m: MintInfo, part: seq<nat>)
    requires Good(e, p) && Batch(e.v, part) && forall i :: i in part ==> e.v.Wallet(i) !in e.v.offCurve
    ensures var r := Submit(e, p, TokenShares(m.mint, m.program, part));
            && Lasts(e, p.ledger, r.pass.ledger)
            && (r.Next? ==> forall i :: i in part ==> SharePaid(Undisturbed(e, m.mint), r.pass.ledger, m.mint, i))
  {
    hide WellFormed, Submit, AllFit, Wilts, Grows, Lasts;
    SubmitSteps(e, p, TokenShares(m.mint, m.program, part));
    SubmitLasts(e, p, TokenShares(m.mint, m.program, part));
  }

  lemma {:induction false} TokenBatchesPay(e: Env, p: Pass, m: MintInfo, parts: seq<seq<nat>>)
    requires Good(e, p) && InRange(parts, |e.v.beneficiaries|) && AllBatches(e.v, parts)
    ensures var r := TokenBatches(e, p, m, parts);
            && Lasts(e, p.ledger, r.pass.ledger)
            && (r.Next? ==> forall i :: i in Flatten(parts) ==> SharePaid(Undisturbed(e, m.mint), r.pass.ledger, m.mint, i))
    decreases |parts|
  {
    hide WellFormed, Submit, EnsureAtas, Lasts, SharePaid, Undisturbed, AllFit, Wilts, Grows;
    LastsItself(e, p.ledger);
    if parts != [] {
      EnsureAtasLasts(e, p, m, parts[0]);
      EnsureAtasSteps(e, p, m, parts[0]);
      var a := EnsureAtas(e, p, m, parts[0]);
      if a.Next? {
        TokenBatchPays(e, a.pass, m, parts[0]);
        var b := Submit(e, a.pass, TokenShares(m.mint, m.program, parts[0]));
        LastsTransitive(e, p.ledger, a.pass.ledger, b.pass.ledger);
        if b.Next? {
          TokenBatchesPay(e, b.pass, m, parts[1..]);
          var r := TokenBatches(e, p, m, parts);
          LastsTransitive(e, p.ledger, b.pass.ledger, r.pass.ledger);
          SharesLast(e, b.pass.ledger, r.pass.ledger, m.mint, parts[0]);
        }
      }
    }
  }

  lemma SharesLast(e: Env, s: State, t: State, m: Pubkey, part: seq<nat>)
    requires Lasts(e, s, t) && forall i :: i in part ==> SharePaid(Undisturbed(e, m), s, m, i)
    ensures forall i :: i in part ==> SharePaid(Undisturbed(e, m), t, m, i)
  {
    hide SharePaid, Undisturbed;
  }

  /** All shares of the mint are paid. */
  ghost predicate SharesPaid(e: Env, s: State, m: Pubkey) {
    forall i: nat :: i < |e.v.beneficiaries| ==> SharePaid(Undisturbed(e, m), s, m, i)
  }

  lemma SharesPaidLast(e: Env, s: State, t: State, m: Pubkey)
    requires Lasts(e, s, t) && SharesPaid(e, s, m)
    ensures SharesPaid(e, t, m)
  {
    hide SharePaid, Undisturbed;
  }

  /** The bits that were set when the mask was read are paid, and after its batches the others are. */
  lemma MaskAndBatchesPay(e: Env, s: State, t: State, m: Pubkey)
    requires WellFormed(e.v, s) && m in s.dists && Lasts(e, s, t)
    requires forall i :: i in Flatten(Chunk(Unpaid(Mask(s.dists[m].paid), |e.v.beneficiaries|), BATCH)) ==>
               SharePaid(Undisturbed(e, m), t, m, i)
    ensures SharesPaid(e, t, m)
  {
    hide SolCovered, MintCovered, Shelved, Undisturbed;
    var paid := s.dists[m].paid;
    UnpaidSpec(Mask(paid), |paid|);
    ChunkSpec(Unpaid(Mask(paid), |paid|), BATCH);
    forall i: nat | i < |paid| ensures SharePaid(Undisturbed(e, m), t, m, i) {
      BitSetReadsBit(paid, i);
      if paid[i] {
        assert SharePaid(Undisturbed(e, m), s, m, i);
      } else {
        assert i in Unpaid(Mask(paid), |paid|);
      }
    }
  }

  lemma PayTokenPays(e: Env, p: Pass, m: MintInfo)
    requires Good(e, p) && (m.mint in p.stuck || Known(p.ledger, m.mint))
    ensures var r := PayToken(e, p, m);
            && Lasts(e, p.ledger, r.pass.ledger)
            && (r.Next? ==> m.mint in r.pass.stuck || SharesPaid(e, r.pass.ledger, m.mint))
  {
    hide WellFormed, Lasts, TokenBatches, Undisturbed, Mask, Unpaid, Chunk, LandAll;
    LastsItself(e, p.ledger);
    AwaitLasts(e, p);
    var r := Read(e, p);
    KnownLasts(e, p.ledger, r.pass.ledger);
    if m.mint !in p.stuck && r.Next? && m.mint in r.pass.ledger.dists {
      var mask := Mask(r.pass.ledger.dists[m.mint].paid);
      BatchesInRange(mask, |e.v.beneficiaries|);
      BatchesFit(e.v, mask);
      var parts := Chunk(Unpaid(mask, |e.v.beneficiaries|), BATCH);
      var q := Enter(r.pass, TokenBlock(m.mint, "execute_token_shares"));
      TokenBatchesPay(e, q, m, parts);
      var t := TokenBatches(e, q, m, parts);
      LastsTransitive(e, p.ledger, r.pass.ledger, t.pass.ledger);
      if t.Next? {
        MaskAndBatchesPay(e, r.pass.ledger, t.pass.ledger, m.mint);
      }
    }
  }

  lemma KnownLasts(e: Env, s: State, t: State)
    requires Lasts(e, s, t)
    ensures forall m :: Known(s, m) ==> Known(t, m)
  {
  }

  ghost predicate AllSharesPaid(e: Env, p: Pass, mints: seq<MintInfo>) {
    forall i :: 0 <= i < |mints| ==> mints[i].mint in p.stuck || SharesPaid(e, p.ledger, mints[i].mint)
  }

  lemma AllSharesLast(e: Env, p: Pass, q: Pass, mints: seq<MintInfo>)
    requires AllSharesPaid(e, p, mints) && Lasts(e, p.ledger, q.ledger) && p.stuck <= q.stuck
    ensures AllSharesPaid(e, q, mints)
  {
    hide Lasts, SharesPaid;
    forall i | 0 <= i < |mints| ensures mints[i].mint in q.stuck || SharesPaid(e, q.ledger, mints[i].mint) {
      if mints[i].mint !in q.stuck { SharesPaidLast(e, p.ledger, q.ledger, mints[i].mint); }
    }
  }

  lemma {:induction false} PayTokensPay(e: Env, p: Pass, mints: seq<MintInfo>)
    requires Good(e, p) && AllKnown(p, mints)
    ensures var r := PayTokens(e, p, mints);
            && Lasts(e, p.ledger, r.pass.ledger) && (r.Next? ==> AllSharesPaid(e, r.pass, mints))
    decreases |mints|
  {
    hide WellFormed, PayToken, Lasts, Known, AllFit, Wilts, Grows, SharesPaid;
    LastsItself(e, p.ledger);
    if mints != [] {
      PayTokenPays(e, p, mints[0]);
      PayTokenSteps(e, p, mints[0]);
      var q := PayToken(e, p, mints[0]);
      if q.Next? {
        KnownLasts(e, p.ledger, q.pass.ledger);
        PayTokensPay(e, q.pass, mints[1..]);
        PayTokensSteps(e, q.pass, mints[1..]);
        var r := PayTokens(e, p, mints);
        LastsTransitive(e, p.ledger, q.pass.ledger, r.pass.ledger);
        AllSharesLast(e, q.pass, r.pass, mints[..1]);
        if r.Next? {
          forall i | 0 <= i < |mints| ensures mints[i].mint in r.pass.stuck || SharesPaid(e, r.pass.ledger, mints[i].mint) {
            if i > 0 { assert mints[1..][i - 1] == mints[i]; } else { assert mints[..1][0] == mints[0]; }
          }
        }
      }
    }
  }

  // ---- close ----

  lemma TryCloseLasts(e: Env, p: Pass, m: MintInfo)
    requires Good(e, p)
    ensures Lasts(e, p.ledger, TryClose(e, p, m).pass.ledger)
  {
    hide WellFormed, Lasts, EnsureFor, Submit, LandAll, LargestWallet;
    var q := Peek(e, Enter(p, TokenBlock(m.mint, "close_token_dist")));
    AwaitLasts(e, Enter(p, TokenBlock(m.mint, "close_token_dist")));
    var found := e.tick(p.clock).fault == Fine && Exists(e.v, q.ledger, Ata(e.v.key, m.mint, m.program));
    var dust := found && OwnOf(q.ledger, m.mint) > 0;
    var wallet := LargestWallet(e.v);
    var a := if dust then EnsureFor(e, q, Ata(wallet, m.mint, m.program)) else Next(q);
    if dust {
      EnsureForLasts(e, q, Ata(wallet, m.mint, m.program));
      LastsTransitive(e, p.ledger, q.ledger, a.pass.ledger);
    }
    if a.Next? {
      var ix := CloseTokenDist(m.mint, m.program, if dust then Some(wallet) else None, found && m.mint in q.ledger.withheld);
      SubmitLasts(e, a.pass, ix);
      LastsTransitive(e, p.ledger, a.pass.ledger, Submit(e, a.pass, ix).pass.ledger);
    }
  }

  /** A TokenDist with a full mask is closed, or stuck, or the pass has stopped. */
  lemma CloseDistCloses(e: Env, p: Pass, m: MintInfo)
    requires Good(e, p) && p.ledger.executed
    ensures var r := CloseDist(e, p, m);
            && Lasts(e, p.ledger, r.pass.ledger) && r.pass.ledger.executed
            && (r.Next? && (m.mint in p.stuck || SharesPaid(e, p.ledger, m.mint)) && Undisturbed(e, m.mint) ==>
                  m.mint in r.pass.stuck || Gone(r.pass.ledger, m.mint))
  {
    hide SolCovered, MintCovered, Shelved, TryClose, Lasts, LandAll, AllFit, Wilts, Undisturbed;
    LastsItself(e, p.ledger);
    AwaitLasts(e, p);
    AwaitSteps(e, p);
    var r := Read(e, p);
    if m.mint !in p.stuck && r.Next? && m.mint in r.pass.ledger.dists {
      var paid := r.pass.ledger.dists[m.mint].paid;
      MaskIsFull(paid);
      TryCloseLasts(e, r.pass, m);
      TryCloseSteps(e, r.pass, m);
      LastsTransitive(e, p.ledger, r.pass.ledger, TryClose(e, r.pass, m).pass.ledger);
      if SharesPaid(e, p.ledger, m.mint) && Undisturbed(e, m.mint) {
        SharesPaidLast(e, p.ledger, r.pass.ledger, m.mint);
        FullyPaid(e, r.pass.ledger, m.mint);
      }
    }
  }

  lemma FullyPaid(e: Env, s: State, m: Pubkey)
    requires WellFormed(e.v, s) && SharesPaid(e, s, m) && Undisturbed(e, m) && m in s.dists
    ensures AllSet(s.dists[m].paid)
  {
    hide SolCovered, MintCovered, Shelved, Undisturbed;
    forall i: nat | i < |s.dists[m].paid| ensures s.dists[m].paid[i] {
      assert SharePaid(Undisturbed(e, m), s, m, i);
    }
  }

  /** Every undisturbed mint of the list is closed or stuck. */
  ghost predicate AllGone(e: Env, p: Pass, mints: seq<MintInfo>) {
    forall i :: 0 <= i < |mints| && Undisturbed(e, mints[i].mint) ==> mints[i].mint in p.stuck || Gone(p.ledger, mints[i].mint)
  }

  lemma AllGoneLasts(e: Env, p: Pass, q: Pass, mints: seq<MintInfo>)
    requires AllGone(e, p, mints) && Lasts(e, p.ledger, q.ledger) && p.stuck <= q.stuck
    ensures AllGone(e, q, mints)
  {
    hide Undisturbed, SharePaid, Gone, Known;
  }

  lemma {:induction false} CloseDistsClose(e: Env, p: Pass, mints: seq<MintInfo>)
    requires Good(e, p) && p.ledger.executed && AllSharesPaid(e, p, mints)
    ensures var r := CloseDists(e, p, mints);
            && Lasts(e, p.ledger, r.pass.ledger) && (r.Next? ==> AllGone(e, r.pass, mints))
    decreases |mints|
  {
    hide WellFormed, CloseDist, Lasts, SharesPaid, Gone, Undisturbed, AllFit, Wilts, Grows;
    LastsItself(e, p.ledger);
    if mints != [] {
      CloseDistCloses(e, p, mints[0]);
      CloseDistSteps(e, p, mints[0]);
      var q := CloseDist(e, p, mints[0]);
      if q.Next? {
        AllSharesLast(e, p, q.pass, mints);
        assert AllSharesPaid(e, q.pass, mints[1..]);
        CloseDistsClose(e, q.pass, mints[1..]);
        CloseDistsSteps(e, q.pass, mints[1..]);
        var r := CloseDists(e, p, mints);
        LastsTransitive(e, p.ledger, q.pass.ledger, r.pass.ledger);
        AllGoneLasts(e, q.pass, r.pass, mints[..1]);
        if r.Next? {
          forall i | 0 <= i < |mints| && Undisturbed(e, mints[i].mint)
            ensures mints[i].mint in r.pass.stuck || Gone(r.pass.ledger, mints[i].mint)
          {
            if i > 0 { assert mints[1..][i - 1] == mints[i]; } else { assert mints[..1][0] == mints[0]; }
          }
        }
      }
    }
  }

  // ---- the pass ----

  /** Everything is paid but what the stuck mints and the skipped SOL bequests stand for. */
  ghost predicate ElsePaid(e: Env, p: Pass) {
    && p.ledger.log.Some? && AllSet(p.ledger.log.value.solPaid)
    && |p.ledger.planPaid| == |e.v.Assignments()|
    && (forall j :: 0 <= j < |e.v.Assignments()| && !p.ledger.planPaid[j] ==>
          if e.v.Assignments()[j].mint == DEFAULT_KEY then SOL_SKIP in p.skipped else e.v.Assignments()[j].mint in p.stuck)
    && AllSharesPaid(e, p, p.mints)
    && (p.executed ==> AllGone(e, p, p.mints))
  }

  lemma PayBequestsPay(e: Env, p: Pass)
    requires Good(e, p) && p.ledger.log.Some? && (e.v.plan.Some? ==> Backed(e, p))
    ensures var r := PayBequests(e, p);
            r.Next? ==>
              && AllKnown(r.pass, p.mints) && r.pass.mints == p.mints
              && Covered(e, r.pass, |e.v.Assignments()|) && SolCoveredTo(e, r.pass, |e.v.Assignments()|)
  {
    hide WellFormed, BeginDists, Bequests, AllFit, Wilts, Grows;
    BeginDistsBegins(e, p, p.mints);
    BeginDistsSteps(e, p, p.mints);
    var a := BeginDists(e, p, p.mints);
    if a.Next? {
      LogGrows(p, a.pass);
      if e.v.plan.None? {
        NoBequests(e, a.pass);
      } else {
        StillBacked(e, p, a.pass);
        BequestsPay(e, a.pass, 0);
        BequestsSteps(e, a.pass, 0);
        var r := Bequests(e, a.pass, 0);
        AllKnownGrows(e, a.pass, r.pass, p.mints);
      }
    }
  }

  lemma NoBequests(e: Env, p: Pass)
    requires Good(e, p) && e.v.plan.None?
    ensures Bequests(e, p, 0) == Next(p)
  {
  }

  lemma StillBacked(e: Env, p: Pass, q: Pass)
    requires Step(e, p, q) && q.planMask == p.planMask && Backed(e, p)
    ensures Backed(e, q) && Covered(e, q, 0) && SolTurn(e.v, q.ledger, q.trace, 0)
  {
    hide SolCovered, MintCovered, Shelved, AllFit, Wilts;
  }

  /** What the ledger has only gains. */
  ghost predicate PlanCovered(e: Env, p: Pass) {
    && |p.ledger.planPaid| == |e.v.Assignments()|
    && (forall j :: 0 <= j < |e.v.Assignments()| && !p.ledger.planPaid[j] ==>
          if e.v.Assignments()[j].mint == DEFAULT_KEY then SOL_SKIP in p.skipped else e.v.Assignments()[j].mint in p.stuck)
  }

  lemma PlanCoveredGrows(e: Env, p: Pass, q: Pass)
    requires PlanCovered(e, p) && Step(e, p, q)
    ensures PlanCovered(e, q)
  {
    hide SolCovered, MintCovered, Shelved, AllFit, Wilts;
    assert forall x :: x in p.skipped ==> x in q.skipped;
  }

  lemma SolPaidGrows(e: Env, p: Pass, q: Pass)
    requires p.ledger.log.Some? && AllSet(p.ledger.log.value.solPaid) && Step(e, p, q)
    ensures q.ledger.log.Some? && AllSet(q.ledger.log.value.solPaid)
  {
    hide WellFormed, AllFit, Wilts;
  }

  lemma CloseIfExecutedCloses(e: Env, p: Pass)
    requires Good(e, p) && AllSharesPaid(e, p, p.mints)
    ensures var r := CloseIfExecuted(e, p);
            r.Next? ==> AllSharesPaid(e, r.pass, p.mints) && (r.pass.executed ==> AllGone(e, r.pass, p.mints))
  {
    hide WellFormed, CloseDists, Lasts, AllSharesPaid, AllGone, LandAll;
    AwaitLasts(e, p);
    var a := Read(e, p);
    var q := a.pass.(executed := a.pass.ledger.executed);
    AllSharesLast(e, p, q, p.mints);
    if a.Next? && q.executed {
      CloseDistsClose(e, q, q.mints);
      CloseDistsSteps(e, q, q.mints);
      var r := CloseDists(e, q, q.mints);
      AllSharesLast(e, q, r.pass, p.mints);
    }
  }

  lemma DistributePays(e: Env, p: Pass)
    requires Good(e, p) && AllKnown(p, p.mints) && PlanCovered(e, p)
    ensures Distribute(e, p).Next? ==> ElsePaid(e, Distribute(e, p).pass)
  {
    hide WellFormed, PaySol, FinalizeIfFull, PayTokens, CloseIfExecuted, Step, AllKnown, PlanCovered, AllSharesPaid, AllGone;
    PaySolPays(e, p);
    PaySolSteps(e, p);
    var a := PaySol(e, p);
    if a.Next? {
      FinalizeSteps(e, a.pass);
      var b := FinalizeIfFull(e, a.pass);
      if b.Next? {
        AllKnownGrows(e, p, a.pass, p.mints);
        AllKnownGrows(e, a.pass, b.pass, p.mints);
        PayTokensPay(e, b.pass, b.pass.mints);
        PayTokensSteps(e, b.pass, b.pass.mints);
        var c := PayTokens(e, b.pass, b.pass.mints);
        if c.Next? {
          CloseIfExecutedCloses(e, c.pass);
          CloseIfExecutedSteps(e, c.pass);
          var d := CloseIfExecuted(e, c.pass);
          StepTransitive(e, a.pass, b.pass, c.pass);
          StepTransitive(e, a.pass, c.pass, d.pass);
          StepTransitive(e, p, a.pass, d.pass);
          PlanCoveredGrows(e, p, d.pass);
          SolPaidGrows(e, a.pass, d.pass);
          PlanCoveredMeans(e, d.pass);
        }
      }
    }
  }

  lemma PlanCoveredMeans(e: Env, p: Pass)
    requires PlanCovered(e, p)
    ensures |p.ledger.planPaid| == |e.v.Assignments()|
    ensures forall j :: 0 <= j < |e.v.Assignments()| && !p.ledger.planPaid[j] ==>
              if e.v.Assignments()[j].mint == DEFAULT_KEY then SOL_SKIP in p.skipped else e.v.Assignments()[j].mint in p.stuck
  {
  }

  lemma PhasesPay(e: Env, p: Pass)
    requires Good(e, p)
    ensures Phases(e, p).Next? ==> ElsePaid(e, Phases(e, p).pass)
  {
    hide WellFormed, Prepare, PayBequests, Distribute, AllFit, Wilts, Grows, AllKnown, ElsePaid, Backed;
    PrepareSteps(e, p);
    var a := Prepare(e, p);
    if a.Next? {
      PayBequestsPay(e, a.pass);
      PayBequestsSteps(e, a.pass);
      var b := PayBequests(e, a.pass);
      if b.Next? {
        CoveredIsPlanCovered(e, b.pass);
        DistributePays(e, b.pass);
      }
    }
  }

  lemma CoveredIsPlanCovered(e: Env, p: Pass)
    requires Good(e, p) && Covered(e, p, |e.v.Assignments()|) && SolCoveredTo(e, p, |e.v.Assignments()|)
    ensures PlanCovered(e, p)
  {
    hide SolCovered, MintCovered, Shelved;
  }

  // ---- main results ----

  /**
   * Every exception finds its place, for every script: only the last call of a pass can have failed otherwise than
   * operationally within a try block, and the pass ends in an exception exactly if it did or the guard refused. An
   * operational exception that leaves the pass was thrown outside the try blocks. Each failure before it, and no
   * other, is one entry of the skipped list, and the mints marked stuck are those of its token steps.
   */
  lemma FailuresReachCallerOrSkipList(e: Env, s: State)
    requires Good(e, Start(s))
    ensures var r := CrankVault(e, Start(s));
            var calls := r.pass.calls;
            && (r.Next? <==> AllSurvived(calls) && !(r.Stop? && r.why == Halted))
            && (r.Stop? && r.why == Halted ==> Refused(e, r.pass) && AllSurvived(calls))
            && (r.Stop? && r.why != Halted ==>
                  && calls != [] && calls[|calls| - 1].failure == Some(r.why.fault) && AllSurvived(calls[..|calls| - 1])
                  && (calls[|calls| - 1].block == Outside || r.why.fault == Fatal))
            && (forall k :: 0 <= k < |calls| ==> Honest(e, calls[k]))
            && r.pass.skipped == Skips(calls)
            && (forall m :: m in r.pass.stuck <==> TokenFailed(calls, m))
  {
    hide CrankVault, SolCovered, MintCovered, Shelved;
    CrankVaultEnds(e, s);
    var r := CrankVault(e, Start(s));
    if r.Stop? && r.why.Raised? {
      var n := |r.pass.calls| - 1;
      assert r.pass.calls == r.pass.calls[..n] + [r.pass.calls[n]];
      SkipsAppend(r.pass.calls[..n], r.pass.calls[n]);
    }
  }

  /** A fatal fault of any call, in a token step or not, is what the pass throws. */
  lemma FatalReachesCaller(e: Env, s: State, k: nat)
    requires Good(e, Start(s)) && k < |CrankVault(e, Start(s)).pass.calls|
    requires e.tick(CrankVault(e, Start(s)).pass.calls[k].clock).fault == Fatal
    ensures CrankVault(e, Start(s)) == Stop(CrankVault(e, Start(s)).pass, Raised(Fatal))
  {
    hide CrankVault, WellFormed;
    FailuresReachCallerOrSkipList(e, s);
  }

  /** What a pass that returns normally has paid, for every script. */
  lemma ReturnedPassPaidTheRest(e: Env, s: State)
    requires Good(e, Start(s))
    ensures CrankVault(e, Start(s)).Next? ==> ElsePaid(e, CrankVault(e, Start(s)).pass)
  {
    hide Phases, WellFormed, ElsePaid, LandAll;
    var r := Read(e, Start(s));
    if r.Next? {
      PhasesPay(e, r.pass);
    }
  }

  /** The only failures of the pass are operational ones in token steps of mints in M. */
  ghost predicate OnlyTokenFailures(calls: seq<Call>, M: set<Pubkey>) {
    forall k :: 0 <= k < |calls| && calls[k].failure.Some? ==>
      IsOperational(calls[k].failure.value) && calls[k].block.TokenBlock? && calls[k].block.mint in M
  }

  /**
   * Main result: whatever others do meanwhile, if the only failures of a pass are operational ones in token steps
   * of mints in M, the pass returns normally; all SOL shares and every bequest of SOL or of a mint outside M are
   * paid; of every collected mint outside M the shares are paid and, if the vault is executed, the TokenDist is
   * closed; and the mints marked stuck and skipped are exactly those of which a step failed, all in M.
   */
  lemma StuckMintsAreLeftBehind(e: Env, s: State, M: set<Pubkey>)
    requires Good(e, Start(s)) && forall k: nat :: e.canSubmit(k) == Yes
    requires OnlyTokenFailures(CrankVault(e, Start(s)).pass.calls, M)
    ensures var r := CrankVault(e, Start(s));
            var (t, mints) := (r.pass.ledger, r.pass.mints);
            && r.Next?
            && t.log.Some? && AllSet(t.log.value.solPaid) && |t.planPaid| == |e.v.Assignments()|
            && (forall j :: 0 <= j < |e.v.Assignments()| && e.v.Assignments()[j].mint !in M ==> t.planPaid[j])
            && (forall j :: 0 <= j < |e.v.Assignments()| && e.v.Assignments()[j].mint == DEFAULT_KEY ==> t.planPaid[j])
            && (forall i :: 0 <= i < |mints| && mints[i].mint !in M ==> SharesPaid(e, t, mints[i].mint))
            && (forall i :: 0 <= i < |mints| && mints[i].mint !in M && r.pass.executed && Undisturbed(e, mints[i].mint) ==>
                  Gone(t, mints[i].mint))
            && (forall m :: m in r.pass.stuck <==> FailedIn(r.pass.calls, m)) && r.pass.stuck <= M
            && (forall m :: m in r.pass.stuck <==> exists x :: x in r.pass.skipped && x.mint == m)
  {
    hide CrankVault, WellFormed, SharesPaid, Gone, Undisturbed;
    ReturnedPassPaidTheRest(e, s);
    FailuresReachCallerOrSkipList(e, s);
    var r := CrankVault(e, Start(s));
    OnlyTokensSkipped(e, r.pass.calls, M);
  }

  lemma {:induction false} SkippedSpec(calls: seq<Call>, x: Skip)
    ensures x in Skips(calls) <==> exists k :: 0 <= k < |calls| && Survived(calls[k]) && SkipOf(calls[k]) == x
  {
    if calls != [] {
      var n := |calls| - 1;
      SkippedSpec(calls[..n], x);
      if k :| 0 <= k < n && Survived(calls[k]) && SkipOf(calls[k]) == x {
        assert calls[..n][k] == calls[k];
      }
    }
  }

  lemma OnlyTokensSkipped(e: Env, calls: seq<Call>, M: set<Pubkey>)
    requires OnlyTokenFailures(calls, M) && forall k :: 0 <= k < |calls| ==> Honest(e, calls[k])
    ensures SOL_SKIP !in Skips(calls)
    ensures forall m :: TokenFailed(calls, m) <==> FailedIn(calls, m)
    ensures forall m :: FailedIn(calls, m) ==> m in M
    ensures forall m :: FailedIn(calls, m) <==> exists x :: x in Skips(calls) && x.mint == m
  {
    SkippedSpec(calls, SOL_SKIP);
    forall m ensures FailedIn(calls, m) <==> exists x :: x in Skips(calls) && x.mint == m {
      if k :| 0 <= k < |calls| && calls[k].failure.Some? && calls[k].block.TokenBlock? && calls[k].block.mint == m {
        SkippedSpec(calls, SkipOf(calls[k]));
      }
      if x :| x in Skips(calls) && x.mint == m {
        SkippedSpec(calls, x);
      }
    }
  }

  predicate FailedIn(calls: seq<Call>, m: Pubkey) {
    exists k :: 0 <= k < |calls| && calls[k].failure.Some? && calls[k].block.TokenBlock? && calls[k].block.mint == m
  }
}
