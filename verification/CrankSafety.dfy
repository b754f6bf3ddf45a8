/**
 * What every pass keeps, for every script: whatever other crankers do at any await, whatever call
 * faults and whenever the guard halts the pass, each submission fits the ledger it is sent to.
 */
module CrankSafety {
  import opened Prelude
  import opened Bits
  import opened Mints
  import opened Ledger
  import opened Crank

  /** Whether sending `ix` makes sense on this ledger. It stays true as the ledger grows. */
  ghost predicate Fits(v: Vault, s: State, stuck: set<Pubkey>, ix: Ix)
    requires WellFormed(v, s)
  {
    match ix
    case CreateAta(_) => true
    case BeginExecution => true
    case BeginTokenDist(_, _) => s.log.Some?
    case SpecificAsset(j, _) =>
      j < |s.planPaid| && EarlierPaid(v, s.planPaid, j) && v.Wallet(v.Assignments()[j].beneficiary) !in v.offCurve
    case SpecificSol(j) => s.log.Some? && j < |s.planPaid| && v.Assignments()[j].mint == DEFAULT_KEY
    case SolShares(indices) => s.log.Some? && Batch(v, indices)
    case Finalize => stuck == {} && s.log.Some? && AllSet(s.log.value.solPaid) && AllSet(s.planPaid)
    case TokenShares(_, _, indices) => Batch(v, indices) && forall i :: i in indices ==> v.Wallet(i) !in v.offCurve
    case CloseTokenDist(_, _, dustTo, _) =>
      s.executed && (dustTo.Some? ==> dustTo.value == LargestWallet(v) && LargestWallet(v) !in v.offCurve)
    case _ => false
  }

  ghost predicate Batch(v: Vault, indices: seq<nat>) {
    1 <= |indices| <= BATCH && AllBelow(indices, |v.beneficiaries|)
  }

  ghost predicate AllBatches(v: Vault, parts: seq<seq<nat>>) {
    forall k :: 0 <= k < |parts| ==> Batch(v, parts[k])
  }

  /** The pass has submitted this SOL bequest. */
  ghost predicate Tried(trace: seq<Event>, i: nat) {
    exists k :: 0 <= k < |trace| && trace[k].ix == SpecificSol(i)
  }

  /** Every earlier SOL bequest is paid or was tried. */
  ghost predicate SolTurn(v: Vault, s: State, trace: seq<Event>, j: nat) {
    && j <= |v.Assignments()| == |s.planPaid|
    && forall i :: 0 <= i < j && v.Assignments()[i].mint == DEFAULT_KEY && !s.planPaid[i] ==> Tried(trace, i)
  }

  ghost predicate AllFit(v: Vault, trace: seq<Event>) {
    forall k :: 0 <= k < |trace| ==>
      && WellFormed(v, trace[k].seen) && Fits(v, trace[k].seen, trace[k].stuck, trace[k].ix)
      && (trace[k].ix.SpecificSol? ==> SolTurn(v, trace[k].seen, trace[..k], trace[k].ix.j))
  }

  lemma FitsGrows(v: Vault, s: State, s': State, stuck: set<Pubkey>, ix: Ix)
    requires WellFormed(v, s) && WellFormed(v, s') && Grows(s, s') && Fits(v, s, stuck, ix)
    ensures Fits(v, s', stuck, ix)
  {
    hide SolCovered, MintCovered, Shelved;
  }

  // ---- what a quiet pass cannot mend ----

  /** An open TokenDist whose associated account was never created. */
  predicate Barren(s: State, m: Pubkey) {
    m in s.dists && m !in s.own
  }

  /** A mint without a TokenDist for which none can be begun. */
  predicate Unopenable(v: Vault, s: State, m: Pubkey) {
    m !in s.dists && OwnOf(s, m) == 0 && !v.Bequeaths(m)
  }

  /**
   * An unpaid bequest: of SOL to the vault itself, or of a mint that is gone or barren, or to a wallet that can
   * have no associated account.
   */
  predicate Unpayable(v: Vault, s: State, j: nat) {
    && j < |v.Assignments()| == |s.planPaid| && !s.planPaid[j] && v.Assignments()[j].beneficiary < |v.beneficiaries|
    && var (mint, wallet) := (v.Assignments()[j].mint, v.Wallet(v.Assignments()[j].beneficiary));
    if mint == DEFAULT_KEY then wallet == v.key
    else mint !in v.programOf || wallet in v.offCurve || Barren(s, mint)
  }

  /** An unpaid SOL share, not rounded to nothing, that would go to the vault itself. */
  predicate SolStuck(v: Vault, s: State, i: nat) {
    && (s.log.Some? ==> |s.log.value.solPaid| == |v.beneficiaries|)
    && i < |v.beneficiaries| && !LogOf(v, s).solPaid[i] && Shares(v, LogOf(v, s).snapshot)[i] > 0 && v.Wallet(i) == v.key
  }

  /** An open TokenDist that will leave dust, for a wallet that can have no associated account. */
  predicate Undustable(v: Vault, s: State, m: Pubkey) {
    m in s.dists && DustOf(v, s, m) > 0 && v.beneficiaries != [] && LargestWallet(v) in v.offCurve
  }

  /** A share that is not paid yet, for a wallet that can have no associated account. */
  predicate Unsharable(v: Vault, s: State, m: Pubkey, i: nat) {
    && i < |v.beneficiaries| && v.Wallet(i) in v.offCurve
    && (m in s.dists ==> |s.dists[m].paid| == |v.beneficiaries| && !s.dists[m].paid[i])
  }

  ghost predicate Wilts(v: Vault, s: State, s': State) {
    && (forall m :: Barren(s, m) ==> Barren(s', m))
    && (forall m :: Unopenable(v, s, m) ==> Unopenable(v, s', m))
    && (forall j :: Unpayable(v, s, j) ==> Unpayable(v, s', j))
    && (forall m, i :: Unsharable(v, s, m, i) ==> Unsharable(v, s', m, i) && (m in s.dists ==> m in s'.dists))
    && (forall i :: SolStuck(v, s, i) ==> SolStuck(v, s', i))
    && (forall m :: Undustable(v, s, m) ==> Undustable(v, s', m))
  }

  /** The one submission that could mend a barren mint, if others had begun it meanwhile. */
  predicate Mends(v: Vault, s: State, ix: Ix) {
    ix.CreateAta? && ix.ata.wallet == v.key && ix.ata.mint in s.dists
  }

  lemma AccountsWilt(v: Vault, s: State, stuck: set<Pubkey>, ix: Ix)
    requires WellFormed(v, s) && Fits(v, s, stuck, ix) && !Mends(v, s, ix)
    ensures forall m :: Barren(s, m) ==> Barren(Land(v, s, ix), m)
    ensures forall m :: Unopenable(v, s, m) ==> Unopenable(v, Land(v, s, ix), m)
  {
    hide SolCovered, MintCovered, Shelved, Shares, Owed, Pledged, Due, LargestShareIndex, EarlierPaid, Batch, AllSet, Debit;
  }

  lemma BequestsWilt(v: Vault, s: State, stuck: set<Pubkey>, ix: Ix)
    requires WellFormed(v, s) && Fits(v, s, stuck, ix) && !Mends(v, s, ix)
    ensures forall j :: Unpayable(v, s, j) ==> Unpayable(v, Land(v, s, ix), j)
  {
    hide SolCovered, MintCovered, Shelved, Shares, Owed, Pledged, Due, LargestShareIndex, EarlierPaid, Batch, AllSet, Debit;
  }

  lemma TokenSharesWilt(v: Vault, s: State, stuck: set<Pubkey>, ix: Ix)
    requires WellFormed(v, s) && Enabled(v, s, ix) && Fits(v, s, stuck, ix)
    requires ix.TokenShares? || ix.BeginTokenDist? || ix.CloseTokenDist?
    ensures var t := Effect(v, s, ix);
            forall m, i :: Unsharable(v, s, m, i) ==> Unsharable(v, t, m, i) && (m in s.dists ==> m in t.dists)
  {
    hide SolCovered, MintCovered, Shelved, Shares, Owed, Pledged, Due, LargestWallet, Exists, Debit;
  }

  lemma OthersKeepDists(v: Vault, s: State, ix: Ix)
    requires WellFormed(v, s) && Enabled(v, s, ix) && !ix.TokenShares? && !ix.BeginTokenDist? && !ix.CloseTokenDist?
    ensures Effect(v, s, ix).dists == s.dists
  {
    hide WellFormed, Exists, Debit, Due;
  }

  lemma SharesWilt(v: Vault, s: State, stuck: set<Pubkey>, ix: Ix)
    requires WellFormed(v, s) && Fits(v, s, stuck, ix)
    ensures forall m, i :: Unsharable(v, s, m, i) ==>
              Unsharable(v, Land(v, s, ix), m, i) && (m in s.dists ==> m in Land(v, s, ix).dists)
  {
    hide WellFormed, Enabled, Effect, Fits;
    if Enabled(v, s, ix) {
      if ix.TokenShares? || ix.BeginTokenDist? || ix.CloseTokenDist? {
        TokenSharesWilt(v, s, stuck, ix);
      } else {
        OthersKeepDists(v, s, ix);
      }
    }
  }

  lemma SolWilts(v: Vault, s: State, stuck: set<Pubkey>, ix: Ix)
    requires WellFormed(v, s) && Fits(v, s, stuck, ix)
    ensures forall i :: SolStuck(v, s, i) ==> SolStuck(v, Land(v, s, ix), i)
  {
    hide SolCovered, MintCovered, Shelved, Shares, Owed, Pledged, Due, LargestWallet, EarlierPaid, Debit, Exists;
  }

  /** Dust stays as it is, and with it in the account no close without a wallet for it lands. */
  lemma EffectKeepsDust(v: Vault, s: State, stuck: set<Pubkey>, ix: Ix, m: Pubkey)
    requires WellFormed(v, s) && Enabled(v, s, ix) && Fits(v, s, stuck, ix) && Undustable(v, s, m)
    ensures Undustable(v, Effect(v, s, ix), m)
  {
    hide SolCovered, MintCovered, Shelved, Shares, Owed, Pledged, Due, LargestWallet, EarlierPaid, Debit, DustOf, Batch;
    if ix.SpecificAsset? || ix.SpecificSol? {
      BequestKeepsDust(v, s, ix, m);
    } else if ix.SolShares? || ix.TokenShares? {
      SharesKeepDust(v, s, ix, m);
    } else if ix.CloseTokenDist? && ix.mint == m {
      DustIsBalance(v, s, m);
    } else {
      SameDust(v, s, Effect(v, s, ix), m);
    }
  }

  lemma SameDust(v: Vault, s: State, t: State, m: Pubkey)
    requires m in s.dists && m in t.dists && t.dists[m] == s.dists[m] && t.planPaid == s.planPaid && OwnOf(t, m) == OwnOf(s, m)
    ensures DustOf(v, t, m) == DustOf(v, s, m)
  {
  }

  lemma DustWilts(v: Vault, s: State, stuck: set<Pubkey>, ix: Ix)
    requires WellFormed(v, s) && Fits(v, s, stuck, ix)
    ensures forall m :: Undustable(v, s, m) ==> Undustable(v, Land(v, s, ix), m)
  {
    hide WellFormed, Enabled, Effect, Fits, Undustable;
    forall m | Undustable(v, s, m) ensures Undustable(v, Land(v, s, ix), m) {
      if Enabled(v, s, ix) {
        EffectKeepsDust(v, s, stuck, ix, m);
      }
    }
  }

  lemma LandWilts(v: Vault, s: State, stuck: set<Pubkey>, ix: Ix)
    requires WellFormed(v, s) && Fits(v, s, stuck, ix) && !Mends(v, s, ix)
    ensures Wilts(v, s, Land(v, s, ix))
  {
    hide WellFormed, Fits, Land, Mends, Barren, Unopenable, Unpayable, Unsharable, SolStuck, Undustable;
    SolWilts(v, s, stuck, ix);
    DustWilts(v, s, stuck, ix);
    AccountsWilt(v, s, stuck, ix);
    BequestsWilt(v, s, stuck, ix);
    SharesWilt(v, s, stuck, ix);
  }

  // ---- steps ----

  /** From p to q nothing on the ledger was undone, every new submission fits, and without others nothing was mended. */
  ghost predicate Step(e: Env, p: Pass, q: Pass) {
    && Good(e, p) && Good(e, q)
    && Grows(p.ledger, q.ledger)
    && p.stuck <= q.stuck && p.trace <= q.trace && p.skipped <= q.skipped
    && (AllFit(e.v, p.trace) ==> AllFit(e.v, q.trace))
    && (Quiet(e) ==> Wilts(e.v, p.ledger, q.ledger))
  }

  /** The local variables that a phase only reads. */
  ghost predicate SameLocals(p: Pass, q: Pass) {
    q.planMask == p.planMask && q.solMask == p.solMask && q.completed == p.completed && q.mints == p.mints
    && q.executed == p.executed
  }

  lemma StepTransitive(e: Env, p: Pass, q: Pass, r: Pass)
    requires Step(e, p, q) && Step(e, q, r)
    ensures Step(e, p, r)
  {
    hide WellFormed, Grows, AllFit, Barren, Unopenable, Unpayable, Unsharable, SolStuck, Undustable;
    GrowsTransitive(p.ledger, q.ledger, r.ledger);
  }

  /** Only the variables of the program changed. */
  lemma SameStep(e: Env, p: Pass, q: Pass)
    requires Good(e, p) && q.ledger == p.ledger && q.trace == p.trace && p.stuck <= q.stuck && p.skipped <= q.skipped
    ensures Step(e, p, q)
  {
    hide WellFormed, AllFit;
    GrowsReflexive(p.ledger);
  }

  lemma AwaitSteps(e: Env, p: Pass)
    requires Good(e, p)
    ensures Step(e, p, Await(e, p)) && SameLocals(p, Await(e, p))
    ensures Quiet(e) ==> Await(e, p).ledger == p.ledger
  {
    hide WellFormed, Grows, AllFit, Land;
    LandAllGrows(e.v, p.ledger, e.tick(p.clock).others);
  }

  /** What must hold of a submission at the ledger it leaves from. */
  ghost predicate Sendable(e: Env, p: Pass, ix: Ix)
    requires Good(e, p)
  {
    && Fits(e.v, p.ledger, p.stuck, ix)
    && (ix.SpecificSol? ==> SolTurn(e.v, p.ledger, p.trace, ix.j))
    && (Quiet(e) ==> !Mends(e.v, p.ledger, ix))
  }

  lemma TraceGrows(e: Env, p: Pass, ix: Ix)
    requires Good(e, p) && Sendable(e, p, ix)
    ensures Step(e, p, p.(trace := p.trace + [Submitted(ix, p.ledger, p.stuck)]))
  {
    hide WellFormed, Fits, SolTurn;
    var q := p.(trace := p.trace + [Submitted(ix, p.ledger, p.stuck)]);
    GrowsReflexive(p.ledger);
    if AllFit(e.v, p.trace) {
      forall k | 0 <= k < |q.trace|
        ensures WellFormed(e.v, q.trace[k].seen) && Fits(e.v, q.trace[k].seen, q.trace[k].stuck, q.trace[k].ix)
        ensures q.trace[k].ix.SpecificSol? ==> SolTurn(e.v, q.trace[k].seen, q.trace[..k], q.trace[k].ix.j)
      {
        assert q.trace[..k] == p.trace[..k];
      }
    }
  }

  lemma SendSteps(e: Env, p: Pass, ix: Ix)
    requires Good(e, p) && Sendable(e, p, ix)
    ensures Step(e, p, Send(e, p, ix).pass) && SameLocals(p, Send(e, p, ix).pass)
    ensures Send(e, p, ix).pass.stuck == p.stuck
    ensures Send(e, p, ix).Next? ==> Landed(e.v, Send(e, p, ix).pass.ledger, ix)
    ensures ix.SpecificSol? ==> Tried(Send(e, p, ix).pass.trace, ix.j)
  {
    hide WellFormed, Grows, AllFit, Fits, Wilts;
    var q := p.(trace := p.trace + [Submitted(ix, p.ledger, p.stuck)]);
    TraceGrows(e, p, ix);
    assert q.trace[|p.trace|].ix == ix;
    AwaitSteps(e, q);
    var w := Await(e, q);
    StepTransitive(e, p, q, w);
    LandGrows(e.v, w.ledger, ix);
    if Quiet(e) {
      LandWilts(e.v, w.ledger, p.stuck, ix);
    }
    LandedMeans(e.v, w.ledger, ix);
    var landed := w.(ledger := Land(e.v, w.ledger, ix));
    assert Step(e, w, landed);
    StepTransitive(e, p, w, landed);
  }

  /** What a submission that returned normally has achieved. */
  ghost predicate Landed(v: Vault, s: State, ix: Ix)
    requires WellFormed(v, s)
  {
    match ix
    case CreateAta(a) => Exists(v, s, a)
    case BeginExecution => s.log.Some?
    case BeginTokenDist(m, _) => m in s.dists
    case SpecificAsset(j, _) => j < |s.planPaid| && s.planPaid[j]
    case SpecificSol(j) => j < |s.planPaid| && s.planPaid[j]
    case SolShares(indices) => s.log.Some? && forall i :: i in indices ==> i < |s.log.value.solPaid| && s.log.value.solPaid[i]
    case Finalize => s.executed
    case TokenShares(m, _, indices) => m in s.dists && forall i :: i in indices ==> i < |s.dists[m].paid| && s.dists[m].paid[i]
    case CloseTokenDist(m, _, _, _) => m !in s.dists && m !in s.own
    case _ => true
  }

  lemma LandedMeans(v: Vault, s: State, ix: Ix)
    requires WellFormed(v, s)
    ensures Enabled(v, s, ix) ==> Landed(v, Land(v, s, ix), ix)
  {
    hide SolCovered, MintCovered, Shelved, Shares, Owed, Pledged, Due, LargestShareIndex, EarlierPaid;
  }

  lemma GuardSteps(e: Env, p: Pass)
    requires Good(e, p)
    ensures Step(e, p, Guard(e, p).pass) && SameLocals(p, Guard(e, p).pass)
    ensures Guard(e, p).pass.trace == p.trace && Guard(e, p).pass.stuck == p.stuck
    ensures Quiet(e) ==> Guard(e, p).pass.ledger == p.ledger
  {
    hide WellFormed, Grows, AllFit, Wilts, LandAll;
    AwaitSteps(e, p);
    var q := if e.asyncGuard then Await(e, p) else p;
    SameStep(e, p, p);
    SameStep(e, q, Guard(e, p).pass);
    StepTransitive(e, p, q, Guard(e, p).pass);
  }

  lemma SendableStays(e: Env, p: Pass, q: Pass, ix: Ix)
    requires Step(e, p, q) && Sendable(e, p, ix) && q.trace == p.trace && q.stuck == p.stuck
    requires Quiet(e) ==> q.ledger == p.ledger
    ensures Sendable(e, q, ix)
  {
    hide SolCovered, MintCovered, Shelved, AllFit, Wilts;
    FitsGrows(e.v, p.ledger, q.ledger, p.stuck, ix);
  }

  /** A submission that returns normally has done its work, and one that the guard let through is on record. */
  lemma SubmitSteps(e: Env, p: Pass, ix: Ix)
    requires Good(e, p) && Sendable(e, p, ix)
    ensures var r := Submit(e, p, ix);
            && Step(e, p, r.pass) && SameLocals(p, r.pass) && r.pass.stuck == p.stuck
            && (r.Next? ==> Landed(e.v, r.pass.ledger, ix))
            && (ix.SpecificSol? && (r.Next? || r.why != Halted) ==> Tried(r.pass.trace, ix.j))
  {
    hide WellFormed, Enabled, Effect, Land, Grows, Fits, AllFit, Wilts;
    GuardSteps(e, p);
    var r := Guard(e, p);
    if r.Next? {
      SendableStays(e, p, r.pass, ix);
      SendSteps(e, r.pass, ix);
      StepTransitive(e, p, r.pass, Send(e, r.pass, ix).pass);
    }
  }

  lemma EnsureAtaSteps(e: Env, p: Pass, ata: Ata)
    requires Good(e, p) && (Quiet(e) && ata.wallet == e.v.key ==> ata.mint !in p.ledger.dists)
    ensures Step(e, p, EnsureAta(e, p, ata).pass) && SameLocals(p, EnsureAta(e, p, ata).pass)
    ensures EnsureAta(e, p, ata).pass.stuck == p.stuck
  {
    hide WellFormed, Enabled, Effect, Land, Grows, AllFit, Wilts, Submit;
    AwaitSteps(e, p);
    var r := Read(e, p);
    if r.Next? && !Exists(e.v, r.pass.ledger, ata) {
      SubmitSteps(e, r.pass, CreateAta(ata));
      StepTransitive(e, p, r.pass, EnsureAta(e, p, ata).pass);
    }
  }

  lemma EnsureForSteps(e: Env, p: Pass, ata: Ata)
    requires Good(e, p)
    ensures Step(e, p, EnsureFor(e, p, ata).pass) && SameLocals(p, EnsureFor(e, p, ata).pass)
    ensures EnsureFor(e, p, ata).pass.stuck == p.stuck
    ensures EnsureFor(e, p, ata).Next? ==> ata.wallet !in e.v.offCurve
  {
    hide WellFormed, Step;
    SameStep(e, p, Record(p, p.clock, Some(Fatal)));
    if ata.wallet !in e.v.offCurve {
      EnsureAtaSteps(e, p, ata);
    }
  }

  lemma BeginLogSteps(e: Env, p: Pass)
    requires Good(e, p)
    ensures Step(e, p, BeginLog(e, p).pass)
    ensures BeginLog(e, p).Next? ==> BeginLog(e, p).pass.ledger.log.Some?
  {
    hide WellFormed, AllFit, Wilts, Submit;
    AwaitSteps(e, p);
    var r := Read(e, p);
    if r.Next? && r.pass.ledger.log.None? {
      SubmitSteps(e, r.pass, BeginExecution);
      var b := Submit(e, r.pass, BeginExecution);
      StepTransitive(e, p, r.pass, b.pass);
      if b.Next? {
        AwaitSteps(e, b.pass);
        StepTransitive(e, p, b.pass, Read(e, b.pass).pass);
      }
    }
  }

  /** Every bit of the plan mask in memory is set on the ledger. The converse fails: the copy goes stale. */
  ghost predicate Backed(e: Env, p: Pass)
    requires Good(e, p)
  {
    forall i: nat :: BitSet(p.planMask, i) ==> i < |p.ledger.planPaid| && p.ledger.planPaid[i]
  }

  lemma ReadPlanSteps(e: Env, p: Pass)
    requires Good(e, p)
    ensures var r := ReadPlan(e, p);
            && Step(e, p, r.pass)
            && r.pass.stuck == p.stuck && r.pass.solMask == p.solMask && r.pass.completed == p.completed
            && r.pass.mints == p.mints
            && (r.Next? && e.v.plan.Some? ==>
                  Backed(e, r.pass)
                  && (r.pass.planMask == FullMask(|e.v.Assignments()|) ==> AllSet(r.pass.ledger.planPaid)))
  {
    AwaitSteps(e, p);
    var r := ReadPlan(e, p);
    if r.Next? && e.v.plan.Some? {
      MaskIsFull(r.pass.ledger.planPaid);
      forall i: nat | BitSet(r.pass.planMask, i) ensures i < |r.pass.ledger.planPaid| && r.pass.ledger.planPaid[i] {
        BitSetReadsBit(r.pass.ledger.planPaid, i);
      }
    }
  }

  lemma {:induction false} PlanMintsSteps(e: Env, p: Pass, j: nat)
    requires Good(e, p) && j <= |e.v.Assignments()|
    ensures Step(e, p, PlanMints(e, p, j).pass) && SameLocals(p, PlanMints(e, p, j).pass)
    decreases |e.v.Assignments()| - j
  {
    hide WellFormed, AllFit, Wilts, Grows, LandAll;
    SameStep(e, p, p);
    if j < |e.v.Assignments()| {
      var mint := e.v.Assignments()[j].mint;
      if mint == DEFAULT_KEY {
        PlanMintsSteps(e, p, j + 1);
      } else if Has(p.info, mint) {
        PlanMintsSteps(e, p.(info := MarkPlanned(p.info, mint)), j + 1);
      } else {
        AwaitSteps(e, p);
        var r := LookUp(e, p, mint);
        assert Step(e, p, r.pass);
        if r.Next? {
          PlanMintsSteps(e, r.pass, j + 1);
          StepTransitive(e, p, r.pass, PlanMints(e, p, j).pass);
        }
      }
    }
  }

  lemma CollectMintsSteps(e: Env, p: Pass)
    requires Good(e, p)
    ensures Step(e, p, CollectMints(e, p).pass)
    ensures CollectMints(e, p).pass.planMask == p.planMask
  {
    hide WellFormed, AllFit, Wilts, Grows, PlanMints, LandAll, AddAccounts;
    var p0 := p.(info := []);
    var a := ScanProgram(e, p0, TOKEN_PROGRAM);
    AwaitSteps(e, p0);
    if a.Next? {
      var b := ScanProgram(e, a.pass, TOKEN_2022_PROGRAM);
      AwaitSteps(e, a.pass);
      StepTransitive(e, p, a.pass, b.pass);
      if b.Next? {
        PlanMintsSteps(e, b.pass, 0);
        StepTransitive(e, p, b.pass, PlanMints(e, b.pass, 0).pass);
      }
    }
  }

  lemma LogGrows(p: Pass, q: Pass)
    requires Grows(p.ledger, q.ledger) && p.ledger.log.Some?
    ensures q.ledger.log.Some?
  {
  }

  lemma BeginDistSteps(e: Env, p: Pass, m: MintInfo)
    requires Good(e, p) && p.ledger.log.Some?
    ensures Step(e, p, BeginDist(e, p, m).pass) && SameLocals(p, BeginDist(e, p, m).pass)
  {
    hide WellFormed, Enabled, Effect, Land, EnsureAta, Submit, AllFit, Wilts, Grows;
    AwaitSteps(e, p);
    var r := Read(e, p);
    if r.Next? && m.mint !in r.pass.ledger.dists {
      LogGrows(p, r.pass);
      var ata := Ata(e.v.key, m.mint, m.program);
      var q := Enter(r.pass, TokenBlock(m.mint, "begin_token_dist"));
      SameStep(e, r.pass, q);
      StepTransitive(e, p, r.pass, q);
      EnsureAtaSteps(e, q, ata);
      var a := EnsureAta(e, q, ata);
      StepTransitive(e, p, q, a.pass);
      if a.Next? {
        LogGrows(p, a.pass);
        SubmitSteps(e, a.pass, BeginTokenDist(m.mint, m.program));
        StepTransitive(e, p, a.pass, TryBegin(e, r.pass, m).pass);
      }
    }
  }

  lemma {:induction false} BeginDistsSteps(e: Env, p: Pass, mints: seq<MintInfo>)
    requires Good(e, p) && p.ledger.log.Some?
    ensures Step(e, p, BeginDists(e, p, mints).pass) && SameLocals(p, BeginDists(e, p, mints).pass)
    decreases |mints|
  {
    if mints != [] {
      BeginDistSteps(e, p, mints[0]);
      var r := BeginDist(e, p, mints[0]);
      if r.Next? {
        BeginDistsSteps(e, r.pass, mints[1..]);
        StepTransitive(e, p, r.pass, BeginDists(e, p, mints).pass);
      }
    }
  }

  /** The loop invariant of the bequests: before index j, a token bequest is paid or its mint is stuck. */
  ghost predicate Covered(e: Env, p: Pass, j: nat)
    requires Good(e, p) && j <= |e.v.Assignments()|
  {
    forall i :: 0 <= i < j && e.v.Assignments()[i].mint != DEFAULT_KEY && e.v.Assignments()[i].mint !in p.stuck ==>
      p.ledger.planPaid[i]
  }

  lemma TryBequestSteps(e: Env, p: Pass, j: nat)
    requires Good(e, p) && j < |e.v.Assignments()| && EarlierPaid(e.v, p.ledger.planPaid, j)
    ensures var r := TryBequest(e, p, j);
            && Step(e, p, r.pass) && SameLocals(p, r.pass) && r.pass.stuck == p.stuck
            && (r.Next? ==> r.pass.ledger.planPaid[j])
  {
    var a := e.v.Assignments()[j];
    var program := ProgramFor(p.mints, a.mint);
    var ata := Ata(e.v.Wallet(a.beneficiary), a.mint, program);
    var q := Enter(p, TokenBlock(a.mint, "execute_specific_asset"));
    SameStep(e, p, q);
    EnsureForSteps(e, q, ata);
    var r := EnsureFor(e, q, ata);
    StepTransitive(e, p, q, r.pass);
    if r.Next? {
      SubmitSteps(e, r.pass, SpecificAsset(j, program));
      StepTransitive(e, p, r.pass, TryBequest(e, p, j).pass);
    }
  }

  lemma CoveredEarlier(e: Env, p: Pass, j: nat)
    requires Good(e, p) && j < |e.v.Assignments()| && Covered(e, p, j)
    requires e.v.Assignments()[j].mint != DEFAULT_KEY && e.v.Assignments()[j].mint !in p.stuck
    ensures EarlierPaid(e.v, p.ledger.planPaid, j)
  {
  }

  lemma InvariantsGrow(e: Env, p: Pass, q: Pass, j: nat)
    requires Step(e, p, q) && q.planMask == p.planMask && j <= |e.v.Assignments()|
    requires Backed(e, p) && Covered(e, p, j) && SolTurn(e.v, p.ledger, p.trace, j)
    ensures Backed(e, q) && Covered(e, q, j) && SolTurn(e.v, q.ledger, q.trace, j)
  {
    hide SolCovered, MintCovered, Shelved, AllFit, Wilts;
    forall i | Tried(p.trace, i) ensures Tried(q.trace, i) {
      var k :| 0 <= k < |p.trace| && p.trace[k].ix == SpecificSol(i);
      assert q.trace[k] == p.trace[k];
    }
  }

  lemma BequestSteps(e: Env, p: Pass, j: nat)
    requires Good(e, p) && j < |e.v.Assignments()| && p.ledger.log.Some?
    requires Backed(e, p) && Covered(e, p, j) && SolTurn(e.v, p.ledger, p.trace, j)
    ensures var r := Bequest(e, p, j);
            && Step(e, p, r.pass) && SameLocals(p, r.pass)
            && Backed(e, r.pass)
            && (r.Next? ==> Covered(e, r.pass, j + 1) && SolTurn(e.v, r.pass.ledger, r.pass.trace, j + 1))
  {
    hide TryBequest, Submit, Enabled, Effect, Land, SolCovered, MintCovered, Shelved, AllFit, Wilts, EarlierPaid;
    var mint := e.v.Assignments()[j].mint;
    var r := Bequest(e, p, j);
    SameStep(e, p, p);
    if BitSet(p.planMask, j) {
    } else if mint == DEFAULT_KEY {
      var q := Enter(p, SolBlock);
      SameStep(e, p, q);
      SubmitSteps(e, q, SpecificSol(j));
      StepTransitive(e, p, q, Submit(e, q, SpecificSol(j)).pass);
    } else if mint !in p.stuck {
      CoveredEarlier(e, p, j);
      TryBequestSteps(e, p, j);
    }
    assert Step(e, p, r.pass);
    InvariantsGrow(e, p, r.pass, j);
  }

  lemma {:induction false} BequestsSteps(e: Env, p: Pass, j: nat)
    requires Good(e, p) && j <= |e.v.Assignments()| && p.ledger.log.Some?
    requires Backed(e, p) && Covered(e, p, j) && SolTurn(e.v, p.ledger, p.trace, j)
    ensures Step(e, p, Bequests(e, p, j).pass) && SameLocals(p, Bequests(e, p, j).pass)
    decreases |e.v.Assignments()| - j
  {
    hide Bequest, Enabled, Effect, Land, WellFormed;
    if j < |e.v.Assignments()| {
      BequestSteps(e, p, j);
      var r := Bequest(e, p, j);
      if r.Next? {
        BequestsSteps(e, r.pass, j + 1);
        StepTransitive(e, p, r.pass, Bequests(e, p, j).pass);
      }
    }
  }

  lemma ReadLogSteps(e: Env, p: Pass)
    requires Good(e, p)
    ensures var r := ReadLog(e, p);
            && Step(e, p, r.pass) && r.pass.stuck == p.stuck && r.pass.mints == p.mints
            && (r.Next? ==> r.pass.ledger.log.Some?
                            && (r.pass.solMask == FullMask(|e.v.beneficiaries|) ==> AllSet(r.pass.ledger.log.value.solPaid)))
  {
    AwaitSteps(e, p);
    var r := Read(e, p);
    if r.Next? && r.pass.ledger.log.Some? {
      MaskIsFull(r.pass.ledger.log.value.solPaid);
    }
  }

  /** Every batch cut from a mask can be sent. */
  lemma BatchesFit(v: Vault, mask: nat)
    ensures AllBatches(v, Chunk(Unpaid(mask, |v.beneficiaries|), BATCH))
  {
    var parts := Chunk(Unpaid(mask, |v.beneficiaries|), BATCH);
    BatchesInRange(mask, |v.beneficiaries|);
    ChunkSpec(Unpaid(mask, |v.beneficiaries|), BATCH);
    assert forall k, i :: 0 <= k < |parts| && 0 <= i < |parts[k]| ==> parts[k][i] < |v.beneficiaries|;
  }

  lemma {:induction false} SolBatchesSteps(e: Env, p: Pass, parts: seq<seq<nat>>)
    requires Good(e, p) && p.ledger.log.Some? && AllBatches(e.v, parts)
    ensures Step(e, p, SolBatches(e, p, parts).pass) && SolBatches(e, p, parts).pass.stuck == p.stuck
    ensures SolBatches(e, p, parts).pass.mints == p.mints
    decreases |parts|
  {
    if parts != [] {
      SubmitSteps(e, p, SolShares(parts[0]));
      var r := Submit(e, p, SolShares(parts[0]));
      if r.Next? {
        SolBatchesSteps(e, r.pass, parts[1..]);
        StepTransitive(e, p, r.pass, SolBatches(e, p, parts).pass);
      }
    }
  }

  lemma PaySolSteps(e: Env, p: Pass)
    requires Good(e, p)
    ensures Step(e, p, PaySol(e, p).pass) && PaySol(e, p).pass.stuck == p.stuck && PaySol(e, p).pass.mints == p.mints
  {
    ReadLogSteps(e, p);
    var r := ReadLog(e, p);
    if r.Next? {
      BatchesFit(e.v, r.pass.solMask);
      SolBatchesSteps(e, r.pass, Chunk(Unpaid(r.pass.solMask, |e.v.beneficiaries|), BATCH));
      StepTransitive(e, p, r.pass, PaySol(e, p).pass);
    }
  }

  lemma FinalizeSteps(e: Env, p: Pass)
    requires Good(e, p)
    ensures Step(e, p, FinalizeIfFull(e, p).pass) && FinalizeIfFull(e, p).pass.mints == p.mints
  {
    hide Submit, Enabled, Effect, Land;
    ReadLogSteps(e, p);
    var a := ReadLog(e, p);
    if a.Next? {
      ReadPlanSteps(e, a.pass);
      var b := ReadPlan(e, a.pass);
      StepTransitive(e, p, a.pass, b.pass);
      if b.Next? && KeeperGate(e, b.pass) {
        SubmitSteps(e, b.pass, Finalize);
        StepTransitive(e, p, b.pass, FinalizeIfFull(e, p).pass);
      }
    }
  }

  lemma {:induction false} EnsureAtasSteps(e: Env, p: Pass, m: MintInfo, part: seq<nat>)
    requires Good(e, p) && forall k :: 0 <= k < |part| ==> part[k] < |e.v.beneficiaries|
    ensures Step(e, p, EnsureAtas(e, p, m, part).pass) && SameLocals(p, EnsureAtas(e, p, m, part).pass)
    ensures EnsureAtas(e, p, m, part).Next? ==> forall i :: i in part ==> e.v.Wallet(i) !in e.v.offCurve
    decreases |part|
  {
    if part != [] {
      var ata := Ata(e.v.Wallet(part[0]), m.mint, m.program);
      EnsureForSteps(e, p, ata);
      var r := EnsureFor(e, p, ata);
      if r.Next? {
        EnsureAtasSteps(e, r.pass, m, part[1..]);
        StepTransitive(e, p, r.pass, EnsureAtas(e, p, m, part).pass);
      }
    }
  }

  lemma {:induction false} TokenBatchesSteps(e: Env, p: Pass, m: MintInfo, parts: seq<seq<nat>>)
    requires Good(e, p) && InRange(parts, |e.v.beneficiaries|)
    requires AllBatches(e.v, parts)
    ensures Step(e, p, TokenBatches(e, p, m, parts).pass) && SameLocals(p, TokenBatches(e, p, m, parts).pass)
    decreases |parts|
  {
    hide Submit, EnsureAtas, Enabled, Effect, Land;
    if parts != [] {
      EnsureAtasSteps(e, p, m, parts[0]);
      var a := EnsureAtas(e, p, m, parts[0]);
      if a.Next? {
        var ix := TokenShares(m.mint, m.program, parts[0]);
        SubmitSteps(e, a.pass, ix);
        var b := Submit(e, a.pass, ix);
        StepTransitive(e, p, a.pass, b.pass);
        if b.Next? {
          TokenBatchesSteps(e, b.pass, m, parts[1..]);
          StepTransitive(e, p, b.pass, TokenBatches(e, p, m, parts).pass);
        }
      }
    }
  }

  lemma PayTokenSteps(e: Env, p: Pass, m: MintInfo)
    requires Good(e, p)
    ensures Step(e, p, PayToken(e, p, m).pass) && SameLocals(p, PayToken(e, p, m).pass)
  {
    hide WellFormed, AllFit, Wilts, Grows, TokenBatches, Land;
    SameStep(e, p, p);
    AwaitSteps(e, p);
    var r := Read(e, p);
    if m.mint !in p.stuck && r.Next? && m.mint in r.pass.ledger.dists {
      var mask := Mask(r.pass.ledger.dists[m.mint].paid);
      BatchesInRange(mask, |e.v.beneficiaries|);
      BatchesFit(e.v, mask);
      var parts := Chunk(Unpaid(mask, |e.v.beneficiaries|), BATCH);
      var q := Enter(r.pass, TokenBlock(m.mint, "execute_token_shares"));
      SameStep(e, r.pass, q);
      StepTransitive(e, p, r.pass, q);
      TokenBatchesSteps(e, q, m, parts);
      StepTransitive(e, p, q, TokenBatches(e, q, m, parts).pass);
    }
  }

  lemma {:induction false} PayTokensSteps(e: Env, p: Pass, mints: seq<MintInfo>)
    requires Good(e, p)
    ensures Step(e, p, PayTokens(e, p, mints).pass) && SameLocals(p, PayTokens(e, p, mints).pass)
    decreases |mints|
  {
    if mints != [] {
      PayTokenSteps(e, p, mints[0]);
      var r := PayToken(e, p, mints[0]);
      if r.Next? {
        PayTokensSteps(e, r.pass, mints[1..]);
        StepTransitive(e, p, r.pass, PayTokens(e, p, mints).pass);
      }
    }
  }

  lemma SubmitCloseSteps(e: Env, p: Pass, m: MintInfo, dust: bool, harvest: bool)
    requires Good(e, p) && p.ledger.executed
    requires dust ==> LargestWallet(e.v) !in e.v.offCurve
    ensures var wallet := LargestWallet(e.v);
            var r := Submit(e, p, CloseTokenDist(m.mint, m.program, if dust then Some(wallet) else None, harvest));
            Step(e, p, r.pass) && SameLocals(p, r.pass) && (r.Next? ==> m.mint !in r.pass.ledger.dists)
  {
    SubmitSteps(e, p, CloseTokenDist(m.mint, m.program, if dust then Some(LargestWallet(e.v)) else None, harvest));
  }

  lemma TryCloseSteps(e: Env, p: Pass, m: MintInfo)
    requires Good(e, p) && p.ledger.executed
    ensures Step(e, p, TryClose(e, p, m).pass) && SameLocals(p, TryClose(e, p, m).pass)
    ensures TryClose(e, p, m).Next? ==> m.mint !in TryClose(e, p, m).pass.ledger.dists
  {
    hide WellFormed, Enabled, Effect, Land, Submit;
    var p' := Enter(p, TokenBlock(m.mint, "close_token_dist"));
    SameStep(e, p, p');
    AwaitSteps(e, p');
    SameStep(e, Await(e, p'), Peek(e, p'));
    StepTransitive(e, p, p', Await(e, p'));
    var q := Peek(e, p');
    StepTransitive(e, p, Await(e, p'), q);
    assert q.ledger.executed;
    var found := e.tick(p.clock).fault == Fine && Exists(e.v, q.ledger, Ata(e.v.key, m.mint, m.program));
    var dust := found && OwnOf(q.ledger, m.mint) > 0;
    var harvest := found && m.mint in q.ledger.withheld;
    var wallet := LargestWallet(e.v);
    var a := if dust then EnsureFor(e, q, Ata(wallet, m.mint, m.program)) else Next(q);
    if dust {
      EnsureForSteps(e, q, Ata(wallet, m.mint, m.program));
      StepTransitive(e, p, q, a.pass);
    }
    if a.Next? {
      SubmitCloseSteps(e, a.pass, m, dust, harvest);
      StepTransitive(e, p, a.pass,
        Submit(e, a.pass, CloseTokenDist(m.mint, m.program, if dust then Some(wallet) else None, harvest)).pass);
    }
  }

  lemma CloseDistSteps(e: Env, p: Pass, m: MintInfo)
    requires Good(e, p) && p.ledger.executed
    ensures Step(e, p, CloseDist(e, p, m).pass) && SameLocals(p, CloseDist(e, p, m).pass)
  {
    hide WellFormed, AllFit, Wilts, TryClose;
    AwaitSteps(e, p);
    SameStep(e, p, p);
    var r := Read(e, p);
    if r.Next? && r.pass.ledger.executed {
      TryCloseSteps(e, r.pass, m);
      StepTransitive(e, p, r.pass, TryClose(e, r.pass, m).pass);
    }
  }

  lemma {:induction false} CloseDistsSteps(e: Env, p: Pass, mints: seq<MintInfo>)
    requires Good(e, p) && p.ledger.executed
    ensures Step(e, p, CloseDists(e, p, mints).pass) && SameLocals(p, CloseDists(e, p, mints).pass)
    decreases |mints|
  {
    if mints != [] {
      CloseDistSteps(e, p, mints[0]);
      var r := CloseDist(e, p, mints[0]);
      if r.Next? {
        CloseDistsSteps(e, r.pass, mints[1..]);
        StepTransitive(e, p, r.pass, CloseDists(e, p, mints).pass);
      }
    }
  }

  lemma CloseIfExecutedSteps(e: Env, p: Pass)
    requires Good(e, p)
    ensures Step(e, p, CloseIfExecuted(e, p).pass) && CloseIfExecuted(e, p).pass.mints == p.mints
  {
    AwaitSteps(e, p);
    var r := Read(e, p);
    var q := r.pass.(executed := r.pass.ledger.executed);
    if r.Next? && q.executed {
      CloseDistsSteps(e, q, q.mints);
      StepTransitive(e, p, q, CloseDists(e, q, q.mints).pass);
    }
  }

  lemma PrepareSteps(e: Env, p: Pass)
    requires Good(e, p)
    ensures var r := Prepare(e, p);
            && Step(e, p, r.pass)
            && (r.Next? ==> r.pass.ledger.log.Some? && (e.v.plan.Some? ==> Backed(e, r.pass)))
  {
    BeginLogSteps(e, p);
    var b := BeginLog(e, p);
    if b.Next? {
      ReadPlanSteps(e, b.pass);
      var c := ReadPlan(e, b.pass);
      StepTransitive(e, p, b.pass, c.pass);
      if c.Next? {
        CollectMintsSteps(e, c.pass);
        StepTransitive(e, p, c.pass, CollectMints(e, c.pass).pass);
      }
    }
  }

  lemma PayBequestsSteps(e: Env, p: Pass)
    requires Good(e, p) && p.ledger.log.Some? && (e.v.plan.Some? ==> Backed(e, p))
    ensures Step(e, p, PayBequests(e, p).pass)
  {
    BeginDistsSteps(e, p, p.mints);
    var a := BeginDists(e, p, p.mints);
    if a.Next? && e.v.plan.Some? {
      BequestsSteps(e, a.pass, 0);
      StepTransitive(e, p, a.pass, Bequests(e, a.pass, 0).pass);
    }
  }

  lemma DistributeSteps(e: Env, p: Pass)
    requires Good(e, p)
    ensures Step(e, p, Distribute(e, p).pass)
  {
    PaySolSteps(e, p);
    var a := PaySol(e, p);
    if a.Next? {
      FinalizeSteps(e, a.pass);
      var b := FinalizeIfFull(e, a.pass);
      StepTransitive(e, p, a.pass, b.pass);
      if b.Next? {
        PayTokensSteps(e, b.pass, b.pass.mints);
        var c := PayTokens(e, b.pass, b.pass.mints);
        StepTransitive(e, p, b.pass, c.pass);
        if c.Next? {
          CloseIfExecutedSteps(e, c.pass);
          StepTransitive(e, p, c.pass, CloseIfExecuted(e, c.pass).pass);
        }
      }
    }
  }

  lemma PhasesSteps(e: Env, p: Pass)
    requires Good(e, p)
    ensures Step(e, p, Phases(e, p).pass)
  {
    hide Enabled, Effect, Land, WellFormed, Prepare, PayBequests, Distribute;
    PrepareSteps(e, p);
    var a := Prepare(e, p);
    if a.Next? {
      PayBequestsSteps(e, a.pass);
      var b := PayBequests(e, a.pass);
      StepTransitive(e, p, a.pass, b.pass);
      if b.Next? {
        DistributeSteps(e, b.pass);
        StepTransitive(e, p, b.pass, Distribute(e, b.pass).pass);
      }
    }
  }

  lemma CrankVaultSteps(e: Env, p: Pass)
    requires Good(e, p)
    ensures Step(e, p, CrankVault(e, p).pass)
  {
    hide Enabled, Effect, Land, WellFormed, Phases;
    AwaitSteps(e, p);
    var a := Read(e, p);
    if a.Next? {
      PhasesSteps(e, a.pass);
      StepTransitive(e, p, a.pass, Phases(e, a.pass).pass);
    }
  }

  // ---- main results ----

  /**
   * No token bequest is ever submitted out of order: at the instant of submission every earlier bequest
   * of the same mint is paid on the ledger, however stale the mask in memory is.
   */
  lemma BequestsGoOutInOrder(e: Env, s: State)
    requires Good(e, Start(s))
    ensures var trace := CrankVault(e, Start(s)).pass.trace;
            forall k :: 0 <= k < |trace| && trace[k].ix.SpecificAsset? ==>
              && trace[k].ix.j < |trace[k].seen.planPaid| == |e.v.Assignments()|
              && EarlierPaid(e.v, trace[k].seen.planPaid, trace[k].ix.j)
  {
    hide CrankVault, Enabled, Effect, Land, EarlierPaid;
    CrankVaultSteps(e, Start(s));
  }

  /**
   * A SOL bequest goes out in order exactly when every earlier one that this pass submitted has landed: one
   * that failed is skipped, not waited for.
   */
  lemma SolGoesOutInOrderUnlessOneFailed(e: Env, s: State)
    requires Good(e, Start(s))
    ensures var trace := CrankVault(e, Start(s)).pass.trace;
            forall k :: 0 <= k < |trace| && trace[k].ix.SpecificSol? ==>
              var j := trace[k].ix.j;
              && j < |trace[k].seen.planPaid| == |e.v.Assignments()| && e.v.Assignments()[j].mint == DEFAULT_KEY
              && (EarlierPaid(e.v, trace[k].seen.planPaid, j) <==>
                  forall i :: 0 <= i < j && e.v.Assignments()[i].mint == DEFAULT_KEY && Tried(trace[..k], i) ==>
                    trace[k].seen.planPaid[i])
  {
    hide CrankVault, Tried, SolCovered, MintCovered, Shelved;
    CrankVaultSteps(e, Start(s));
  }

  /** And it happens: a script in which calls fail sends the second of two SOL bequests with the first unpaid. */
  lemma FailedSolIsOvertaken(e: Env, p: Pass, j: nat)
    requires Good(e, p) && p.ledger.log.Some? && j + 2 == |e.v.Assignments()|
    requires e.v.Assignments()[j].mint == DEFAULT_KEY && e.v.Assignments()[j + 1].mint == DEFAULT_KEY
    requires p.planMask == Mask(p.ledger.planPaid) && !p.ledger.planPaid[j] && !p.ledger.planPaid[j + 1]
    requires forall k: nat :: e.tick(k) == Tick([], Operational, false) && e.canSubmit(k) == Yes
    ensures Bequests(e, p, j).pass.trace ==
            p.trace + [Submitted(SpecificSol(j), p.ledger, p.stuck), Submitted(SpecificSol(j + 1), p.ledger, p.stuck)]
    ensures !EarlierPaid(e.v, p.ledger.planPaid, j + 1)
  {
    hide WellFormed, Enabled, Effect, Land, BitSet, Mask;
    BitSetReadsBit(p.ledger.planPaid, j);
    BitSetReadsBit(p.ledger.planPaid, j + 1);
    FailedSolIsSkipped(e, p, j);
    var q := Bequest(e, p, j).pass;
    FailedSolIsSkipped(e, q, j + 1);
    assert Bequests(e, q, j + 1) == Bequests(e, Bequest(e, q, j + 1).pass, j + 2);
    assert Bequests(e, p, j) == Bequests(e, q, j + 1);
  }

  lemma FailedSolIsSkipped(e: Env, p: Pass, j: nat)
    requires Good(e, p) && j < |e.v.Assignments()| && e.v.Assignments()[j].mint == DEFAULT_KEY && !BitSet(p.planMask, j)
    requires forall k: nat :: e.tick(k) == Tick([], Operational, false) && e.canSubmit(k) == Yes
    ensures var r := Bequest(e, p, j);
            && r.Next? && r.pass.ledger == p.ledger && r.pass.planMask == p.planMask && r.pass.stuck == p.stuck
            && r.pass.trace == p.trace + [Submitted(SpecificSol(j), p.ledger, p.stuck)]
  {
    hide WellFormed, Enabled, Effect, Land, BitSet;
    assert e.tick(p.clock) == Tick([], Operational, false) && e.tick(p.clock + 1) == Tick([], Operational, false);
    assert e.canSubmit(p.guards) == Yes;
  }

  /**
   * Finalize is submitted only when no mint of this pass is stuck and both masks are full. They are
   * still full in every ledger that any run of other crankers leads to before it lands.
   */
  lemma FinalizeOnlyWhenFull(e: Env, s: State, others: seq<Ix>)
    requires Good(e, Start(s))
    ensures var trace := CrankVault(e, Start(s)).pass.trace;
            forall k :: 0 <= k < |trace| && trace[k].ix == Finalize ==>
              && trace[k].stuck == {} && WellFormed(e.v, trace[k].seen)
              && var landing := LandAll(e.v, trace[k].seen, others);
                 landing.log.Some? && AllSet(landing.log.value.solPaid) && AllSet(landing.planPaid)
  {
    hide CrankVault, Enabled, Effect, Land;
    CrankVaultSteps(e, Start(s));
    var trace := CrankVault(e, Start(s)).pass.trace;
    forall k | 0 <= k < |trace| && trace[k].ix == Finalize
      ensures WellFormed(e.v, trace[k].seen) && Grows(trace[k].seen, LandAll(e.v, trace[k].seen, others))
    {
      LandAllGrows(e.v, trace[k].seen, others);
    }
  }

  /** A close is submitted only for an executed vault and sweeps dust only to a largest-share wallet. */
  lemma CloseOnlyAfterExecution(e: Env, s: State)
    requires Good(e, Start(s))
    ensures var trace := CrankVault(e, Start(s)).pass.trace;
            forall k :: 0 <= k < |trace| && trace[k].ix.CloseTokenDist? ==>
              trace[k].seen.executed
              && (trace[k].ix.dustTo.Some? ==> trace[k].ix.dustTo.value == LargestWallet(e.v))
  {
    hide CrankVault, Enabled, Effect, Land;
    CrankVaultSteps(e, Start(s));
  }

  /** A payout batch holds 1 to 8 indices, all of them of beneficiaries. */
  lemma BatchesAreBounded(e: Env, s: State)
    requires Good(e, Start(s))
    ensures var trace := CrankVault(e, Start(s)).pass.trace;
            forall k :: 0 <= k < |trace| && (trace[k].ix.SolShares? || trace[k].ix.TokenShares?) ==>
              1 <= |trace[k].ix.indices| <= 8 && forall i :: i in trace[k].ix.indices ==> i < |e.v.beneficiaries|
  {
    hide CrankVault, Enabled, Effect, Land;
    CrankVaultSteps(e, Start(s));
  }
}
