/**
 * A pass without faults or races, from any ledger, however far others have cranked it: what each phase then
 * reaches, which mints it marks stuck, and what it leaves alone.
 */
module CrankCompletes {
  import opened Prelude
  import opened Bits
  import opened Mints
  import opened Ledger
  import opened Crank
  import opened CrankSafety
  import opened Selection

  ghost predicate Same(p: Pass, q: Pass) {
    SameLists(p, q) && q.stuck == p.stuck && q.skipped == p.skipped
  }

  ghost predicate SameLists(p: Pass, q: Pass) {
    q.mints == p.mints && q.planMask == p.planMask && q.executed == p.executed
  }

  /** The phase went on; its skipped list grew only with the mints it marked stuck. */
  ghost predicate Passes(p: Pass, r: Flow) {
    r.Next? && SameLists(p, r.pass) && p.stuck <= r.pass.stuck && (r.pass.stuck == {} ==> r.pass.skipped == p.skipped)
  }

  /** The exception of a step that a catch block takes; nothing but accounts of beneficiaries changed. */
  ghost predicate FailsAlone(p: Pass, r: Flow) {
    r.Stop? && r.why.Raised? && IsOperational(r.why.fault) && Same(p, r.pass) && r.pass.ledger == p.ledger.(atas := r.pass.ledger.atas)
  }

  /** The TokenDist of the mint is open and the vault has its account. */
  predicate Open(s: State, m: Pubkey) {
    m in s.dists && m in s.own
  }

  /** Every beneficiary's wallet can have associated accounts. */
  predicate OnCurve(v: Vault) {
    forall i :: 0 <= i < |v.beneficiaries| ==> v.Wallet(i) !in v.offCurve
  }

  // ---- wallets that can take what they are owed ----

  /** The wallet of a bequest can receive it: SOL anything but the vault itself, a token only with an account. */
  predicate BequestServes(v: Vault, j: nat)
    requires v.Valid() && j < |v.Assignments()|
  {
    var wallet := v.Wallet(v.Assignments()[j].beneficiary);
    if v.Assignments()[j].mint == DEFAULT_KEY then wallet != v.key else wallet !in v.offCurve
  }

  /** No unpaid SOL share above zero goes to the vault itself. */
  predicate SolServes(v: Vault, log: ExecutionLog)
    requires |log.solPaid| == |v.beneficiaries|
  {
    forall i :: 0 <= i < |v.beneficiaries| && !log.solPaid[i] && Shares(v, log.snapshot)[i] > 0 ==> v.Wallet(i) != v.key
  }

  /** Every beneficiary with a clear bit can have an account. */
  predicate ShareServes(v: Vault, paid: seq<bool>)
    requires |paid| == |v.beneficiaries|
  {
    forall i :: 0 <= i < |v.beneficiaries| && !paid[i] ==> v.Wallet(i) !in v.offCurve
  }

  /** A balance that is left can be swept. */
  predicate DustServes(v: Vault, s: State, m: Pubkey)
    requires v.beneficiaries != []
  {
    OwnOf(s, m) > 0 ==> LargestWallet(v) !in v.offCurve
  }

  // ---- what is left alone ----

  /** No TokenDist went away, and each has the dust it had. */
  ghost predicate DustKept(v: Vault, s: State, t: State) {
    forall m :: m in s.dists ==> m in t.dists && DustOf(v, t, m) == DustOf(v, s, m)
  }

  lemma DustKeptTransitive(v: Vault, a: State, b: State, c: State)
    requires DustKept(v, a, b) && DustKept(v, b, c)
    ensures DustKept(v, a, c)
  {
  }

  /** It depends on the TokenDists, the plan mask and the balances. */
  lemma DustDependsOn(v: Vault, s: State, t: State)
    requires t.planPaid == s.planPaid && (forall k :: OwnOf(t, k) == OwnOf(s, k))
    requires forall m :: m in s.dists ==> m in t.dists && t.dists[m] == s.dists[m]
    ensures DustKept(v, s, t)
  {
  }

  /** The vault's token accounts are as before, those of mint m aside. */
  ghost predicate Only(s: State, s': State, m: Pubkey) {
    && s'.delayOver == s.delayOver
    && (forall x: Slot :: x.Stray? ==> (x in s'.shelf <==> x in s.shelf))
    && (forall k :: k != m ==> (k in s'.own <==> k in s.own) && OwnOf(s', k) == OwnOf(s, k))
  }

  /** The same, those of several mints aside. */
  ghost predicate Aside(s: State, s': State, mints: seq<MintInfo>) {
    && s'.delayOver == s.delayOver
    && (forall x: Slot :: x.Stray? ==> (x in s'.shelf <==> x in s.shelf))
    && (forall k :: !Chosen(mints, k) ==> (k in s'.own <==> k in s.own) && OwnOf(s', k) == OwnOf(s, k))
  }

  lemma OnlyIsAside(s: State, s': State, m: Pubkey, mints: seq<MintInfo>)
    requires Only(s, s', m) && Chosen(mints, m)
    ensures Aside(s, s', mints)
  {
  }

  lemma AsideTransitive(a: State, b: State, c: State, mints: seq<MintInfo>)
    requires Aside(a, b, mints) && Aside(b, c, mints)
    ensures Aside(a, c, mints)
  {
  }

  lemma AsideWider(s: State, s': State, mints: seq<MintInfo>)
    requires mints != [] && Aside(s, s', mints[1..])
    ensures Aside(s, s', mints)
  {
    forall k | Chosen(mints[1..], k) ensures Chosen(mints, k) {
      ChosenTail(mints, k);
    }
  }

  lemma ChosenTail(mints: seq<MintInfo>, k: Pubkey)
    requires mints != []
    ensures Chosen(mints, k) <==> mints[0].mint == k || Chosen(mints[1..], k)
  {
    if Chosen(mints[1..], k) {
      var i :| 0 <= i < |mints[1..]| && mints[1..][i].mint == k;
      assert mints[i + 1].mint == k;
    }
    if i :| 0 <= i < |mints| && mints[i].mint == k {
      if i > 0 { assert mints[1..][i - 1].mint == k; }
    }
  }

  lemma SameAccountsAside(s: State, s': State, mints: seq<MintInfo>)
    requires s'.own == s.own && s'.shelf == s.shelf && s'.delayOver == s.delayOver
    ensures Aside(s, s', mints)
  {
  }

  // ---- awaits ----

  /** A quiet await changes nothing but the clock. */
  lemma QuietRead(e: Env, p: Pass)
    requires Good(e, p) && Quiet(e)
    ensures Read(e, p).Next? && Same(p, Read(e, p).pass) && Read(e, p).pass.ledger == p.ledger
    ensures Read(e, p).pass.info == p.info
    ensures Await(e, p) == p.(clock := p.clock + 1)
    ensures Read(e, p).pass == Record(Await(e, p), p.clock, None)
  {
    hide WellFormed;
    assert e.tick(p.clock).others == [];
  }

  /** A quiet submission lands if its rule holds. */
  lemma QuietSubmit(e: Env, p: Pass, ix: Ix)
    requires Good(e, p) && Quiet(e) && Enabled(e.v, p.ledger, ix)
    ensures Submit(e, p, ix).Next? && Same(p, Submit(e, p, ix).pass)
    ensures Submit(e, p, ix).pass.ledger == Effect(e.v, p.ledger, ix)
  {
    hide WellFormed, Enabled, Effect;
    QuietRead(e, p);
    var q := Guard(e, p).pass;
    assert q.ledger == p.ledger && Same(p, q);
    QuietRead(e, q.(trace := q.trace + [Submitted(ix, q.ledger, q.stuck)]));
  }

  /** And is rejected otherwise. */
  lemma QuietReject(e: Env, p: Pass, ix: Ix)
    requires Good(e, p) && Quiet(e) && !Enabled(e.v, p.ledger, ix)
    ensures FailsAlone(p, Submit(e, p, ix)) && Submit(e, p, ix).pass.ledger == p.ledger
  {
    hide WellFormed, Enabled, Effect;
    QuietRead(e, p);
    var q := Guard(e, p).pass;
    assert q.ledger == p.ledger && Same(p, q);
    QuietRead(e, q.(trace := q.trace + [Submitted(ix, q.ledger, q.stuck)]));
    assert p.ledger == p.ledger.(atas := p.ledger.atas);
  }

  lemma QuietEnsureAta(e: Env, p: Pass, ata: Ata)
    requires Good(e, p) && Quiet(e) && ProgramIs(e.v, ata.mint, ata.program)
    ensures var r := EnsureAta(e, p, ata);
            && r.Next? && Same(p, r.pass)
            && r.pass.ledger == Effect(e.v, p.ledger, CreateAta(ata)) && Exists(e.v, r.pass.ledger, ata)
  {
    hide SolCovered, MintCovered, Shelved;
    QuietRead(e, p);
    var q := Read(e, p).pass;
    if !Exists(e.v, q.ledger, ata) {
      QuietSubmit(e, q, CreateAta(ata));
    }
  }

  /** For a beneficiary on the curve only the set of accounts of other wallets may grow. */
  lemma QuietEnsureFor(e: Env, p: Pass, ata: Ata)
    requires Good(e, p) && Quiet(e) && ProgramIs(e.v, ata.mint, ata.program) && ata.wallet !in e.v.offCurve
    ensures var r := EnsureFor(e, p, ata);
            && r.Next? && Same(p, r.pass)
            && r.pass.ledger == p.ledger.(atas := p.ledger.atas + {ata})
  {
    hide SolCovered, MintCovered, Shelved;
    QuietEnsureAta(e, p, ata);
    if ata in p.ledger.atas {
      assert p.ledger.atas + {ata} == p.ledger.atas;
    }
  }

  /** Under a program that is not the mint's the account may be refused, which fails the step alone. */
  lemma QuietEnsureAny(e: Env, p: Pass, ata: Ata)
    requires Good(e, p) && Quiet(e) && ata.wallet !in e.v.offCurve
    ensures var r := EnsureFor(e, p, ata);
            && (r.Stop? ==> FailsAlone(p, r)) && Same(p, r.pass)
            && r.pass.ledger == p.ledger.(atas := r.pass.ledger.atas)
  {
    if ProgramIs(e.v, ata.mint, ata.program) {
      QuietEnsureFor(e, p, ata);
    } else {
      hide SolCovered, MintCovered, Shelved, Submit;
      QuietRead(e, p);
      var q := Read(e, p).pass;
      assert p.ledger == p.ledger.(atas := p.ledger.atas);
      if !Exists(e.v, q.ledger, ata) {
        QuietReject(e, q, CreateAta(ata));
      }
    }
  }

  lemma QuietBeginLog(e: Env, p: Pass)
    requires Good(e, p) && Quiet(e)
    ensures var r := BeginLog(e, p);
            && r.Next? && Same(p, r.pass)
            && r.pass.ledger.log.Some?
            && r.pass.ledger == p.ledger.(log := r.pass.ledger.log)
  {
    hide SolCovered, MintCovered, Shelved;
    QuietRead(e, p);
    var q := Read(e, p).pass;
    if q.ledger.log.None? {
      QuietSubmit(e, q, BeginExecution);
      QuietRead(e, Submit(e, q, BeginExecution).pass);
    }
  }

  // ---- collectMints ----

  lemma {:induction false} QuietPlanMints(e: Env, p: Pass, j: nat)
    requires Good(e, p) && Quiet(e) && j <= |e.v.Assignments()|
    ensures var r := PlanMints(e, p, j);
            && r.Next? && Same(p, r.pass) && r.pass.ledger == p.ledger
            && r.pass.info == PlanInfo(e.v, p.info, j)
    decreases |e.v.Assignments()| - j
  {
    hide WellFormed;
    if j < |e.v.Assignments()| {
      var mint := e.v.Assignments()[j].mint;
      if mint == DEFAULT_KEY {
        QuietPlanMints(e, p, j + 1);
      } else if Has(p.info, mint) {
        QuietPlanMints(e, p.(info := MarkPlanned(p.info, mint)), j + 1);
      } else {
        QuietRead(e, p);
        QuietPlanMints(e, LookUp(e, p, mint).pass, j + 1);
      }
    }
  }

  /** The pass collects what the ledger says it collects. */
  lemma QuietCollect(e: Env, p: Pass)
    requires Good(e, p) && Quiet(e)
    ensures var r := CollectMints(e, p);
            && r.Next? && r.pass.ledger == p.ledger
            && r.pass.stuck == p.stuck && r.pass.skipped == p.skipped && r.pass.planMask == p.planMask
            && r.pass.mints == Collected(e.v, p.ledger)
  {
    hide WellFormed, AddAccounts;
    var p0 := p.(info := []);
    QuietRead(e, p0);
    var a := ScanProgram(e, p0, TOKEN_PROGRAM).pass;
    QuietRead(e, a);
    var b := ScanProgram(e, a, TOKEN_2022_PROGRAM).pass;
    QuietPlanMints(e, b, 0);
  }

  // ---- begin_token_dist ----

  ghost predicate Tidied(v: Vault, mints: seq<MintInfo>) {
    && (forall i :: 0 <= i < |mints| ==> ProgramIs(v, mints[i].mint, mints[i].program))
    && (forall i, k :: 0 <= i < k < |mints| ==> mints[i].mint != mints[k].mint)
  }

  /** What snapshotting leaves alone. */
  ghost predicate OnlyDists(s: State, s': State) {
    && s'.log == s.log && s'.planPaid == s.planPaid && s'.executed == s.executed
    && (forall m :: m in s.dists ==> m in s'.dists && s'.dists[m] == s.dists[m])
    && s.own.Keys <= s'.own.Keys && (forall k :: OwnOf(s', k) == OwnOf(s, k))
  }

  lemma OpenEffect(v: Vault, s: State, m: MintInfo)
    requires WellFormed(v, s) && ProgramIs(v, m.mint, m.program)
    ensures var a := Effect(v, s, CreateAta(Ata(v.key, m.mint, m.program)));
            && WellFormed(v, a) && Only(s, a, m.mint) && m.mint in a.own && s.own.Keys <= a.own.Keys
            && OwnOf(a, m.mint) == OwnOf(s, m.mint)
            && a.log == s.log && a.planPaid == s.planPaid && a.executed == s.executed && a.dists == s.dists
            && OnlyDists(s, a)
  {
    hide SolCovered, MintCovered, Shelved;
    EffectKeepsWellFormed(v, s, CreateAta(Ata(v.key, m.mint, m.program)));
  }

  lemma BeginOnly(v: Vault, s: State, m: MintInfo)
    requires WellFormed(v, s) && Enabled(v, s, BeginTokenDist(m.mint, m.program))
    ensures var t := Effect(v, s, BeginTokenDist(m.mint, m.program));
            && t == s.(dists := t.dists) && t.dists.Keys == s.dists.Keys + {m.mint}
            && (forall k :: k in s.dists ==> t.dists[k] == s.dists[k])
            && t.dists[m.mint].paid == Zeros(|v.beneficiaries|)
  {
    hide SolCovered, MintCovered, Shelved, Debit, Pledged;
  }

  lemma OnlyWithSameAccounts(a: State, b: State, c: State, m: Pubkey)
    requires Only(a, b, m) && c.own == b.own && c.shelf == b.shelf && c.delayOver == b.delayOver
    ensures Only(a, c, m)
  {
  }

  /** The account is opened if need be; then the rule for the snapshot holds, and it touches this mint only. */
  lemma BeginEffect(v: Vault, s: State, m: MintInfo)
    requires WellFormed(v, s) && s.log.Some? && ProgramIs(v, m.mint, m.program)
    requires m.mint !in s.dists && !Unopenable(v, s, m.mint)
    ensures var a := Effect(v, s, CreateAta(Ata(v.key, m.mint, m.program)));
            var ix := BeginTokenDist(m.mint, m.program);
            && WellFormed(v, a) && Enabled(v, a, ix)
            && var b := Effect(v, a, ix);
            && OnlyDists(s, b) && Only(s, b, m.mint) && b.dists.Keys == s.dists.Keys + {m.mint} && m.mint in b.own
            && b.dists[m.mint].paid == Zeros(|v.beneficiaries|)
  {
    OpenEffect(v, s, m);
    hide WellFormed, Effect, Only;
    var a := Effect(v, s, CreateAta(Ata(v.key, m.mint, m.program)));
    BeginOnly(v, a, m);
    var b := Effect(v, a, BeginTokenDist(m.mint, m.program));
    OnlyWithSameAccounts(s, a, b, m.mint);
  }

  lemma QuietTryBegin(e: Env, p: Pass, m: MintInfo)
    requires Good(e, p) && Quiet(e) && p.ledger.log.Some? && ProgramIs(e.v, m.mint, m.program)
    requires m.mint !in p.ledger.dists && !Unopenable(e.v, p.ledger, m.mint)
    ensures var r := TryBegin(e, p, m);
            && r.Next? && Same(p, r.pass)
            && OnlyDists(p.ledger, r.pass.ledger) && Only(p.ledger, r.pass.ledger, m.mint)
            && r.pass.ledger.dists.Keys == p.ledger.dists.Keys + {m.mint} && m.mint in r.pass.ledger.own
            && r.pass.ledger.dists[m.mint].paid == Zeros(|e.v.beneficiaries|)
  {
    hide EnsureAta, Submit, WellFormed, Enabled, Effect, Only, OnlyDists;
    var q := Enter(p, TokenBlock(m.mint, "begin_token_dist"));
    var ata := Ata(e.v.key, m.mint, m.program);
    BeginEffect(e.v, q.ledger, m);
    QuietEnsureAta(e, q, ata);
    QuietSubmit(e, EnsureAta(e, q, ata).pass, BeginTokenDist(m.mint, m.program));
  }

  /** For a mint that cannot be begun the account is opened in vain. */
  lemma StuckTryBegin(e: Env, p: Pass, m: MintInfo)
    requires Good(e, p) && Quiet(e) && ProgramIs(e.v, m.mint, m.program) && Unopenable(e.v, p.ledger, m.mint)
    ensures var r := TryBegin(e, p, m);
            && r.Stop? && r.why.Raised? && IsOperational(r.why.fault) && Same(p, r.pass)
            && OnlyDists(p.ledger, r.pass.ledger) && Only(p.ledger, r.pass.ledger, m.mint)
            && r.pass.ledger.dists == p.ledger.dists
  {
    hide EnsureAta, Submit, WellFormed, Effect, Only;
    var q := Enter(p, TokenBlock(m.mint, "begin_token_dist"));
    var ata := Ata(e.v.key, m.mint, m.program);
    QuietEnsureAta(e, q, ata);
    OpenEffect(e.v, q.ledger, m);
    var a := EnsureAta(e, q, ata).pass;
    QuietReject(e, a, BeginTokenDist(m.mint, m.program));
  }

  lemma QuietBeginDist(e: Env, p: Pass, m: MintInfo)
    requires Good(e, p) && Quiet(e) && p.ledger.log.Some? && ProgramIs(e.v, m.mint, m.program)
    ensures var r := BeginDist(e, p, m);
            && Passes(p, r)
            && OnlyDists(p.ledger, r.pass.ledger) && Only(p.ledger, r.pass.ledger, m.mint)
            && r.pass.stuck == p.stuck + (if Unopenable(e.v, p.ledger, m.mint) then {m.mint} else {})
            && r.pass.ledger.dists.Keys == p.ledger.dists.Keys + (if Unopenable(e.v, p.ledger, m.mint) then {} else {m.mint})
            && (m.mint !in p.ledger.dists && m.mint in r.pass.ledger.dists ==>
                  m.mint in r.pass.ledger.own && r.pass.ledger.dists[m.mint].paid == Zeros(|e.v.beneficiaries|))
            && (m.mint in p.ledger.dists ==> r.pass.ledger == p.ledger)
  {
    hide TryBegin, WellFormed, Only;
    QuietRead(e, p);
    var q := Read(e, p).pass;
    OnlyItself(p.ledger, m.mint);
    if m.mint in q.ledger.dists {
      assert p.ledger.dists.Keys + {m.mint} == p.ledger.dists.Keys;
    } else if Unopenable(e.v, p.ledger, m.mint) {
      StuckTryBegin(e, q, m);
    } else {
      QuietTryBegin(e, q, m);
    }
  }

  lemma UnopenableElsewhere(v: Vault, s: State, s': State, m: Pubkey, k: Pubkey)
    requires Only(s, s', m) && k != m && (k in s'.dists <==> k in s.dists)
    ensures Unopenable(v, s', k) <==> Unopenable(v, s, k)
  {
  }

  /** What the phase leaves: every mint of the list that can be is begun, the others are stuck. */
  ghost predicate Snapshots(e: Env, p: Pass, r: Pass, mints: seq<MintInfo>) {
    && OnlyDists(p.ledger, r.ledger) && Aside(p.ledger, r.ledger, mints)
    && (forall k :: k in r.stuck <==> k in p.stuck || (Chosen(mints, k) && Unopenable(e.v, p.ledger, k)))
    && (forall k :: k in r.ledger.dists <==> k in p.ledger.dists || (Chosen(mints, k) && !Unopenable(e.v, p.ledger, k)))
    && (forall k :: k in r.ledger.dists && k !in p.ledger.dists ==>
          k in r.ledger.own && r.ledger.dists[k].paid == Zeros(|e.v.beneficiaries|))
    && (forall k :: k in p.ledger.dists ==> (k in r.ledger.own <==> k in p.ledger.own))
  }

  lemma {:induction false} QuietBeginDists(e: Env, p: Pass, mints: seq<MintInfo>)
    requires Good(e, p) && Quiet(e) && p.ledger.log.Some? && Tidied(e.v, mints)
    ensures Passes(p, BeginDists(e, p, mints)) && Snapshots(e, p, BeginDists(e, p, mints).pass, mints)
    decreases |mints|
  {
    hide BeginDist, WellFormed, ProgramIs, Chosen, Unopenable, Only, Aside;
    if mints == [] {
      SameAccountsAside(p.ledger, p.ledger, []);
      NothingChosen();
    } else {
      QuietBeginDist(e, p, mints[0]);
      var q := BeginDist(e, p, mints[0]).pass;
      QuietBeginDists(e, q, mints[1..]);
      SnapshotsNext(e, p, q, BeginDists(e, p, mints).pass, mints);
    }
  }

  lemma OnlyDistsTransitive(a: State, b: State, c: State)
    requires OnlyDists(a, b) && OnlyDists(b, c)
    ensures OnlyDists(a, c)
  {
  }

  /** The facts about one mint, first for the mints before and then for the list. */
  lemma SnapshotOf(e: Env, p: Pass, q: Pass, r: Pass, mints: seq<MintInfo>, k: Pubkey)
    requires mints != [] && Tidied(e.v, mints) && Snapshots(e, q, r, mints[1..])
    requires OnlyDists(p.ledger, q.ledger) && Only(p.ledger, q.ledger, mints[0].mint) && OnlyDists(p.ledger, r.ledger)
    requires q.stuck == p.stuck + (if Unopenable(e.v, p.ledger, mints[0].mint) then {mints[0].mint} else {})
    requires q.ledger.dists.Keys == p.ledger.dists.Keys + (if Unopenable(e.v, p.ledger, mints[0].mint) then {} else {mints[0].mint})
    requires mints[0].mint !in p.ledger.dists && mints[0].mint in q.ledger.dists ==>
               mints[0].mint in q.ledger.own && q.ledger.dists[mints[0].mint].paid == Zeros(|e.v.beneficiaries|)
    requires mints[0].mint in p.ledger.dists ==> (mints[0].mint in q.ledger.own <==> mints[0].mint in p.ledger.own)
    ensures k in r.stuck <==> k in p.stuck || (Chosen(mints, k) && Unopenable(e.v, p.ledger, k))
    ensures k in r.ledger.dists <==> k in p.ledger.dists || (Chosen(mints, k) && !Unopenable(e.v, p.ledger, k))
    ensures k in r.ledger.dists && k !in p.ledger.dists ==>
              k in r.ledger.own && r.ledger.dists[k].paid == Zeros(|e.v.beneficiaries|)
    ensures k in p.ledger.dists ==> (k in r.ledger.own <==> k in p.ledger.own)
  {
    hide Tidied, Aside, Chosen, Unopenable;
    var m := mints[0].mint;
    FirstIsApart(e.v, mints);
    ChosenTail(mints, k);
    if k != m {
      assert k in q.ledger.dists <==> k in p.ledger.dists;
      UnopenableElsewhere(e.v, p.ledger, q.ledger, m, k);
    }
  }

  lemma FirstIsApart(v: Vault, mints: seq<MintInfo>)
    requires mints != [] && Tidied(v, mints)
    ensures !Chosen(mints[1..], mints[0].mint)
  {
    hide ProgramIs;
    NotAgain(mints);
  }

  lemma SnapshotsNext(e: Env, p: Pass, q: Pass, r: Pass, mints: seq<MintInfo>)
    requires mints != [] && Tidied(e.v, mints) && Snapshots(e, q, r, mints[1..])
    requires OnlyDists(p.ledger, q.ledger) && Only(p.ledger, q.ledger, mints[0].mint)
    requires q.stuck == p.stuck + (if Unopenable(e.v, p.ledger, mints[0].mint) then {mints[0].mint} else {})
    requires q.ledger.dists.Keys == p.ledger.dists.Keys + (if Unopenable(e.v, p.ledger, mints[0].mint) then {} else {mints[0].mint})
    requires mints[0].mint !in p.ledger.dists && mints[0].mint in q.ledger.dists ==>
               mints[0].mint in q.ledger.own && q.ledger.dists[mints[0].mint].paid == Zeros(|e.v.beneficiaries|)
    requires mints[0].mint in p.ledger.dists ==> (mints[0].mint in q.ledger.own <==> mints[0].mint in p.ledger.own)
    ensures Snapshots(e, p, r, mints)
  {
    hide Tidied, Aside, Chosen, Unopenable, Only;
    AsideNext(p.ledger, q.ledger, r.ledger, mints);
    OnlyDistsTransitive(p.ledger, q.ledger, r.ledger);
    forall k
      ensures k in r.stuck <==> k in p.stuck || (Chosen(mints, k) && Unopenable(e.v, p.ledger, k))
      ensures k in r.ledger.dists <==> k in p.ledger.dists || (Chosen(mints, k) && !Unopenable(e.v, p.ledger, k))
      ensures k in r.ledger.dists && k !in p.ledger.dists ==>
                k in r.ledger.own && r.ledger.dists[k].paid == Zeros(|e.v.beneficiaries|)
      ensures k in p.ledger.dists ==> (k in r.ledger.own <==> k in p.ledger.own)
    {
      SnapshotOf(e, p, q, r, mints, k);
    }
  }

  /** The frames of the first mint and of the rest make that of the list. */
  lemma AsideNext(a: State, b: State, c: State, mints: seq<MintInfo>)
    requires mints != [] && Only(a, b, mints[0].mint) && Aside(b, c, mints[1..])
    ensures Aside(a, c, mints)
  {
    hide Only, Aside;
    AsideWider(b, c, mints);
    ChosenTail(mints, mints[0].mint);
    OnlyIsAside(a, b, mints[0].mint, mints);
    AsideTransitive(a, b, c, mints);
  }

  lemma FirstAndRest(mints: seq<MintInfo>)
    requires mints != [] && forall i, k :: 0 <= i < k < |mints| ==> mints[i].mint != mints[k].mint
    ensures forall k :: Chosen(mints, k) <==> k == mints[0].mint || Chosen(mints[1..], k)
    ensures !Chosen(mints[1..], mints[0].mint)
  {
    hide Chosen;
    NotAgain(mints);
    forall k ensures Chosen(mints, k) <==> k == mints[0].mint || Chosen(mints[1..], k) {
      ChosenTail(mints, k);
    }
  }

  lemma NothingChosen()
    ensures forall m :: !Chosen([], m)
  {
  }

  // ---- bequests ----

  lemma {:induction false} ProgramForChosen(v: Vault, mints: seq<MintInfo>, mint: Pubkey)
    requires Chosen(mints, mint) && forall i :: 0 <= i < |mints| ==> ProgramIs(v, mints[i].mint, mints[i].program)
    ensures ProgramIs(v, mint, ProgramFor(mints, mint))
  {
    if mints[0].mint != mint {
      ChosenTail(mints, mint);
      ProgramForChosen(v, mints[1..], mint);
    }
  }

  /** What paying bequests leaves alone. */
  ghost predicate OnlyPlan(s: State, s': State) {
    s'.log == s.log && s'.dists == s.dists && s'.executed == s.executed && s'.own.Keys == s.own.Keys
  }

  /**
   * The loop invariant: before index j a bequest is paid or its mint stuck; from j on the mask in memory is
   * right, open mints are in the list under their programs, and the wallets can receive.
   */
  ghost predicate BequestsReady(e: Env, p: Pass, j: nat)
    requires Good(e, p) && j <= |e.v.Assignments()|
  {
    && p.ledger.log.Some?
    && (forall i :: 0 <= i < |p.mints| ==> ProgramIs(e.v, p.mints[i].mint, p.mints[i].program))
    && (forall i :: 0 <= i < j ==> p.ledger.planPaid[i] || IsStuck(e.v, p, i))
    && (forall i :: j <= i < |e.v.Assignments()| ==> (BitSet(p.planMask, i) <==> p.ledger.planPaid[i]))
    && (forall i :: j <= i < |e.v.Assignments()| && !p.ledger.planPaid[i] && Open(p.ledger, e.v.Assignments()[i].mint) ==>
          Chosen(p.mints, e.v.Assignments()[i].mint))
    && (forall i :: j <= i < |e.v.Assignments()| && !p.ledger.planPaid[i] ==> BequestServes(e.v, i))
  }

  predicate IsStuck(v: Vault, p: Pass, i: nat)
    requires i < |v.Assignments()|
  {
    v.Assignments()[i].mint != DEFAULT_KEY && v.Assignments()[i].mint in p.stuck
  }

  lemma ReadyInOrder(e: Env, p: Pass, j: nat)
    requires Good(e, p) && j < |e.v.Assignments()| && BequestsReady(e, p, j) && !IsStuck(e.v, p, j)
    ensures EarlierPaid(e.v, p.ledger.planPaid, j)
  {
    hide SolCovered, MintCovered, Shelved, BitSet, Chosen, BequestServes;
    assert forall i :: 0 <= i < j ==> p.ledger.planPaid[i] || IsStuck(e.v, p, i);
  }

  lemma QuietTryBequest(e: Env, p: Pass, j: nat)
    requires Good(e, p) && Quiet(e) && j < |e.v.Assignments()| && BequestsReady(e, p, j)
    requires !p.ledger.planPaid[j] && !IsStuck(e.v, p, j)
    requires e.v.Assignments()[j].mint != DEFAULT_KEY && Open(p.ledger, e.v.Assignments()[j].mint)
    ensures var r := TryBequest(e, p, j);
            && r.Next? && Same(p, r.pass)
            && OnlyPlan(p.ledger, r.pass.ledger) && Only(p.ledger, r.pass.ledger, e.v.Assignments()[j].mint)
            && r.pass.ledger.planPaid == p.ledger.planPaid[j := true]
            && DustKept(e.v, p.ledger, r.pass.ledger)
  {
    ReadyInOrder(e, p, j);
    var a := e.v.Assignments()[j];
    ProgramForChosen(e.v, p.mints, a.mint);
    var program := ProgramFor(p.mints, a.mint);
    var wallet := e.v.Wallet(a.beneficiary);
    var p' := Enter(p, TokenBlock(a.mint, "execute_specific_asset"));
    var ata := Ata(wallet, a.mint, program);
    var ix := SpecificAsset(j, program);
    assert wallet !in e.v.offCurve;
    hide WellFormed, BequestsReady, DustOf, EarlierPaid, EnsureFor, Submit, Enabled, Effect, Only, BequestServes;
    QuietEnsureFor(e, p', ata);
    var q := EnsureFor(e, p', ata).pass;
    OpenBequestEffect(e.v, p.ledger, q.ledger, j, program);
    QuietSubmit(e, q, ix);
    BequestDustKept(e.v, p.ledger, q.ledger, ix);
  }

  /** With the account of its beneficiary the bequest is due, and it touches this mint only. */
  lemma OpenBequestEffect(v: Vault, s: State, t: State, j: nat, program: Pubkey)
    requires WellFormed(v, s) && WellFormed(v, t) && s.log.Some? && j < |v.Assignments()| && t == s.(atas := t.atas)
    requires v.Assignments()[j].mint != DEFAULT_KEY && Open(s, v.Assignments()[j].mint) && ProgramIs(v, v.Assignments()[j].mint, program)
    requires !s.planPaid[j] && EarlierPaid(v, s.planPaid, j)
    requires v.Wallet(v.Assignments()[j].beneficiary) !in v.offCurve
    requires Ata(v.Wallet(v.Assignments()[j].beneficiary), v.Assignments()[j].mint, program) in t.atas
    ensures var ix := SpecificAsset(j, program);
            && Enabled(v, t, ix)
            && var u := Effect(v, t, ix);
            && OnlyPlan(s, u) && Only(s, u, v.Assignments()[j].mint) && u.planPaid == s.planPaid[j := true]
  {
    hide SolCovered, MintCovered, Shelved, Debit, EarlierPaid;
  }

  /** Without open TokenDist or account the bequest fails, at the latest when it is submitted. */
  lemma StuckTryBequest(e: Env, p: Pass, j: nat)
    requires Good(e, p) && Quiet(e) && j < |e.v.Assignments()| && BequestServes(e.v, j)
    requires e.v.Assignments()[j].mint != DEFAULT_KEY && !Open(p.ledger, e.v.Assignments()[j].mint)
    ensures FailsAlone(p, TryBequest(e, p, j))
  {
    hide SolCovered, MintCovered, Shelved, EnsureFor, Submit, EarlierPaid;
    var a := e.v.Assignments()[j];
    var program := ProgramFor(p.mints, a.mint);
    var ata := Ata(e.v.Wallet(a.beneficiary), a.mint, program);
    var q := Enter(p, TokenBlock(a.mint, "execute_specific_asset"));
    QuietEnsureAny(e, q, ata);
    var r := EnsureFor(e, q, ata);
    if r.Next? {
      QuietReject(e, r.pass, SpecificAsset(j, program));
    }
  }

  lemma BequestDustKept(v: Vault, s: State, t: State, ix: Ix)
    requires WellFormed(v, t) && Enabled(v, t, ix) && (ix.SpecificAsset? || ix.SpecificSol?) && t == s.(atas := t.atas)
    ensures DustKept(v, s, Effect(v, t, ix))
  {
    hide WellFormed, Enabled, DustOf;
    DustDependsOn(v, s, t);
    forall m | m in t.dists ensures DustOf(v, Effect(v, t, ix), m) == DustOf(v, t, m) {
      BequestKeepsDust(v, t, ix, m);
    }
  }

  /** The loop goes on: index j is paid or its mint stuck, and the rest is as it was. */
  lemma BequestsReadyNext(e: Env, p: Pass, q: Pass, j: nat)
    requires Good(e, p) && Good(e, q) && j < |e.v.Assignments()| && BequestsReady(e, p, j)
    requires SameLists(p, q) && p.stuck <= q.stuck && OnlyPlan(p.ledger, q.ledger)
    requires q.ledger.planPaid == p.ledger.planPaid[j := true] || (q.ledger.planPaid == p.ledger.planPaid && IsStuck(e.v, q, j))
    ensures BequestsReady(e, q, j + 1)
  {
    hide SolCovered, MintCovered, Shelved, BitSet, Chosen, BequestServes;
    forall i | 0 <= i < j + 1 ensures q.ledger.planPaid[i] || IsStuck(e.v, q, i) {
      if i < j { assert p.ledger.planPaid[i] || IsStuck(e.v, p, i); }
    }
  }

  lemma QuietSolBequest(e: Env, p: Pass, j: nat)
    requires Good(e, p) && Quiet(e) && j < |e.v.Assignments()| && BequestsReady(e, p, j)
    requires !p.ledger.planPaid[j] && e.v.Assignments()[j].mint == DEFAULT_KEY
    ensures var r := Submit(e, Enter(p, SolBlock), SpecificSol(j));
            && r.Next? && Same(p, r.pass) && OnlyPlan(p.ledger, r.pass.ledger)
            && r.pass.ledger.own == p.ledger.own && r.pass.ledger.shelf == p.ledger.shelf
            && r.pass.ledger.delayOver == p.ledger.delayOver
            && r.pass.ledger.planPaid == p.ledger.planPaid[j := true]
            && DustKept(e.v, p.ledger, r.pass.ledger)
  {
    SolBequestServes(e.v, j);
    ReadyInOrder(e, p, j);
    hide SolCovered, MintCovered, Shelved, BitSet, Debit, DustOf, Submit, Chosen, BequestServes, EarlierPaid;
    QuietSubmit(e, Enter(p, SolBlock), SpecificSol(j));
    BequestDustKept(e.v, p.ledger, p.ledger, SpecificSol(j));
  }

  /** A bequest that is tried on a mint that is not open. */
  predicate Misses(v: Vault, s: State, j: nat)
    requires j < |v.Assignments()| == |s.planPaid|
  {
    !s.planPaid[j] && v.Assignments()[j].mint != DEFAULT_KEY && !Open(s, v.Assignments()[j].mint)
  }

  /** What one turn of the loop comes to. */
  ghost predicate BequestTurn(e: Env, p: Pass, r: Flow, j: nat)
    requires Good(e, p) && j < |e.v.Assignments()|
  {
    && Passes(p, r)
    && OnlyPlan(p.ledger, r.pass.ledger) && Aside(p.ledger, r.pass.ledger, p.mints) && DustKept(e.v, p.ledger, r.pass.ledger)
    && r.pass.stuck == p.stuck + (if Misses(e.v, p.ledger, j) then {e.v.Assignments()[j].mint} else {})
    && (r.pass.ledger.planPaid == p.ledger.planPaid[j := true] || (r.pass.ledger.planPaid == p.ledger.planPaid && IsStuck(e.v, r.pass, j)))
  }

  lemma PaidTurn(e: Env, p: Pass, j: nat)
    requires Good(e, p) && Quiet(e) && j < |e.v.Assignments()| && BequestsReady(e, p, j)
    requires p.ledger.planPaid[j] || IsStuck(e.v, p, j)
    ensures BequestTurn(e, p, Bequest(e, p, j), j)
  {
    assert BitSet(p.planMask, j) <==> p.ledger.planPaid[j];
    hide TryBequest, Submit, WellFormed, BitSet, Aside, DustKept, BequestsReady;
    SameAccountsAside(p.ledger, p.ledger, p.mints);
    DustDependsOn(e.v, p.ledger, p.ledger);
    if p.ledger.planPaid[j] {
      assert p.ledger.planPaid[j := true] == p.ledger.planPaid;
    }
  }

  lemma SolTurnPays(e: Env, p: Pass, j: nat)
    requires Good(e, p) && Quiet(e) && j < |e.v.Assignments()| && BequestsReady(e, p, j)
    requires !p.ledger.planPaid[j] && e.v.Assignments()[j].mint == DEFAULT_KEY
    ensures BequestTurn(e, p, Bequest(e, p, j), j)
  {
    assert BitSet(p.planMask, j) <==> p.ledger.planPaid[j];
    hide TryBequest, Submit, WellFormed, BitSet, Aside, DustKept, BequestsReady;
    QuietSolBequest(e, p, j);
    SameAccountsAside(p.ledger, Bequest(e, p, j).pass.ledger, p.mints);
  }

  lemma TokenTurnIs(e: Env, p: Pass, j: nat)
    requires Good(e, p) && Quiet(e) && j < |e.v.Assignments()| && BequestsReady(e, p, j)
    requires !p.ledger.planPaid[j] && e.v.Assignments()[j].mint != DEFAULT_KEY && !IsStuck(e.v, p, j)
    ensures Bequest(e, p, j) == Catch(TryBequest(e, p, j), e.v.Assignments()[j].mint, "execute_specific_asset")
    ensures BequestServes(e.v, j)
    ensures Open(p.ledger, e.v.Assignments()[j].mint) ==> Chosen(p.mints, e.v.Assignments()[j].mint)
  {
    assert BitSet(p.planMask, j) <==> p.ledger.planPaid[j];
    hide WellFormed, BitSet, TryBequest, Catch;
  }

  lemma OpenTurn(e: Env, p: Pass, j: nat)
    requires Good(e, p) && Quiet(e) && j < |e.v.Assignments()| && BequestsReady(e, p, j)
    requires !p.ledger.planPaid[j] && e.v.Assignments()[j].mint != DEFAULT_KEY && !IsStuck(e.v, p, j)
    requires Open(p.ledger, e.v.Assignments()[j].mint)
    ensures BequestTurn(e, p, Bequest(e, p, j), j)
  {
    hide Bequest, TryBequest, WellFormed, Aside, Only, Chosen, DustKept, BequestsReady, BequestServes, Quiet, IsStuck, OnlyPlan;
    TokenTurnIs(e, p, j);
    QuietTryBequest(e, p, j);
    OnlyIsAside(p.ledger, TryBequest(e, p, j).pass.ledger, e.v.Assignments()[j].mint, p.mints);
  }

  lemma MissedTurn(e: Env, p: Pass, j: nat)
    requires Good(e, p) && Quiet(e) && j < |e.v.Assignments()| && BequestsReady(e, p, j)
    requires !p.ledger.planPaid[j] && e.v.Assignments()[j].mint != DEFAULT_KEY && !IsStuck(e.v, p, j)
    requires !Open(p.ledger, e.v.Assignments()[j].mint)
    ensures BequestTurn(e, p, Bequest(e, p, j), j)
  {
    hide Bequest, TryBequest, WellFormed, Aside, Open, DustKept, BequestsReady, BequestServes, Quiet;
    TokenTurnIs(e, p, j);
    StuckTryBequest(e, p, j);
    var t := TryBequest(e, p, j).pass.ledger;
    SameAccountsAside(p.ledger, t, p.mints);
    DustDependsOn(e.v, p.ledger, t);
  }

  lemma QuietBequest(e: Env, p: Pass, j: nat)
    requires Good(e, p) && Quiet(e) && j < |e.v.Assignments()| && BequestsReady(e, p, j)
    ensures BequestTurn(e, p, Bequest(e, p, j), j) && BequestsReady(e, Bequest(e, p, j).pass, j + 1)
  {
    hide Bequest, SolCovered, MintCovered, Shelved, Aside, DustKept, BequestsReady, Misses;
    if p.ledger.planPaid[j] || IsStuck(e.v, p, j) {
      PaidTurn(e, p, j);
    } else if e.v.Assignments()[j].mint == DEFAULT_KEY {
      SolTurnPays(e, p, j);
    } else if Open(p.ledger, e.v.Assignments()[j].mint) {
      OpenTurn(e, p, j);
    } else {
      MissedTurn(e, p, j);
    }
    BequestsReadyNext(e, p, Bequest(e, p, j).pass, j);
  }

  lemma SolBequestServes(v: Vault, j: nat)
    requires v.Valid() && j < |v.Assignments()| && BequestServes(v, j)
    ensures v.Assignments()[j].mint == DEFAULT_KEY ==> v.Wallet(v.Assignments()[j].beneficiary) != v.key
  {
  }

  /** From index j on, the mints of bequests that miss. */
  ghost predicate MissedFrom(v: Vault, s: State, j: nat, k: Pubkey)
    requires |s.planPaid| == |v.Assignments()|
  {
    exists i :: j <= i < |v.Assignments()| && v.Assignments()[i].mint == k && Misses(v, s, i)
  }

  lemma MissedNext(v: Vault, s: State, t: State, j: nat, k: Pubkey)
    requires |s.planPaid| == |v.Assignments()| == |t.planPaid| && j < |v.Assignments()| && OnlyPlan(s, t)
    requires t.planPaid == s.planPaid || t.planPaid == s.planPaid[j := true]
    ensures MissedFrom(v, s, j, k) <==> MissedFrom(v, t, j + 1, k) || (v.Assignments()[j].mint == k && Misses(v, s, j))
  {
    forall i | j + 1 <= i < |v.Assignments()| ensures Misses(v, t, i) <==> Misses(v, s, i) {
    }
  }

  /** Every bequest is paid or its mint stuck, and the mints that get stuck are those of bequests that miss. */
  lemma {:induction false} QuietBequests(e: Env, p: Pass, j: nat)
    requires Good(e, p) && Quiet(e) && j <= |e.v.Assignments()| && BequestsReady(e, p, j)
    ensures var r := Bequests(e, p, j);
            && Passes(p, r)
            && OnlyPlan(p.ledger, r.pass.ledger) && Aside(p.ledger, r.pass.ledger, p.mints)
            && BequestsReady(e, r.pass, |e.v.Assignments()|) && DustKept(e.v, p.ledger, r.pass.ledger)
            && (forall k :: k in r.pass.stuck <==> k in p.stuck || MissedFrom(e.v, p.ledger, j, k))
    decreases |e.v.Assignments()| - j
  {
    hide Bequest, SolCovered, MintCovered, Shelved, DustOf, BequestsReady, Misses, Aside;
    SameAccountsAside(p.ledger, p.ledger, p.mints);
    if j < |e.v.Assignments()| {
      QuietBequest(e, p, j);
      var q := Bequest(e, p, j).pass;
      QuietBequests(e, q, j + 1);
      var r := Bequests(e, p, j).pass;
      AsideTransitive(p.ledger, q.ledger, r.ledger, p.mints);
      DustKeptTransitive(e.v, p.ledger, q.ledger, r.ledger);
      forall k ensures MissedFrom(e.v, p.ledger, j, k) <==>
                         MissedFrom(e.v, q.ledger, j + 1, k) || (e.v.Assignments()[j].mint == k && Misses(e.v, p.ledger, j)) {
        MissedNext(e.v, p.ledger, q.ledger, j, k);
      }
    }
  }

  // ---- batches ----

  /** A batch of clear indices, each once. */
  predicate Payable(paid: seq<bool>, indices: seq<nat>) {
    && indices != []
    && (forall k :: 0 <= k < |indices| ==> indices[k] < |paid| && !paid[indices[k]])
    && (forall k, l :: 0 <= k < l < |indices| ==> indices[k] != indices[l])
  }

  /** Each part is payable in turn, and after the last one every bit is set. */
  ghost predicate Pending(paid: seq<bool>, parts: seq<seq<nat>>)
    decreases |parts|
  {
    if parts == [] then AllSet(paid)
    else Payable(paid, parts[0]) && Pending(Pay(paid, parts[0]), parts[1..])
  }

  /** The list holds exactly the clear indices, each once. */
  ghost predicate ListsClear(paid: seq<bool>, indices: seq<nat>) {
    && (forall i: nat :: i in indices <==> i < |paid| && !paid[i])
    && (forall k, l :: 0 <= k < l < |indices| ==> indices[k] != indices[l])
  }

  lemma {:induction false} ChunksArePending(paid: seq<bool>, indices: seq<nat>, n: nat)
    requires n > 0 && ListsClear(paid, indices)
    ensures Pending(paid, Chunk(indices, n))
    decreases |indices|
  {
    if indices == [] {
      assert AllSet(paid) by {
        forall i: nat | i < |paid| ensures paid[i] { assert i !in indices; }
      }
    } else {
      var c := Min(n, |indices|);
      var head, rest := indices[..c], indices[c..];
      assert indices == head + rest;
      assert Payable(paid, head) by {
        forall k | 0 <= k < |head| ensures head[k] < |paid| && !paid[head[k]] { assert head[k] in indices; }
      }
      assert forall i :: i in rest ==> i !in head;
      assert forall i :: i in indices <==> i in head || i in rest;
      ChunksArePending(Pay(paid, head), rest, n);
    }
  }

  lemma PendingStarts(paid: seq<bool>)
    ensures Pending(paid, Chunk(Unpaid(Mask(paid), |paid|), BATCH))
  {
    UnpaidSpec(Mask(paid), |paid|);
    forall i: nat ensures BitSet(Mask(paid), i) <==> i < |paid| && paid[i] {
      BitSetReadsBit(paid, i);
    }
    ChunksArePending(paid, Unpaid(Mask(paid), |paid|), BATCH);
  }

  /** What the SOL batches leave alone. */
  ghost predicate OnlyLog(s: State, s': State) {
    s' == s.(log := s'.log, lamports := s'.lamports)
  }

  lemma SolServesStill(v: Vault, log: ExecutionLog, part: seq<nat>)
    requires |log.solPaid| == |v.beneficiaries| && SolServes(v, log)
    ensures SolServes(v, log.(solPaid := Pay(log.solPaid, part)))
  {
    hide Shares;
  }

  lemma QuietSolBatch(e: Env, p: Pass, part: seq<nat>)
    requires Good(e, p) && Quiet(e) && p.ledger.log.Some? && !p.ledger.executed && SolServes(e.v, p.ledger.log.value)
    requires Payable(p.ledger.log.value.solPaid, part)
    ensures var r := Submit(e, p, SolShares(part));
            && r.Next? && Same(p, r.pass) && OnlyLog(p.ledger, r.pass.ledger)
            && r.pass.ledger.log.Some?
            && r.pass.ledger.log.value == p.ledger.log.value.(solPaid := Pay(p.ledger.log.value.solPaid, part))
            && |r.pass.ledger.log.value.solPaid| == |e.v.beneficiaries| && SolServes(e.v, r.pass.ledger.log.value)
  {
    hide MintCovered, Shelved, Submit, Shares;
    assert AllBelow(part, |e.v.beneficiaries|);
    QuietSubmit(e, p, SolShares(part));
    SolServesStill(e.v, p.ledger.log.value, part);
  }

  lemma {:induction false} QuietSolBatches(e: Env, p: Pass, parts: seq<seq<nat>>)
    requires Good(e, p) && Quiet(e) && p.ledger.log.Some? && !p.ledger.executed && SolServes(e.v, p.ledger.log.value)
    requires Pending(p.ledger.log.value.solPaid, parts)
    ensures var r := SolBatches(e, p, parts);
            && r.Next? && Same(p, r.pass) && OnlyLog(p.ledger, r.pass.ledger)
            && r.pass.ledger.log.Some? && AllSet(r.pass.ledger.log.value.solPaid)
            && r.pass.ledger.log.value.completed == p.ledger.log.value.completed
    decreases |parts|
  {
    hide WellFormed, Submit, Payable, SolServes;
    if parts != [] {
      QuietSolBatch(e, p, parts[0]);
      QuietSolBatches(e, Submit(e, p, SolShares(parts[0])).pass, parts[1..]);
    }
  }

  /** An executed vault has no SOL left to pay. */
  lemma QuietPaySol(e: Env, p: Pass)
    requires Good(e, p) && Quiet(e) && p.ledger.log.Some? && (p.ledger.executed || SolServes(e.v, p.ledger.log.value))
    ensures var r := PaySol(e, p);
            && r.Next? && Same(p, r.pass) && OnlyLog(p.ledger, r.pass.ledger)
            && r.pass.ledger.log.Some? && AllSet(r.pass.ledger.log.value.solPaid)
            && r.pass.ledger.log.value.completed == p.ledger.log.value.completed
  {
    hide SolCovered, MintCovered, Shelved, SolServes;
    QuietRead(e, p);
    var q := ReadLog(e, p).pass;
    var parts := Chunk(Unpaid(q.solMask, |e.v.beneficiaries|), BATCH);
    PendingStarts(q.ledger.log.value.solPaid);
    if p.ledger.executed {
      NothingPending(q.ledger.log.value.solPaid, parts);
    } else {
      QuietSolBatches(e, q, parts);
    }
  }

  lemma FullIsNotPayable(paid: seq<bool>, indices: seq<nat>)
    requires AllSet(paid)
    ensures !Payable(paid, indices)
  {
    assert indices != [] && indices[0] < |paid| ==> paid[indices[0]];
  }

  lemma NothingPending(paid: seq<bool>, parts: seq<seq<nat>>)
    requires Pending(paid, parts) && AllSet(paid)
    ensures parts == []
  {
    if parts != [] {
      FullIsNotPayable(paid, parts[0]);
    }
  }

  /** The gate opens exactly if everything is paid and nothing is stuck. */
  lemma QuietFinalize(e: Env, p: Pass)
    requires Good(e, p) && Quiet(e) && p.ledger.log.Some? && AllSet(p.ledger.log.value.solPaid)
    ensures var r := FinalizeIfFull(e, p);
            && r.Next? && r.pass.stuck == p.stuck && r.pass.skipped == p.skipped && r.pass.mints == p.mints
            && r.pass.executed == p.executed
            && if !p.ledger.executed && AllSet(p.ledger.planPaid) && p.stuck == {} then
                 Enabled(e.v, p.ledger, Finalize) && r.pass.ledger == Effect(e.v, p.ledger, Finalize)
               else r.pass.ledger == p.ledger
  {
    hide SolCovered, MintCovered, Shelved, Submit;
    QuietRead(e, p);
    var a := ReadLog(e, p).pass;
    MaskIsFull(a.ledger.log.value.solPaid);
    QuietRead(e, a);
    var b := ReadPlan(e, a).pass;
    MaskIsFull(b.ledger.planPaid);
    EmptyCounts(p.stuck);
    if KeeperGate(e, b) {
      QuietSubmit(e, b, Finalize);
    }
  }

  lemma EmptyCounts(s: set<Pubkey>)
    ensures |s| == 0 <==> s == {}
  {
  }

  // ---- token shares ----

  /** What paying one mint leaves alone. */
  ghost predicate OnlyMint(s: State, s': State, mint: Pubkey) {
    && s'.log == s.log && s'.planPaid == s.planPaid && s'.executed == s.executed
    && s'.dists.Keys == s.dists.Keys && s'.own.Keys == s.own.Keys
    && (forall m :: m in s.dists && m != mint ==> s'.dists[m] == s.dists[m])
  }

  lemma {:induction false} QuietEnsureAtas(e: Env, p: Pass, m: MintInfo, part: seq<nat>)
    requires Good(e, p) && Quiet(e) && ProgramIs(e.v, m.mint, m.program)
    requires forall k :: 0 <= k < |part| ==> part[k] < |e.v.beneficiaries| && e.v.Wallet(part[k]) !in e.v.offCurve
    ensures var r := EnsureAtas(e, p, m, part);
            && r.Next? && Same(p, r.pass)
            && r.pass.ledger == p.ledger.(atas := r.pass.ledger.atas)
            && p.ledger.atas <= r.pass.ledger.atas
            && forall k :: 0 <= k < |part| ==> Ata(e.v.Wallet(part[k]), m.mint, m.program) in r.pass.ledger.atas
    decreases |part|
  {
    hide WellFormed, EnsureFor;
    if part != [] {
      var ata := Ata(e.v.Wallet(part[0]), m.mint, m.program);
      QuietEnsureFor(e, p, ata);
      var q := EnsureFor(e, p, ata).pass;
      QuietEnsureAtas(e, q, m, part[1..]);
      var r := EnsureAtas(e, p, m, part).pass;
      forall k | 0 <= k < |part| ensures Ata(e.v.Wallet(part[k]), m.mint, m.program) in r.ledger.atas {
        if k > 0 { assert part[1..][k - 1] == part[k]; }
      }
    }
  }

  lemma TokenBatchEnabled(v: Vault, s: State, m: MintInfo, part: seq<nat>)
    requires WellFormed(v, s) && ProgramIs(v, m.mint, m.program)
    requires m.mint in s.dists && m.mint in s.own && Payable(s.dists[m.mint].paid, part)
    requires forall k :: 0 <= k < |part| ==>
               part[k] < |v.beneficiaries| && v.Wallet(part[k]) !in v.offCurve && Ata(v.Wallet(part[k]), m.mint, m.program) in s.atas
    ensures Enabled(v, s, TokenShares(m.mint, m.program, part))
  {
    hide SolCovered, Shelved, Shares;
    assert MintCovered(v, s, m.mint);
    forall i | i in part && !s.dists[m.mint].paid[i] ensures Exists(v, s, Ata(v.Wallet(i), m.mint, m.program)) {
      var k :| 0 <= k < |part| && part[k] == i;
    }
  }

  lemma ShareServesStill(v: Vault, paid: seq<bool>, part: seq<nat>)
    requires |paid| == |v.beneficiaries| && ShareServes(v, paid)
    ensures ShareServes(v, Pay(paid, part))
  {
  }

  lemma TokenBatchEffect(v: Vault, s: State, m: MintInfo, part: seq<nat>)
    requires WellFormed(v, s) && Enabled(v, s, TokenShares(m.mint, m.program, part))
    ensures var t := Effect(v, s, TokenShares(m.mint, m.program, part));
            && OnlyMint(s, t, m.mint) && Only(s, t, m.mint)
            && m.mint in t.dists && t.dists[m.mint].paid == Pay(s.dists[m.mint].paid, part)
  {
    hide SolCovered, MintCovered, Shelved, Shares, Due;
  }

  lemma QuietTokenBatch(e: Env, p: Pass, m: MintInfo, part: seq<nat>)
    requires Good(e, p) && Quiet(e) && ProgramIs(e.v, m.mint, m.program)
    requires m.mint in p.ledger.dists && |p.ledger.dists[m.mint].paid| == |e.v.beneficiaries| && m.mint in p.ledger.own
    requires Payable(p.ledger.dists[m.mint].paid, part) && AllBelow(part, |e.v.beneficiaries|)
    requires ShareServes(e.v, p.ledger.dists[m.mint].paid)
    ensures var a := EnsureAtas(e, p, m, part);
            && a.Next?
            && var r := Submit(e, a.pass, TokenShares(m.mint, m.program, part));
            && r.Next? && Same(p, r.pass)
            && OnlyMint(p.ledger, r.pass.ledger, m.mint) && Only(p.ledger, r.pass.ledger, m.mint)
            && r.pass.ledger.dists[m.mint].paid == Pay(p.ledger.dists[m.mint].paid, part)
            && DustKept(e.v, p.ledger, r.pass.ledger)
  {
    assert forall k :: 0 <= k < |part| ==> e.v.Wallet(part[k]) !in e.v.offCurve;
    hide WellFormed, Submit, Enabled, Effect, Payable, DustOf, ShareServes, Only;
    QuietEnsureAtas(e, p, m, part);
    var a := EnsureAtas(e, p, m, part).pass;
    TokenBatchEnabled(e.v, a.ledger, m, part);
    QuietSubmit(e, a, TokenShares(m.mint, m.program, part));
    TokenBatchEffect(e.v, a.ledger, m, part);
    ShareDustKept(e.v, p.ledger, a.ledger, TokenShares(m.mint, m.program, part));
    OnlyAtas(p.ledger, a.ledger, m.mint);
    OnlyTransitive(p.ledger, a.ledger, Submit(e, a, TokenShares(m.mint, m.program, part)).pass.ledger, m.mint);
  }

  lemma ShareDustKept(v: Vault, s: State, t: State, ix: Ix)
    requires WellFormed(v, t) && Enabled(v, t, ix) && ix.TokenShares? && t == s.(atas := t.atas)
    ensures DustKept(v, s, Effect(v, t, ix))
  {
    hide WellFormed, Enabled, DustOf;
    DustDependsOn(v, s, t);
    forall m | m in t.dists ensures m in Effect(v, t, ix).dists && DustOf(v, Effect(v, t, ix), m) == DustOf(v, t, m) {
      SharesKeepDust(v, t, ix, m);
    }
  }

  lemma PaidIsWide(v: Vault, s: State, m: Pubkey)
    requires WellFormed(v, s) && m in s.dists
    ensures |s.dists[m].paid| == |v.beneficiaries|
  {
  }

  lemma OnlyTransitive(a: State, b: State, c: State, m: Pubkey)
    requires Only(a, b, m) && Only(b, c, m)
    ensures Only(a, c, m)
  {
  }

  lemma {:induction false} QuietTokenBatches(e: Env, p: Pass, m: MintInfo, parts: seq<seq<nat>>)
    requires Good(e, p) && Quiet(e) && InRange(parts, |e.v.beneficiaries|)
    requires ProgramIs(e.v, m.mint, m.program) && m.mint in p.ledger.dists && m.mint in p.ledger.own
    requires ShareServes(e.v, p.ledger.dists[m.mint].paid)
    requires Pending(p.ledger.dists[m.mint].paid, parts)
    ensures var r := TokenBatches(e, p, m, parts);
            && r.Next? && Same(p, r.pass)
            && OnlyMint(p.ledger, r.pass.ledger, m.mint) && Only(p.ledger, r.pass.ledger, m.mint)
            && AllSet(r.pass.ledger.dists[m.mint].paid) && DustKept(e.v, p.ledger, r.pass.ledger)
    decreases |parts|
  {
    hide Submit, WellFormed, Payable, Only, DustOf, ShareServes;
    OnlyItself(p.ledger, m.mint);
    if parts != [] {
      PaidIsWide(e.v, p.ledger, m.mint);
      QuietTokenBatch(e, p, m, parts[0]);
      ShareServesStill(e.v, p.ledger.dists[m.mint].paid, parts[0]);
      var a := EnsureAtas(e, p, m, parts[0]).pass;
      var b := Submit(e, a, TokenShares(m.mint, m.program, parts[0])).pass;
      QuietTokenBatches(e, b, m, parts[1..]);
      OnlyTransitive(p.ledger, b.ledger, TokenBatches(e, p, m, parts).pass.ledger, m.mint);
    }
  }

  lemma OnlyAtas(s: State, s': State, m: Pubkey)
    requires s' == s.(atas := s'.atas)
    ensures Only(s, s', m)
  {
  }

  lemma OnlyItself(s: State, m: Pubkey)
    ensures Only(s, s, m)
  {
  }

  /** Without the vault's account the first batch is rejected, after the accounts of its beneficiaries were opened. */
  lemma StuckTokenBatches(e: Env, p: Pass, m: MintInfo, parts: seq<seq<nat>>)
    requires Good(e, p) && Quiet(e) && InRange(parts, |e.v.beneficiaries|)
    requires ProgramIs(e.v, m.mint, m.program) && Barren(p.ledger, m.mint)
    requires ShareServes(e.v, p.ledger.dists[m.mint].paid)
    requires Pending(p.ledger.dists[m.mint].paid, parts) && parts != []
    ensures FailsAlone(p, TokenBatches(e, p, m, parts))
  {
    PaidIsWide(e.v, p.ledger, m.mint);
    assert forall k :: 0 <= k < |parts[0]| ==> e.v.Wallet(parts[0][k]) !in e.v.offCurve;
    hide WellFormed, Submit, Payable, ShareServes, EnsureAtas;
    QuietEnsureAtas(e, p, m, parts[0]);
    var a := EnsureAtas(e, p, m, parts[0]).pass;
    NoAccountNoShares(e.v, a.ledger, m, parts[0]);
    QuietReject(e, a, TokenShares(m.mint, m.program, parts[0]));
  }

  lemma NoAccountNoShares(v: Vault, s: State, m: MintInfo, part: seq<nat>)
    requires WellFormed(v, s) && m.mint !in s.own
    ensures !Enabled(v, s, TokenShares(m.mint, m.program, part))
  {
  }

  /** A TokenDist without the vault's account that still has shares to pay. */
  predicate Withers(s: State, m: Pubkey) {
    Barren(s, m) && !AllSet(s.dists[m].paid)
  }

  lemma QuietTokenShares(e: Env, p: Pass, m: MintInfo, parts: seq<seq<nat>>)
    requires Good(e, p) && Quiet(e) && InRange(parts, |e.v.beneficiaries|)
    requires ProgramIs(e.v, m.mint, m.program) && m.mint in p.ledger.dists
    requires ShareServes(e.v, p.ledger.dists[m.mint].paid) && Pending(p.ledger.dists[m.mint].paid, parts)
    ensures var r := TokenBatches(e, p, m, parts);
            && (if Withers(p.ledger, m.mint) then FailsAlone(p, r) else r.Next? && Same(p, r.pass))
            && OnlyMint(p.ledger, r.pass.ledger, m.mint) && Only(p.ledger, r.pass.ledger, m.mint)
            && (r.Next? ==> AllSet(r.pass.ledger.dists[m.mint].paid)) && DustKept(e.v, p.ledger, r.pass.ledger)
            && (Barren(p.ledger, m.mint) ==> r.pass.ledger.dists == p.ledger.dists)
  {
    hide WellFormed, ShareServes, DustOf;
    if m.mint in p.ledger.own {
      QuietTokenBatches(e, p, m, parts);
    } else if Withers(p.ledger, m.mint) {
      assert parts != [];
      StuckTokenBatches(e, p, m, parts);
      DustDependsOn(e.v, p.ledger, TokenBatches(e, p, m, parts).pass.ledger);
    } else {
      NothingPending(p.ledger.dists[m.mint].paid, parts);
      OnlyItself(p.ledger, m.mint);
    }
  }

  /** What paying the shares of one mint comes to. */
  ghost predicate TokenPaid(e: Env, p: Pass, r: Pass, m: Pubkey) {
    && OnlyMint(p.ledger, r.ledger, m) && Only(p.ledger, r.ledger, m) && DustKept(e.v, p.ledger, r.ledger)
    && r.stuck == p.stuck + (if m !in p.stuck && Withers(p.ledger, m) then {m} else {})
    && (m in r.ledger.dists && m !in r.stuck ==> AllSet(r.ledger.dists[m].paid))
    && (m in p.ledger.dists && (m in p.stuck || Barren(p.ledger, m)) ==> r.ledger.dists[m] == p.ledger.dists[m])
  }

  lemma QuietPayToken(e: Env, p: Pass, m: MintInfo)
    requires Good(e, p) && Quiet(e) && ProgramIs(e.v, m.mint, m.program)
    requires m.mint in p.ledger.dists ==> |p.ledger.dists[m.mint].paid| == |e.v.beneficiaries|
    requires m.mint in p.ledger.dists && m.mint !in p.stuck ==> ShareServes(e.v, p.ledger.dists[m.mint].paid)
    ensures Passes(p, PayToken(e, p, m)) && TokenPaid(e, p, PayToken(e, p, m).pass, m.mint)
  {
    hide SolCovered, MintCovered, Shelved, DustOf, ShareServes, TokenBatches, Only, Withers;
    OnlyItself(p.ledger, m.mint);
    if m.mint !in p.stuck {
      QuietRead(e, p);
      var q := Read(e, p).pass;
      if m.mint in q.ledger.dists {
        var paid := q.ledger.dists[m.mint].paid;
        PendingStarts(paid);
        BatchesInRange(Mask(paid), |e.v.beneficiaries|);
        var q' := Enter(q, TokenBlock(m.mint, "execute_token_shares"));
        QuietTokenShares(e, q', m, Chunk(Unpaid(Mask(paid), |e.v.beneficiaries|), BATCH));
      } else {
        assert !Withers(p.ledger, m.mint) by { NotOpenNotWithering(p.ledger, m.mint); }
      }
    }
  }

  lemma NotOpenNotWithering(s: State, m: Pubkey)
    ensures m !in s.dists ==> !Withers(s, m)
    ensures Withers(s, m) ==> Barren(s, m) && m in s.dists
  {
  }

  /** The shares of every mint of the list that is not stuck can be taken. */
  ghost predicate AllServe(e: Env, p: Pass, mints: seq<MintInfo>)
    requires Good(e, p)
  {
    forall i :: 0 <= i < |mints| && mints[i].mint in p.ledger.dists && mints[i].mint !in p.stuck ==>
      ShareServes(e.v, p.ledger.dists[mints[i].mint].paid)
  }

  /** What paying the shares of the list comes to. */
  ghost predicate TokensPaid(e: Env, p: Pass, r: Pass, mints: seq<MintInfo>) {
    && r.ledger.executed == p.ledger.executed && r.ledger.log == p.ledger.log && r.ledger.planPaid == p.ledger.planPaid
    && r.ledger.dists.Keys == p.ledger.dists.Keys && r.ledger.own.Keys == p.ledger.own.Keys
    && Aside(p.ledger, r.ledger, mints) && DustKept(e.v, p.ledger, r.ledger)
    && (forall k :: k in p.ledger.dists && (!Chosen(mints, k) || k in p.stuck || Barren(p.ledger, k)) ==>
          r.ledger.dists[k] == p.ledger.dists[k])
    && (forall k :: k in r.stuck <==> k in p.stuck || (Chosen(mints, k) && Withers(p.ledger, k)))
    && (forall k :: Chosen(mints, k) && k in r.ledger.dists && k !in r.stuck ==> AllSet(r.ledger.dists[k].paid))
  }

  lemma TokensPaidNext(e: Env, p: Pass, q: Pass, r: Pass, mints: seq<MintInfo>)
    requires mints != [] && Tidied(e.v, mints)
    requires TokenPaid(e, p, q, mints[0].mint) && TokensPaid(e, q, r, mints[1..])
    ensures TokensPaid(e, p, r, mints)
  {
    hide ProgramIs, DustKept, AllSet, Aside, Chosen, Only;
    FirstAndRest(mints);
    AsideNext(p.ledger, q.ledger, r.ledger, mints);
    DustKeptTransitive(e.v, p.ledger, q.ledger, r.ledger);
  }

  lemma ServesRest(e: Env, p: Pass, q: Pass, mints: seq<MintInfo>)
    requires Good(e, p) && Good(e, q) && mints != [] && Tidied(e.v, mints) && AllServe(e, p, mints) && p.stuck <= q.stuck
    requires OnlyMint(p.ledger, q.ledger, mints[0].mint)
    ensures AllServe(e, q, mints[1..])
  {
    hide SolCovered, MintCovered, Shelved, ProgramIs, ShareServes;
    forall i | 0 <= i < |mints[1..]| && mints[1..][i].mint in q.ledger.dists && mints[1..][i].mint !in q.stuck
      ensures ShareServes(e.v, q.ledger.dists[mints[1..][i].mint].paid)
    {
      assert mints[1..][i] == mints[i + 1];
    }
  }

  lemma {:induction false} QuietPayTokens(e: Env, p: Pass, mints: seq<MintInfo>)
    requires Good(e, p) && Quiet(e) && Tidied(e.v, mints) && AllServe(e, p, mints)
    ensures Passes(p, PayTokens(e, p, mints)) && TokensPaid(e, p, PayTokens(e, p, mints).pass, mints)
    decreases |mints|
  {
    if mints == [] {
      hide WellFormed, AllServe;
      SameAccountsAside(p.ledger, p.ledger, []);
      NothingChosen();
    } else {
      FirstServes(e, p, mints);
      hide PayToken, WellFormed, TokensPaid, AllServe, ProgramIs, DustOf, AllSet, Only, Withers;
      QuietPayToken(e, p, mints[0]);
      var q := PayToken(e, p, mints[0]).pass;
      ServesRest(e, p, q, mints);
      QuietPayTokens(e, q, mints[1..]);
      TokensPaidNext(e, p, q, PayTokens(e, p, mints).pass, mints);
    }
  }

  lemma FirstServes(e: Env, p: Pass, mints: seq<MintInfo>)
    requires Good(e, p) && mints != [] && AllServe(e, p, mints)
    ensures mints[0].mint in p.ledger.dists ==> |p.ledger.dists[mints[0].mint].paid| == |e.v.beneficiaries|
    ensures mints[0].mint in p.ledger.dists && mints[0].mint !in p.stuck ==> ShareServes(e.v, p.ledger.dists[mints[0].mint].paid)
  {
  }

  lemma NotAgain(mints: seq<MintInfo>)
    requires mints != [] && forall i, k :: 0 <= i < k < |mints| ==> mints[i].mint != mints[k].mint
    ensures !Chosen(mints[1..], mints[0].mint)
  {
  }

  // ---- close ----

  /** The rule for the close holds, and it removes this mint only. */
  lemma CloseEffect(v: Vault, s: State, m: MintInfo, withheld: bool)
    requires WellFormed(v, s) && s.executed && ProgramIs(v, m.mint, m.program)
    requires m.mint in s.dists && m.mint in s.own && AllSet(s.dists[m.mint].paid) && (m.mint in s.withheld ==> withheld)
    ensures var wallet := LargestWallet(v);
            var ix := CloseTokenDist(m.mint, m.program, if OwnOf(s, m.mint) > 0 then Some(wallet) else None, withheld);
            (OwnOf(s, m.mint) > 0 ==> Exists(v, s, Ata(wallet, m.mint, m.program))) ==>
              && Enabled(v, s, ix)
              && var t := Effect(v, s, ix);
              && t.executed && t.log == s.log && t.planPaid == s.planPaid
              && t.dists == s.dists - {m.mint} && t.own.Keys == s.own.Keys - {m.mint} && Only(s, t, m.mint)
  {
    hide SolCovered, MintCovered, Shelved, LargestWallet;
  }

  /** Without the vault's account there is no dust to see, and the close is rejected. */
  lemma StuckTryClose(e: Env, p: Pass, m: MintInfo)
    requires Good(e, p) && Quiet(e) && Barren(p.ledger, m.mint)
    ensures FailsAlone(p, TryClose(e, p, m))
  {
    hide Submit, SolCovered, MintCovered, Shelved, LargestWallet, Effect, EnsureFor;
    var q := Enter(p, TokenBlock(m.mint, "close_token_dist"));
    QuietRead(e, q);
    var w := Peek(e, q);
    QuietReject(e, w, CloseTokenDist(m.mint, m.program, None, false));
  }

  lemma QuietTryClose(e: Env, p: Pass, m: MintInfo)
    requires Good(e, p) && Quiet(e) && p.ledger.executed && DustServes(e.v, p.ledger, m.mint)
    requires ProgramIs(e.v, m.mint, m.program) && Open(p.ledger, m.mint) && AllSet(p.ledger.dists[m.mint].paid)
    ensures var r := TryClose(e, p, m);
            && r.Next? && Same(p, r.pass)
            && r.pass.ledger.executed && r.pass.ledger.log == p.ledger.log && r.pass.ledger.planPaid == p.ledger.planPaid
            && r.pass.ledger.dists == p.ledger.dists - {m.mint} && r.pass.ledger.own.Keys == p.ledger.own.Keys - {m.mint}
            && Only(p.ledger, r.pass.ledger, m.mint)
  {
    hide EnsureFor, Submit, SolCovered, MintCovered, Shelved, LargestWallet, Enabled, Effect, Only;
    var q := Enter(p, TokenBlock(m.mint, "close_token_dist"));
    QuietRead(e, q);
    var w := Peek(e, q);
    var wallet := LargestWallet(e.v);
    var withheld := m.mint in w.ledger.withheld;
    if OwnOf(w.ledger, m.mint) > 0 {
      var ata := Ata(wallet, m.mint, m.program);
      QuietEnsureFor(e, w, ata);
      var a := EnsureFor(e, w, ata).pass;
      CloseEffect(e.v, a.ledger, m, withheld);
      QuietSubmit(e, a, CloseTokenDist(m.mint, m.program, Some(wallet), withheld));
      OnlyAtas(p.ledger, a.ledger, m.mint);
      OnlyTransitive(p.ledger, a.ledger, TryClose(e, p, m).pass.ledger, m.mint);
    } else {
      CloseEffect(e.v, w.ledger, m, withheld);
      QuietSubmit(e, w, CloseTokenDist(m.mint, m.program, None, withheld));
    }
  }

  /** A TokenDist with every share paid and no account to close. */
  predicate Lingers(s: State, m: Pubkey) {
    Barren(s, m) && AllSet(s.dists[m].paid)
  }

  /** One that can be closed. */
  predicate Ripe(s: State, m: Pubkey) {
    Open(s, m) && AllSet(s.dists[m].paid)
  }

  /** What the close of one mint comes to. */
  ghost predicate DistClosed(p: Pass, r: Pass, m: Pubkey) {
    && r.ledger.executed && r.ledger.log == p.ledger.log && r.ledger.planPaid == p.ledger.planPaid && Only(p.ledger, r.ledger, m)
    && (if m !in p.stuck && Ripe(p.ledger, m) then
          r.ledger.dists == p.ledger.dists - {m} && r.ledger.own.Keys == p.ledger.own.Keys - {m}
        else r.ledger.dists == p.ledger.dists && r.ledger.own.Keys == p.ledger.own.Keys)
    && r.stuck == p.stuck + (if m !in p.stuck && Lingers(p.ledger, m) then {m} else {})
  }

  lemma QuietCloseDist(e: Env, p: Pass, m: MintInfo)
    requires Good(e, p) && Quiet(e) && p.ledger.executed && ProgramIs(e.v, m.mint, m.program)
    requires m.mint in p.stuck || DustServes(e.v, p.ledger, m.mint)
    ensures Passes(p, CloseDist(e, p, m)) && DistClosed(p, CloseDist(e, p, m).pass, m.mint)
  {
    hide TryClose, SolCovered, MintCovered, Shelved, DustServes, Only;
    OnlyItself(p.ledger, m.mint);
    if m.mint !in p.stuck {
      QuietRead(e, p);
      var q := Read(e, p).pass;
      if m.mint in q.ledger.dists {
        MaskIsFull(q.ledger.dists[m.mint].paid);
        if AllSet(q.ledger.dists[m.mint].paid) {
          if m.mint in q.ledger.own {
            QuietTryClose(e, q, m);
          } else {
            StuckTryClose(e, q, m);
            OnlyAtas(p.ledger, TryClose(e, q, m).pass.ledger, m.mint);
          }
        }
      }
    }
  }

  /** The dust of every mint of the list that is not stuck can be swept. */
  ghost predicate DustsServe(e: Env, p: Pass, mints: seq<MintInfo>)
    requires e.v.beneficiaries != []
  {
    forall i :: 0 <= i < |mints| && mints[i].mint !in p.stuck ==> DustServes(e.v, p.ledger, mints[i].mint)
  }

  /** What the closes of the list come to. */
  ghost predicate DistsClosed(p: Pass, r: Pass, mints: seq<MintInfo>) {
    && r.ledger.executed && r.ledger.log == p.ledger.log && r.ledger.planPaid == p.ledger.planPaid && Aside(p.ledger, r.ledger, mints)
    && (forall k :: k in r.stuck <==> k in p.stuck || (Chosen(mints, k) && Lingers(p.ledger, k)))
    && (forall k :: k in r.ledger.dists <==> k in p.ledger.dists && !(Chosen(mints, k) && k !in p.stuck && Ripe(p.ledger, k)))
    && (forall k :: k in r.ledger.own <==> k in p.ledger.own && !(Chosen(mints, k) && k !in p.stuck && Ripe(p.ledger, k)))
    && (forall k :: k in r.ledger.dists ==> r.ledger.dists[k] == p.ledger.dists[k])
  }

  lemma DistsClosedNext(p: Pass, q: Pass, r: Pass, mints: seq<MintInfo>)
    requires mints != [] && (forall i, k :: 0 <= i < k < |mints| ==> mints[i].mint != mints[k].mint)
    requires DistClosed(p, q, mints[0].mint) && DistsClosed(q, r, mints[1..])
    ensures DistsClosed(p, r, mints)
  {
    hide AllSet, Aside, Chosen, Ripe, Lingers;
    var m := mints[0].mint;
    FirstAndRest(mints);
    AsideNext(p.ledger, q.ledger, r.ledger, mints);
    forall k | k != m ensures Ripe(q.ledger, k) == Ripe(p.ledger, k) && Lingers(q.ledger, k) == Lingers(p.ledger, k) {
      RipenessElsewhere(p, q, m, k);
    }
    forall k | k != m ensures (k in q.ledger.own <==> k in p.ledger.own) && (k in q.ledger.dists <==> k in p.ledger.dists) {
    }
    hide Only;
  }

  lemma RipenessElsewhere(p: Pass, q: Pass, m: Pubkey, k: Pubkey)
    requires DistClosed(p, q, m) && k != m
    ensures Ripe(q.ledger, k) == Ripe(p.ledger, k) && Lingers(q.ledger, k) == Lingers(p.ledger, k)
  {
    hide AllSet;
  }

  lemma {:induction false} QuietCloseDists(e: Env, p: Pass, mints: seq<MintInfo>)
    requires Good(e, p) && Quiet(e) && Tidied(e.v, mints) && p.ledger.executed && DustsServe(e, p, mints)
    ensures Passes(p, CloseDists(e, p, mints)) && DistsClosed(p, CloseDists(e, p, mints).pass, mints)
    decreases |mints|
  {
    hide CloseDist, WellFormed, ProgramIs, Ripe, Lingers;
    if mints == [] {
      SameAccountsAside(p.ledger, p.ledger, []);
      NothingChosen();
    } else {
      QuietCloseDist(e, p, mints[0]);
      var q := CloseDist(e, p, mints[0]).pass;
      DustRestServes(e, p, q, mints);
      QuietCloseDists(e, q, mints[1..]);
      hide DistsClosed, DistClosed, DustsServe;
      DistsClosedNext(p, q, CloseDists(e, p, mints).pass, mints);
    }
  }

  lemma DustRestServes(e: Env, p: Pass, q: Pass, mints: seq<MintInfo>)
    requires e.v.beneficiaries != [] && mints != [] && Tidied(e.v, mints) && DustsServe(e, p, mints) && p.stuck <= q.stuck
    requires Only(p.ledger, q.ledger, mints[0].mint)
    ensures DustsServe(e, q, mints[1..])
  {
    hide ProgramIs, LargestWallet;
    forall i | 0 <= i < |mints[1..]| && mints[1..][i].mint !in q.stuck ensures DustServes(e.v, q.ledger, mints[1..][i].mint) {
      assert mints[1..][i] == mints[i + 1];
    }
  }
}
