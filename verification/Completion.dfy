/**
 * What a pass without faults or races reaches, read off the ledger it starts from: which mints it marks stuck,
 * whether it executes the vault, what it pays and closes all the same; and what it can never get past.
 */
module Completion {
  import opened Prelude
  import opened Bits
  import opened Mints
  import opened Ledger
  import opened Crank
  import opened CrankSafety
  import opened CrankPayments
  import opened Selection
  import opened CrankCompletes

  /**
   * Every open TokenDist has the vault's associated account; every other collected mint is bequeathed or held
   * in that account; the mint of every unpaid token bequest exists.
   */
  ghost predicate Completable(v: Vault, s: State)
    requires WellFormed(v, s)
  {
    && (forall m :: m in s.dists ==> m in s.own)
    && (forall i :: 0 <= i < |Collected(v, s)| ==>
          Collected(v, s)[i].mint in s.dists || OwnOf(s, Collected(v, s)[i].mint) > 0 || v.Bequeaths(Collected(v, s)[i].mint))
    && (forall j :: 0 <= j < |v.Assignments()| && !s.planPaid[j] && v.Assignments()[j].mint != DEFAULT_KEY ==>
          v.Assignments()[j].mint in v.programOf)
  }

  /**
   * The wallets can take what is still to be paid: unpaid bequests; SOL shares; of every collected mint the
   * shares, unless already paid, and the dust, unless there will be none.
   */
  ghost predicate WalletsServe(v: Vault, s: State)
    requires WellFormed(v, s)
  {
    && (forall j :: 0 <= j < |v.Assignments()| && !s.planPaid[j] ==> BequestServes(v, j))
    && SolServes(v, LogOf(v, s))
    && (forall i, k: nat :: 0 <= i < |Collected(v, s)| ==> !Unsharable(v, s, Collected(v, s)[i].mint, k))
    && (forall i :: 0 <= i < |Collected(v, s)| ==> !Undustable(v, s, Collected(v, s)[i].mint))
  }

  /** With all beneficiaries on the curve that is no condition. */
  lemma OnCurveServes(v: Vault, s: State)
    requires WellFormed(v, s) && OnCurve(v)
    ensures WalletsServe(v, s)
  {
    hide SolCovered, MintCovered, Shelved, Collected, Shares, DustOf;
  }

  /**
   * What a finished pass leaves: both masks full, the vault executed, nothing skipped, and of every mint the
   * ledger had to collect neither a TokenDist nor the vault's account is left.
   */
  ghost predicate Complete(e: Env, s: State, r: Flow) {
    && r.Next? && r.pass.executed && r.pass.stuck == {} && r.pass.skipped == []
    && r.pass.ledger.executed
    && r.pass.ledger.log.Some? && AllSet(r.pass.ledger.log.value.solPaid)
    && AllSet(r.pass.ledger.planPaid)
    && r.pass.mints == Collected(e.v, s)
    && (forall i :: 0 <= i < |r.pass.mints| ==>
          r.pass.mints[i].mint !in r.pass.ledger.dists && r.pass.mints[i].mint !in r.pass.ledger.own)
  }

  /** What it leaves alone: time, strays, the accounts of other mints, and their TokenDists. */
  ghost predicate Spares(s: State, t: State, mints: seq<MintInfo>) {
    Aside(s, t, mints) && forall m :: m in t.dists ==> m in s.dists && !Chosen(mints, m)
  }

  // ---- the phases together ----

  lemma CollectedDependsOnAccounts(v: Vault, s: State, t: State)
    requires t.own == s.own && t.shelf == s.shelf
    ensures Collected(v, t) == Collected(v, s)
  {
    assert Accounts(v, t) == Accounts(v, s);
  }

  lemma QuietPrepare(e: Env, p: Pass)
    requires Good(e, p) && Quiet(e)
    ensures var r := Prepare(e, p);
            && r.Next? && r.pass.stuck == p.stuck && r.pass.skipped == p.skipped
            && r.pass.ledger.log.Some? && r.pass.ledger == p.ledger.(log := r.pass.ledger.log)
            && r.pass.mints == Collected(e.v, p.ledger)
            && (e.v.plan.Some? ==> r.pass.planMask == Mask(r.pass.ledger.planPaid))
  {
    hide WellFormed, CollectMints, BeginLog, Collected, Mask;
    QuietBeginLog(e, p);
    var b := BeginLog(e, p).pass;
    QuietRead(e, b);
    var c := ReadPlan(e, b).pass;
    QuietCollect(e, c);
    CollectedDependsOnAccounts(e.v, p.ledger, c.ledger);
  }

  /**
   * A mint that keeps a quiet pass from executing the vault: a collected one that cannot be begun, or one with an
   * unpaid bequest that is gone or was begun without the vault's account.
   */
  ghost predicate BlockedAmong(v: Vault, s: State, mints: seq<MintInfo>, k: Pubkey)
    requires |s.planPaid| == |v.Assignments()|
  {
    || (Chosen(mints, k) && Unopenable(v, s, k))
    || exists j :: 0 <= j < |v.Assignments()| && v.Assignments()[j].mint == k && Unreachable(v, s, j)
  }

  predicate Unreachable(v: Vault, s: State, j: nat)
    requires j < |v.Assignments()| == |s.planPaid|
  {
    var k := v.Assignments()[j].mint;
    !s.planPaid[j] && k != DEFAULT_KEY && (k !in v.programOf || Barren(s, k))
  }

  ghost predicate Blocked(v: Vault, s: State, k: Pubkey)
    requires WellFormed(v, s)
  {
    BlockedAmong(v, s, Collected(v, s), k)
  }

  /** What the list of a pass must be: the bequeathed mints that exist are in it. */
  ghost predicate Lists(v: Vault, mints: seq<MintInfo>) {
    Tidied(v, mints) && forall m :: m in v.programOf && v.Bequeaths(m) ==> Chosen(mints, m)
  }

  /** What snapshots and bequests come to: each listed mint that can be is begun, each bequest paid unless its mint is blocked. */
  ghost predicate BequestsPaid(e: Env, p: Pass, r: Pass)
    requires Good(e, p)
  {
    && r.ledger.log == p.ledger.log && r.ledger.executed == p.ledger.executed && |r.ledger.planPaid| == |e.v.Assignments()|
    && (forall j :: 0 <= j < |e.v.Assignments()| ==> r.ledger.planPaid[j] || IsStuck(e.v, r, j))
    && Aside(p.ledger, r.ledger, p.mints) && DustKept(e.v, p.ledger, r.ledger)
    && (forall k :: k in r.ledger.dists <==> k in p.ledger.dists || (Chosen(p.mints, k) && !Unopenable(e.v, p.ledger, k)))
    && (forall k :: k in r.ledger.dists ==>
          if k in p.ledger.dists then r.ledger.dists[k] == p.ledger.dists[k] && (k in r.ledger.own <==> k in p.ledger.own)
          else r.ledger.dists[k].paid == Zeros(|e.v.beneficiaries|) && k in r.ledger.own)
    && (forall k :: k in r.stuck <==> BlockedAmong(e.v, p.ledger, p.mints, k))
  }

  /** After the snapshots a bequest misses exactly if it could not be reached before. */
  lemma MissedIsUnreachable(e: Env, p: Pass, q: Pass, k: Pubkey)
    requires Good(e, p) && Good(e, q) && Lists(e.v, p.mints) && Snapshots(e, p, q, p.mints)
    ensures MissedFrom(e.v, q.ledger, 0, k) <==>
              exists j :: 0 <= j < |e.v.Assignments()| && e.v.Assignments()[j].mint == k && Unreachable(e.v, p.ledger, j)
  {
    hide SolCovered, MintCovered, Shelved, Aside, Chosen, ProgramIs;
    forall j | 0 <= j < |e.v.Assignments()| ensures Misses(e.v, q.ledger, j) <==> Unreachable(e.v, p.ledger, j) {
      assert e.v.Bequeaths(e.v.Assignments()[j].mint);
    }
  }

  lemma BequestsStart(e: Env, p: Pass, q: Pass)
    requires Good(e, p) && Good(e, q) && Lists(e.v, p.mints) && Snapshots(e, p, q, p.mints) && SameLists(p, q)
    requires p.ledger.log.Some? && (e.v.plan.Some? ==> p.planMask == Mask(p.ledger.planPaid))
    requires forall j :: 0 <= j < |e.v.Assignments()| && !p.ledger.planPaid[j] ==> BequestServes(e.v, j)
    ensures BequestsReady(e, q, 0)
  {
    hide SolCovered, MintCovered, Shelved, Aside, Chosen, Mask, BitSet, BequestServes;
    forall i: nat | i < |e.v.Assignments()| ensures BitSet(q.planMask, i) <==> q.ledger.planPaid[i] {
      BitSetReadsBit(q.ledger.planPaid, i);
    }
    forall i | 0 <= i < |e.v.Assignments()| && Open(q.ledger, e.v.Assignments()[i].mint)
      ensures Chosen(q.mints, e.v.Assignments()[i].mint)
    {
      assert e.v.Bequeaths(e.v.Assignments()[i].mint);
    }
  }

  lemma QuietPayBequests(e: Env, p: Pass)
    requires Good(e, p) && Quiet(e) && p.stuck == {} && p.ledger.log.Some? && Lists(e.v, p.mints)
    requires forall j :: 0 <= j < |e.v.Assignments()| && !p.ledger.planPaid[j] ==> BequestServes(e.v, j)
    requires e.v.plan.Some? ==> p.planMask == Mask(p.ledger.planPaid)
    ensures Passes(p, PayBequests(e, p)) && BequestsPaid(e, p, PayBequests(e, p).pass)
  {
    hide WellFormed, BeginDists, Bequests, Mask, Chosen, Unopenable, DustKept, BequestServes, Aside, BequestsReady, MissedFrom, Unreachable;
    QuietBeginDists(e, p, p.mints);
    var q := BeginDists(e, p, p.mints).pass;
    BequestsStart(e, p, q);
    QuietBequests(e, q, 0);
    var r := PayBequests(e, p).pass;
    AsideTransitive(p.ledger, q.ledger, r.ledger, p.mints);
    DustDependsOn(e.v, p.ledger, q.ledger);
    DustKeptTransitive(e.v, p.ledger, q.ledger, r.ledger);
    PlanIsWide(e.v, p.ledger);
    forall k ensures k in r.stuck <==> BlockedAmong(e.v, p.ledger, p.mints, k) {
      MissedIsUnreachable(e, p, q, k);
    }
    AllPaidOrStuck(e, r);
  }

  lemma PlanIsWide(v: Vault, s: State)
    requires WellFormed(v, s)
    ensures |s.planPaid| == |v.Assignments()|
  {
  }

  lemma AllPaidOrStuck(e: Env, p: Pass)
    requires Good(e, p) && BequestsReady(e, p, |e.v.Assignments()|)
    ensures |p.ledger.planPaid| == |e.v.Assignments()|
    ensures forall j :: 0 <= j < |e.v.Assignments()| ==> p.ledger.planPaid[j] || IsStuck(e.v, p, j)
  {
    hide SolCovered, MintCovered, Shelved;
  }

  /** What the pass is ready for after the bequests. */
  ghost predicate Distributable(e: Env, p: Pass)
    requires Good(e, p)
  {
    && p.ledger.log.Some? && |p.ledger.log.value.solPaid| == |e.v.beneficiaries|
    && (p.ledger.executed || SolServes(e.v, p.ledger.log.value))
    && Tidied(e.v, p.mints) && AllServe(e, p, p.mints)
    && (forall i :: 0 <= i < |p.mints| && p.mints[i].mint !in p.stuck ==>
          p.mints[i].mint in p.ledger.dists && !Undustable(e.v, p.ledger, p.mints[i].mint))
  }

  /** Whether the vault is executed after the gate. */
  predicate Finished(p: Pass) {
    p.ledger.executed || (AllSet(p.ledger.planPaid) && p.stuck == {})
  }

  /** What shares, finalize and closes come to. */
  ghost predicate Distributed(e: Env, p: Pass, r: Pass) {
    && r.mints == p.mints && r.ledger.planPaid == p.ledger.planPaid && Aside(p.ledger, r.ledger, p.mints)
    && r.ledger.log.Some? && AllSet(r.ledger.log.value.solPaid)
    && r.executed == r.ledger.executed == Finished(p)
    && (forall k :: k in r.stuck <==>
          k in p.stuck || (Chosen(p.mints, k) && (Withers(p.ledger, k) || (Finished(p) && Lingers(p.ledger, k)))))
    && (forall k :: k in r.ledger.dists <==>
          k in p.ledger.dists && !(Finished(p) && Chosen(p.mints, k) && k !in p.stuck && k in p.ledger.own))
    && (forall k :: k in r.ledger.own <==>
          k in p.ledger.own && !(Finished(p) && Chosen(p.mints, k) && k !in p.stuck && k in p.ledger.dists))
    && (forall k :: Chosen(p.mints, k) && k !in r.stuck && k in r.ledger.dists ==> AllSet(r.ledger.dists[k].paid))
  }

  /** SOL shares and the gate touch only the log and the balance. */
  lemma QuietSolAndGate(e: Env, p: Pass)
    requires Good(e, p) && Quiet(e) && Distributable(e, p)
    ensures var a := PaySol(e, p);
            && a.Next?
            && var b := FinalizeIfFull(e, a.pass);
            && b.Next? && b.pass.mints == p.mints && b.pass.stuck == p.stuck && b.pass.skipped == p.skipped
            && b.pass.ledger == p.ledger.(log := b.pass.ledger.log, executed := Finished(p), lamports := b.pass.ledger.lamports)
            && b.pass.ledger.log.Some? && AllSet(b.pass.ledger.log.value.solPaid)
            && DustKept(e.v, p.ledger, b.pass.ledger)
  {
    hide WellFormed, FinalizeIfFull, PaySol, DustOf, ShareServes, SolServes, Undustable, AllServe, Tidied;
    QuietPaySol(e, p);
    var a := PaySol(e, p).pass;
    QuietFinalize(e, a);
    var b := FinalizeIfFull(e, a).pass;
    if !a.ledger.executed && AllSet(a.ledger.planPaid) && a.stuck == {} {
      FinalizeEffect(e.v, a.ledger);
    }
    DustDependsOn(e.v, p.ledger, b.ledger);
  }

  lemma FinalizeEffect(v: Vault, s: State)
    requires WellFormed(v, s) && Enabled(v, s, Finalize)
    ensures var t := Effect(v, s, Finalize);
            t.executed && t.log == Some(s.log.value.(completed := true)) && t == s.(log := t.log, executed := true, lamports := t.lamports)
  {
  }

  lemma DustCanBeSwept(v: Vault, s: State, t: State, m: Pubkey)
    requires WellFormed(v, t) && DustKept(v, s, t) && m in s.dists && m in t.dists && !Undustable(v, s, m)
    requires AllSet(t.dists[m].paid) && AllSet(t.planPaid)
    ensures v.beneficiaries != [] && DustServes(v, t, m)
  {
    hide SolCovered, MintCovered, Shelved, DustOf;
    DustIsBalance(v, t, m);
  }

  lemma QuietCloseIfExecuted(e: Env, p: Pass)
    requires Good(e, p) && Quiet(e) && Tidied(e.v, p.mints) && (p.ledger.executed ==> DustsServe(e, p, p.mints))
    ensures var r := CloseIfExecuted(e, p);
            && r.Next? && r.pass.mints == p.mints && p.stuck <= r.pass.stuck
            && (r.pass.stuck == {} ==> r.pass.skipped == p.skipped)
            && r.pass.executed == p.ledger.executed
            && if p.ledger.executed then DistsClosed(p, r.pass, p.mints) else r.pass.ledger == p.ledger && r.pass.stuck == p.stuck
  {
    hide WellFormed, CloseDists, ProgramIs, DustServes, DistsClosed;
    QuietRead(e, p);
    var q := Read(e, p).pass.(executed := p.ledger.executed);
    if q.executed {
      QuietCloseDists(e, q, q.mints);
      SameClosed(p, q, CloseDists(e, q, q.mints).pass, p.mints);
    }
  }

  lemma SameClosed(p: Pass, q: Pass, r: Pass, mints: seq<MintInfo>)
    requires q.ledger == p.ledger && q.stuck == p.stuck && DistsClosed(q, r, mints)
    ensures DistsClosed(p, r, mints)
  {
  }

  lemma QuietDistribute(e: Env, p: Pass)
    requires Good(e, p) && Quiet(e) && Distributable(e, p)
    ensures var r := Distribute(e, p);
            && r.Next? && p.stuck <= r.pass.stuck && (r.pass.stuck == {} ==> r.pass.skipped == p.skipped)
            && Distributed(e, p, r.pass)
  {
    hide WellFormed, CloseIfExecuted, FinalizeIfFull, PaySol, PayTokens, ProgramIs, DustKept, ShareServes, Undustable, Distributed;
    QuietSolAndGate(e, p);
    var a := PaySol(e, p).pass;
    var b := FinalizeIfFull(e, a).pass;
    QuietPayTokens(e, b, b.mints);
    var c := PayTokens(e, b, b.mints).pass;
    if c.ledger.executed {
      SweepsServe(e, p, b, c);
    }
    QuietCloseIfExecuted(e, c);
    hide Distributable, AllServe, Tidied;
    DistributedMeans(e, p, b, c, Distribute(e, p).pass);
  }

  lemma SweepsServe(e: Env, p: Pass, b: Pass, c: Pass)
    requires Good(e, p) && Good(e, b) && Good(e, c) && Distributable(e, p) && c.ledger.executed
    requires b.ledger.dists == p.ledger.dists && b.stuck == p.stuck && DustKept(e.v, p.ledger, b.ledger)
    requires TokensPaid(e, b, c, p.mints)
    ensures DustsServe(e, c, p.mints)
  {
    hide SolCovered, MintCovered, Shelved, ProgramIs, DustKept, ShareServes, Undustable, AllServe, Aside, DustServes, SolServes;
    DustKeptTransitive(e.v, p.ledger, b.ledger, c.ledger);
    EachIsChosen(p.mints);
    forall i | 0 <= i < |p.mints| && p.mints[i].mint !in c.stuck ensures DustServes(e.v, c.ledger, p.mints[i].mint) {
      DustCanBeSwept(e.v, p.ledger, c.ledger, p.mints[i].mint);
    }
  }

  /** The phases one after the other, for one mint. */
  lemma DistributedOf(e: Env, p: Pass, b: Pass, c: Pass, r: Pass, k: Pubkey)
    requires b.ledger.dists == p.ledger.dists && b.ledger.own == p.ledger.own && b.stuck == p.stuck && b.ledger.executed == Finished(p)
    requires TokensPaid(e, b, c, p.mints)
    requires if c.ledger.executed then DistsClosed(c, r, p.mints) else r.ledger == c.ledger && r.stuck == c.stuck
    ensures k in r.stuck <==>
              k in p.stuck || (Chosen(p.mints, k) && (Withers(p.ledger, k) || (Finished(p) && Lingers(p.ledger, k))))
    ensures k in r.ledger.dists <==>
              k in p.ledger.dists && !(Finished(p) && Chosen(p.mints, k) && k !in p.stuck && k in p.ledger.own)
    ensures k in r.ledger.own <==>
              k in p.ledger.own && !(Finished(p) && Chosen(p.mints, k) && k !in p.stuck && k in p.ledger.dists)
    ensures Chosen(p.mints, k) && k !in r.stuck && k in r.ledger.dists ==> AllSet(r.ledger.dists[k].paid)
  {
    hide Chosen, Aside, DustKept, Finished, AllSet;
  }

  lemma DistributedMeans(e: Env, p: Pass, b: Pass, c: Pass, r: Pass)
    requires b.ledger == p.ledger.(log := b.ledger.log, executed := Finished(p), lamports := b.ledger.lamports)
    requires b.ledger.log.Some? && AllSet(b.ledger.log.value.solPaid)
    requires b.stuck == p.stuck && TokensPaid(e, b, c, p.mints) && r.mints == p.mints && r.executed == c.ledger.executed
    requires if c.ledger.executed then DistsClosed(c, r, p.mints) else r.ledger == c.ledger && r.stuck == c.stuck
    ensures Distributed(e, p, r)
  {
    hide Chosen, Aside, DustKept, Finished, AllSet, Withers, Lingers, Ripe, Barren;
    SameAccountsAside(p.ledger, b.ledger, p.mints);
    AsideTransitive(p.ledger, b.ledger, c.ledger, p.mints);
    if c.ledger.executed {
      AsideTransitive(p.ledger, c.ledger, r.ledger, p.mints);
    }
    forall k
      ensures k in r.stuck <==>
                k in p.stuck || (Chosen(p.mints, k) && (Withers(p.ledger, k) || (Finished(p) && Lingers(p.ledger, k))))
      ensures k in r.ledger.dists <==>
                k in p.ledger.dists && !(Finished(p) && Chosen(p.mints, k) && k !in p.stuck && k in p.ledger.own)
      ensures k in r.ledger.own <==>
                k in p.ledger.own && !(Finished(p) && Chosen(p.mints, k) && k !in p.stuck && k in p.ledger.dists)
      ensures Chosen(p.mints, k) && k !in r.stuck && k in r.ledger.dists ==> AllSet(r.ledger.dists[k].paid)
    {
      DistributedOf(e, p, b, c, r, k);
    }
  }

  // ---- the whole pass ----

  /**
   * What a quiet pass comes to, read off the ledger it starts from. It executes the vault exactly if no mint is
   * blocked; stuck are the blocked mints and the barren ones with shares to pay or an account to close; every SOL
   * share, every bequest of a mint that is not stuck and every share of a collected mint that is not stuck is
   * paid, and what is paid of an executed vault is closed.
   */
  ghost predicate QuietOutcome(v: Vault, s: State, r: Flow)
    requires WellFormed(v, s)
  {
    var (t, mints) := (r.pass.ledger, r.pass.mints);
    && r.Next? && mints == Collected(v, s) && Aside(s, t, mints)
    && t.log.Some? && AllSet(t.log.value.solPaid) && |t.planPaid| == |v.Assignments()|
    && (forall j :: 0 <= j < |v.Assignments()| ==> t.planPaid[j] || IsStuck(v, r.pass, j))
    && r.pass.executed == t.executed
    && (t.executed <==> s.executed || forall k :: !Blocked(v, s, k))
    && (forall k :: k in r.pass.stuck <==>
          Blocked(v, s, k) || (Chosen(mints, k) && Barren(s, k) && (t.executed || !AllSet(s.dists[k].paid))))
    && (forall k :: k in t.dists <==>
          (k in s.dists || (Chosen(mints, k) && !Unopenable(v, s, k))) && !(t.executed && Chosen(mints, k) && !Barren(s, k)))
    && (forall k :: Chosen(mints, k) && k !in r.pass.stuck ==>
          if t.executed then k !in t.dists && k !in t.own else k in t.dists && AllSet(t.dists[k].paid))
    && (r.pass.stuck == {} ==> r.pass.skipped == [])
  }

  lemma SameBlocked(v: Vault, s: State, t: State)
    requires WellFormed(v, s) && WellFormed(v, t) && t == s.(log := t.log)
    ensures forall k :: BlockedAmong(v, t, Collected(v, s), k) <==> Blocked(v, s, k)
  {
    hide SolCovered, MintCovered, Shelved, Collected, Chosen;
    forall k ensures BlockedAmong(v, t, Collected(v, s), k) <==> Blocked(v, s, k) {
      forall j | 0 <= j < |v.Assignments()| ensures Unreachable(v, t, j) <==> Unreachable(v, s, j) {
      }
    }
  }

  lemma CollectedLists(v: Vault, s: State)
    requires WellFormed(v, s)
    ensures Lists(v, Collected(v, s))
  {
    hide Collected, SolCovered, MintCovered, Shelved, Chosen;
    CollectedSpec(v, s);
  }

  /** After the bequests the collected mints that are not stuck are begun, their open shares can be taken, and their dust swept. */
  lemma SharesServe(v: Vault, s: State, t: State, m: Pubkey)
    requires WellFormed(v, s) && WellFormed(v, t) && m in t.dists && DustKept(v, s, t)
    requires if m in s.dists then t.dists[m] == s.dists[m] else t.dists[m].paid == Zeros(|v.beneficiaries|)
    requires forall k: nat :: !Unsharable(v, s, m, k)
    requires !Undustable(v, s, m)
    ensures |t.dists[m].paid| == |v.beneficiaries| && ShareServes(v, t.dists[m].paid)
    ensures !Undustable(v, t, m)
  {
    hide SolCovered, MintCovered, Shelved, DustOf;
    forall i | 0 <= i < |v.beneficiaries| && !t.dists[m].paid[i] ensures v.Wallet(i) !in v.offCurve {
      assert !Unsharable(v, s, m, i);
    }
    if m !in s.dists {
      var k := LargestShareIndex(v.beneficiaries);
      assert !Unsharable(v, s, m, k);
    }
  }

  lemma PaidIsDistributable(e: Env, s: State, a: Pass, b: Pass)
    requires Good(e, a) && Good(e, b) && WellFormed(e.v, s) && WalletsServe(e.v, s)
    requires a.ledger == s.(log := Some(LogOf(e.v, s))) && a.mints == b.mints == Collected(e.v, s) && BequestsPaid(e, a, b)
    ensures Distributable(e, b)
  {
    hide SolCovered, MintCovered, Shelved, Collected, Chosen, Aside, DustOf, ShareServes, Unsharable, Undustable, SolServes, LogOf, ProgramIs, BequestServes;
    CollectedLists(e.v, s);
    EachIsChosen(b.mints);
    DustDependsOn(e.v, s, a.ledger);
    DustKeptTransitive(e.v, s, a.ledger, b.ledger);
    forall i | 0 <= i < |b.mints| && b.mints[i].mint !in b.stuck
      ensures b.mints[i].mint in b.ledger.dists && |b.ledger.dists[b.mints[i].mint].paid| == |e.v.beneficiaries|
      ensures ShareServes(e.v, b.ledger.dists[b.mints[i].mint].paid) && !Undustable(e.v, b.ledger, b.mints[i].mint)
    {
      var m := b.mints[i].mint;
      assert !BlockedAmong(e.v, a.ledger, a.mints, m);
      assert m in b.ledger.dists;
      SharesServe(e.v, s, b.ledger, m);
    }
  }

  /** The outcome for one mint. */
  lemma OutcomeOf(e: Env, s: State, a: Pass, b: Pass, r: Pass, k: Pubkey)
    requires Good(e, a) && Good(e, b) && WellFormed(e.v, s) && a.ledger == s.(log := a.ledger.log) && a.mints == Collected(e.v, s)
    requires BlockedAmong(e.v, a.ledger, a.mints, k) <==> Blocked(e.v, s, k)
    requires BequestsPaid(e, a, b) && b.mints == a.mints && Distributed(e, b, r)
    ensures k in r.stuck <==>
              Blocked(e.v, s, k) || (Chosen(a.mints, k) && Barren(s, k) && (r.ledger.executed || !AllSet(s.dists[k].paid)))
    ensures k in r.ledger.dists <==>
              (k in s.dists || (Chosen(a.mints, k) && !Unopenable(e.v, s, k))) && !(r.ledger.executed && Chosen(a.mints, k) && !Barren(s, k))
    ensures Chosen(a.mints, k) && k !in r.stuck ==>
              if r.ledger.executed then k !in r.ledger.dists && k !in r.ledger.own
              else k in r.ledger.dists && AllSet(r.ledger.dists[k].paid)
  {
    hide SolCovered, MintCovered, Shelved, Collected, Chosen, Aside, DustKept, AllSet, Finished;
    BlockedIsNotOpen(e.v, a.ledger, a.mints, k);
  }

  lemma BlockedIsNotOpen(v: Vault, s: State, mints: seq<MintInfo>, k: Pubkey)
    requires WellFormed(v, s)
    ensures BlockedAmong(v, s, mints, k) && k in s.dists ==> Barren(s, k)
    ensures BlockedAmong(v, s, mints, k) && k !in s.dists ==> Unopenable(v, s, k) || k !in v.programOf
  {
    hide SolCovered, MintCovered, Shelved, Chosen;
  }

  lemma QuietPhases(e: Env, p: Pass)
    requires Good(e, p) && Quiet(e) && p.stuck == {} && p.skipped == [] && WalletsServe(e.v, p.ledger)
    ensures QuietOutcome(e.v, p.ledger, Phases(e, p))
  {
    assert forall j :: 0 <= j < |e.v.Assignments()| && !p.ledger.planPaid[j] ==> BequestServes(e.v, j);
    hide Prepare, PayBequests, Distribute, WellFormed, Collected, Chosen, WalletsServe, BequestsPaid, Distributed, Distributable;
    hide Aside, LogOf, Mask, Lists, BlockedAmong, Blocked, BequestServes;
    var s := p.ledger;
    QuietPrepare(e, p);
    PreparedLog(e, p);
    var a := Prepare(e, p).pass;
    CollectedLists(e.v, s);
    QuietPayBequests(e, a);
    var b := PayBequests(e, a).pass;
    PaidIsDistributable(e, s, a, b);
    QuietDistribute(e, b);
    OutcomeMeans(e, s, a, b, Phases(e, p));
  }

  lemma OutcomeMeans(e: Env, s: State, a: Pass, b: Pass, r: Flow)
    requires Good(e, a) && Good(e, b) && WellFormed(e.v, s) && a.ledger == s.(log := a.ledger.log) && a.mints == Collected(e.v, s)
    requires BequestsPaid(e, a, b) && b.mints == a.mints && r.Next? && Distributed(e, b, r.pass)
    requires b.stuck <= r.pass.stuck && (r.pass.stuck == {} ==> r.pass.skipped == []) && a.skipped == []
    ensures QuietOutcome(e.v, s, r)
  {
    hide WellFormed, Collected, Chosen, Aside, DustKept, Blocked, BlockedAmong, Unopenable, Withers, Lingers;
    SameBlocked(e.v, s, a.ledger);
    SameAccountsAside(s, a.ledger, a.mints);
    AsideTransitive(s, a.ledger, b.ledger, a.mints);
    AsideTransitive(s, b.ledger, r.pass.ledger, a.mints);
    forall k
      ensures k in r.pass.stuck <==>
                Blocked(e.v, s, k) || (Chosen(a.mints, k) && Barren(s, k) && (r.pass.ledger.executed || !AllSet(s.dists[k].paid)))
      ensures k in r.pass.ledger.dists <==>
                (k in s.dists || (Chosen(a.mints, k) && !Unopenable(e.v, s, k)))
                && !(r.pass.ledger.executed && Chosen(a.mints, k) && !Barren(s, k))
      ensures Chosen(a.mints, k) && k !in r.pass.stuck ==>
                if r.pass.ledger.executed then k !in r.pass.ledger.dists && k !in r.pass.ledger.own
                else k in r.pass.ledger.dists && AllSet(r.pass.ledger.dists[k].paid)
    {
      OutcomeOf(e, s, a, b, r.pass, k);
    }
    assert Finished(b) <==> s.executed || forall k :: !Blocked(e.v, s, k);
  }

  /**
   * Main result for stuck mints without faults or races, on any ledger and whether or not it is executed: what
   * stands in the way of one mint costs the others nothing but the execution of the vault, and that exactly if
   * the mint is blocked.
   */
  lemma QuietPassPaysTheRest(e: Env, s: State)
    requires Good(e, Start(s)) && Quiet(e) && WalletsServe(e.v, s)
    ensures QuietOutcome(e.v, s, CrankVault(e, Start(s)))
  {
    hide Phases, WellFormed, QuietOutcome, WalletsServe;
    QuietRead(e, Start(s));
    QuietPhases(e, Read(e, Start(s)).pass);
  }

  lemma OutcomeIsNext(v: Vault, s: State, r: Flow)
    requires WellFormed(v, s) && QuietOutcome(v, s, r)
    ensures r.Next?
  {
    hide WellFormed, Collected, Blocked, Aside;
  }

  lemma SameOutcome(v: Vault, s: State, r: Flow, q: Flow)
    requires WellFormed(v, s) && QuietOutcome(v, s, r)
    requires q.Next? && Same(r.pass, q.pass) && q.pass.ledger == r.pass.ledger
    ensures QuietOutcome(v, s, q)
  {
    hide WellFormed, Collected, Blocked, Aside, Chosen;
  }

  /** A pass begins the log that the ledger says it begins. */
  lemma PreparedLog(e: Env, p: Pass)
    requires Good(e, p) && Quiet(e)
    ensures Prepare(e, p).pass.ledger.log == Some(LogOf(e.v, p.ledger))
  {
    hide SolCovered, MintCovered, Shelved, CollectMints, Mask;
    QuietRead(e, p);
    var q := Read(e, p).pass;
    if q.ledger.log.None? {
      QuietSubmit(e, q, BeginExecution);
      QuietRead(e, Submit(e, q, BeginExecution).pass);
    }
    var b := BeginLog(e, p).pass;
    QuietRead(e, b);
    QuietCollect(e, ReadPlan(e, b).pass);
  }

  lemma EachIsChosen(mints: seq<MintInfo>)
    ensures forall i :: 0 <= i < |mints| ==> Chosen(mints, mints[i].mint)
  {
  }

  // ---- the condition is enough ----

  /** Nothing blocks a completable ledger. */
  lemma CompletableIsClear(v: Vault, s: State)
    requires WellFormed(v, s) && Completable(v, s)
    ensures forall k :: !Blocked(v, s, k) && !Barren(s, k)
    ensures forall k :: Chosen(Collected(v, s), k) ==> !Unopenable(v, s, k)
  {
    hide Collected, SolCovered, MintCovered, Shelved;
  }

  lemma ClearIsComplete(e: Env, s: State, r: Flow)
    requires WellFormed(e.v, s) && Completable(e.v, s) && QuietOutcome(e.v, s, r)
    ensures Complete(e, s, r) && Spares(s, r.pass.ledger, Collected(e.v, s))
  {
    hide WellFormed, Collected, Completable, Chosen, Blocked, Aside, Barren, Unopenable;
    CompletableIsClear(e.v, s);
    EachIsChosen(r.pass.mints);
    assert r.pass.stuck == {};
  }

  lemma CompletableCompletes(e: Env, s: State)
    requires Good(e, Start(s)) && Quiet(e) && Completable(e.v, s) && WalletsServe(e.v, s)
    ensures Complete(e, s, CrankVault(e, Start(s)))
    ensures Spares(s, CrankVault(e, Start(s)).pass.ledger, Collected(e.v, s))
  {
    hide CrankVault, WellFormed, Collected, Completable, WalletsServe, QuietOutcome;
    QuietPassPaysTheRest(e, s);
    ClearIsComplete(e, s, CrankVault(e, Start(s)));
  }

  // ---- the condition is needed ----

  /** A mint that cannot be begun is stuck after its turn, or the pass has stopped. */
  lemma DoomedTryBegin(e: Env, p: Pass, m: MintInfo)
    requires Good(e, p) && Quiet(e) && p.ledger.log.Some? && Unopenable(e.v, p.ledger, m.mint)
    ensures TryBegin(e, p, m).Stop?
  {
    hide WellFormed, EnsureAta, Effect, Grows, AllFit, Barren, Unpayable, Unsharable;
    var ata := Ata(e.v.key, m.mint, m.program);
    var q := Enter(p, TokenBlock(m.mint, "begin_token_dist"));
    EnsureAtaSteps(e, q, ata);
    var a := EnsureAta(e, q, ata);
    if a.Next? {
      GuardSteps(e, a.pass);
      var g := Guard(e, a.pass).pass;
      QuietRead(e, g.(trace := g.trace + [Submitted(BeginTokenDist(m.mint, m.program), g.ledger, g.stuck)]));
    }
  }

  lemma DoomedBeginDist(e: Env, p: Pass, m: MintInfo)
    requires Good(e, p) && Quiet(e) && p.ledger.log.Some? && Unopenable(e.v, p.ledger, m.mint)
    ensures BeginDist(e, p, m).Next? ==> m.mint in BeginDist(e, p, m).pass.stuck
  {
    hide WellFormed, TryBegin;
    QuietRead(e, p);
    DoomedTryBegin(e, Read(e, p).pass, m);
  }

  lemma {:induction false} DoomedBeginDists(e: Env, p: Pass, mints: seq<MintInfo>, m: Pubkey)
    requires Good(e, p) && Quiet(e) && p.ledger.log.Some? && Unopenable(e.v, p.ledger, m) && Chosen(mints, m)
    ensures BeginDists(e, p, mints).Next? ==> m in BeginDists(e, p, mints).pass.stuck
    decreases |mints|
  {
    assert mints != [];
    hide WellFormed, BeginDist, Unopenable, AllFit, Barren, Unpayable, Unsharable, Chosen;
    ChosenTail(mints, m);
    BeginDistSteps(e, p, mints[0]);
    var q := BeginDist(e, p, mints[0]);
    if q.Next? {
      BeginDistsSteps(e, q.pass, mints[1..]);
      if mints[0].mint == m {
        DoomedBeginDist(e, p, mints[0]);
      } else {
        DoomedBeginDists(e, q.pass, mints[1..], m);
      }
    }
  }

  /** What is stuck after the snapshots stays so to the end, and what is open then and cannot be shared stays open. */
  lemma RestSteps(e: Env, p: Pass, q: Pass)
    requires Good(e, p) && p.ledger.log.Some? && (e.v.plan.Some? ==> Backed(e, p))
    requires BeginDists(e, p, p.mints) == Next(q)
    ensures PayBequests(e, p).Next? ==> Step(e, q, Distribute(e, PayBequests(e, p).pass).pass)
  {
    hide WellFormed, BeginDists, Distribute, AllFit, Wilts;
    BeginDistsSteps(e, p, p.mints);
    SameStep(e, q, q);
    if e.v.plan.Some? {
      BackedStays(e, p, q);
      BequestsSteps(e, q, 0);
    }
    var r := PayBequests(e, p);
    if r.Next? {
      DistributeSteps(e, r.pass);
      StepTransitive(e, q, r.pass, Distribute(e, r.pass).pass);
    }
  }

  lemma DoomedPass(e: Env, s: State, m: Pubkey)
    requires Good(e, Start(s)) && Quiet(e) && Unopenable(e.v, s, m) && Chosen(Collected(e.v, s), m)
    ensures !Complete(e, s, CrankVault(e, Start(s)))
  {
    hide WellFormed, Prepare, BeginDists, PayBequests, Distribute, AllFit, Wilts, Collected, Chosen, Grows;
    QuietRead(e, Start(s));
    var p := Read(e, Start(s)).pass;
    QuietPrepare(e, p);
    PrepareSteps(e, p);
    var a := Prepare(e, p).pass;
    DoomedBeginDists(e, a, a.mints, m);
    var b := BeginDists(e, a, a.mints);
    if b.Next? {
      RestSteps(e, a, b.pass);
    } else {
      StoppedBegins(e, a);
    }
  }

  lemma StoppedBegins(e: Env, p: Pass)
    requires Good(e, p) && BeginDists(e, p, p.mints).Stop?
    ensures PayBequests(e, p).Stop?
  {
    hide WellFormed, BeginDists;
  }

  lemma {:induction false} AllBegunOrStuck(e: Env, p: Pass, mints: seq<MintInfo>, m: Pubkey, i: nat)
    requires Good(e, p) && Quiet(e) && p.ledger.log.Some? && Unsharable(e.v, p.ledger, m, i) && Chosen(mints, m)
    ensures var r := BeginDists(e, p, mints);
            && Unsharable(e.v, r.pass.ledger, m, i)
            && (r.Next? ==> m in r.pass.stuck || m in r.pass.ledger.dists)
    decreases |mints|
  {
    assert mints != [];
    hide WellFormed, BeginDist, AllFit, Chosen, Unsharable;
    ChosenTail(mints, m);
    BeginDistSteps(e, p, mints[0]);
    var q := BeginDist(e, p, mints[0]);
    if q.Next? {
      BeginDistsSteps(e, q.pass, mints[1..]);
      if mints[0].mint == m {
        BegunOrStuck(e, p, mints[0]);
      } else {
        AllBegunOrStuck(e, q.pass, mints[1..], m, i);
      }
    }
  }

  /** A collected mint with a share that cannot be taken is left open, or stuck. */
  lemma UnsharablePass(e: Env, s: State, m: Pubkey, i: nat)
    requires Good(e, Start(s)) && Quiet(e) && Unsharable(e.v, s, m, i) && Chosen(Collected(e.v, s), m)
    ensures !Complete(e, s, CrankVault(e, Start(s)))
  {
    hide WellFormed, Prepare, BeginDists, PayBequests, Distribute, AllFit, Collected, Chosen, Grows, Unsharable;
    hide Barren, Unopenable, Unpayable, SolStuck, Undustable;
    QuietRead(e, Start(s));
    var p := Read(e, Start(s)).pass;
    QuietPrepare(e, p);
    PrepareSteps(e, p);
    var a := Prepare(e, p).pass;
    AllBegunOrStuck(e, a, a.mints, m, i);
    var b := BeginDists(e, a, a.mints);
    if b.Next? {
      RestSteps(e, a, b.pass);
      ChosenIsIndexed(Collected(e.v, s), m);
    } else {
      StoppedBegins(e, a);
    }
  }

  lemma ChosenIsIndexed(mints: seq<MintInfo>, m: Pubkey)
    requires Chosen(mints, m)
    ensures exists i :: 0 <= i < |mints| && mints[i].mint == m
  {
  }

  lemma BackedStays(e: Env, p: Pass, q: Pass)
    requires Step(e, p, q) && q.planMask == p.planMask && Backed(e, p)
    ensures Backed(e, q) && q.ledger.log.Some? == q.ledger.log.Some? && (p.ledger.log.Some? ==> q.ledger.log.Some?)
    ensures Covered(e, q, 0) && SolTurn(e.v, q.ledger, q.trace, 0)
  {
    hide SolCovered, MintCovered, Shelved, AllFit, Wilts;
  }

  /**
   * A bequest that cannot be paid, because its mint is gone or was begun without the vault's account, or its
   * wallet can have no account, keeps a quiet pass from ever executing the vault; and the next pass finds it so again.
   */
  lemma UnpayableBlocksForEver(e: Env, s: State, j: nat)
    requires Good(e, Start(s)) && Quiet(e) && Unpayable(e.v, s, j)
    ensures var t := CrankVault(e, Start(s)).pass.ledger;
            WellFormed(e.v, t) && !t.executed && Unpayable(e.v, t, j)
  {
    hide CrankVault, AllFit, Grows, Barren, Unopenable, SolCovered, MintCovered, Shelved;
    CrankVaultSteps(e, Start(s));
  }

  /** An unpaid share for a wallet that can have no account keeps its TokenDist open through every quiet pass. */
  lemma UnsharableStaysOpen(e: Env, s: State, m: Pubkey, i: nat)
    requires Good(e, Start(s)) && Quiet(e) && Unsharable(e.v, s, m, i) && m in s.dists
    ensures var t := CrankVault(e, Start(s)).pass.ledger; Unsharable(e.v, t, m, i) && m in t.dists
  {
    hide CrankVault, AllFit, Grows, Barren, Unopenable, Unpayable, SolCovered, MintCovered, Shelved;
    CrankVaultSteps(e, Start(s));
  }

  /** An open TokenDist without the vault's account is still so after a quiet pass. */
  lemma BarrenStays(e: Env, s: State, m: Pubkey)
    requires Good(e, Start(s)) && Quiet(e) && Barren(s, m)
    ensures Barren(CrankVault(e, Start(s)).pass.ledger, m)
    ensures !Complete(e, s, CrankVault(e, Start(s)))
  {
    hide CrankVault, AllFit, Grows, Barren, Unopenable, Unpayable, SolCovered, MintCovered, Shelved, Collected;
    CrankVaultSteps(e, Start(s));
    BarrenIsCollected(e.v, s, m);
  }

  lemma BarrenIsCollected(v: Vault, s: State, m: Pubkey)
    requires WellFormed(v, s) && Barren(s, m)
    ensures Chosen(Collected(v, s), m)
    ensures forall t :: Barren(t, m) ==> m in t.dists
  {
    hide Collected, SolCovered, MintCovered, Shelved;
    CollectedSpec(v, s);
  }

  /** An unpaid SOL share for the vault itself stays unpaid. */
  lemma SolStuckPass(e: Env, s: State, i: nat)
    requires Good(e, Start(s)) && Quiet(e) && SolStuck(e.v, s, i)
    ensures !Complete(e, s, CrankVault(e, Start(s)))
  {
    hide CrankVault, AllFit, Grows, Barren, Unopenable, Unpayable, Unsharable, Undustable, SolCovered, MintCovered, Shelved;
    hide Shares, Collected;
    CrankVaultSteps(e, Start(s));
  }

  /** A TokenDist whose dust no account can take stays open. */
  lemma UndustablePass(e: Env, s: State, m: Pubkey)
    requires Good(e, Start(s)) && Quiet(e) && Undustable(e.v, s, m) && Chosen(Collected(e.v, s), m)
    ensures !Complete(e, s, CrankVault(e, Start(s)))
  {
    hide CrankVault, AllFit, Grows, Barren, Unopenable, Unpayable, Unsharable, SolStuck, WellFormed, DustOf, Collected;
    CrankVaultSteps(e, Start(s));
    ChosenIsIndexed(Collected(e.v, s), m);
  }

  /**
   * Main result: from any ledger one pass without faults or races completes exactly when the ledger is completable
   * and the wallets can take what is still to be paid.
   */
  lemma OnePassCompletes(e: Env, s: State)
    requires Good(e, Start(s)) && Quiet(e)
    ensures Complete(e, s, CrankVault(e, Start(s))) <==> Completable(e.v, s) && WalletsServe(e.v, s)
  {
    hide CrankVault, WellFormed, Collected;
    if !Completable(e.v, s) {
      NotCompletable(e, s);
    } else if !WalletsServe(e.v, s) {
      NotServed(e, s);
    } else {
      CompletableCompletes(e, s);
    }
  }

  lemma NotCompletable(e: Env, s: State)
    requires Good(e, Start(s)) && Quiet(e) && !Completable(e.v, s)
    ensures !Complete(e, s, CrankVault(e, Start(s)))
  {
    hide CrankVault, SolCovered, MintCovered, Shelved, Collected, Complete;
    var v := e.v;
    if m :| m in s.dists && m !in s.own {
      BarrenStays(e, s, m);
    } else if i :| 0 <= i < |Collected(v, s)| && !(Collected(v, s)[i].mint in s.dists
                   || OwnOf(s, Collected(v, s)[i].mint) > 0 || v.Bequeaths(Collected(v, s)[i].mint)) {
      DoomedPass(e, s, Collected(v, s)[i].mint);
    } else {
      var j :| 0 <= j < |v.Assignments()| && !s.planPaid[j] && v.Assignments()[j].mint != DEFAULT_KEY
               && v.Assignments()[j].mint !in v.programOf;
      UnpayableBlocksForEver(e, s, j);
      ExecutedIfComplete(e, s);
    }
  }

  lemma NotServed(e: Env, s: State)
    requires Good(e, Start(s)) && Quiet(e) && !WalletsServe(e.v, s)
    ensures !Complete(e, s, CrankVault(e, Start(s)))
  {
    hide CrankVault, SolCovered, MintCovered, Shelved, Collected, Complete, Shares, Unsharable, Undustable, Barren;
    var v := e.v;
    EachIsChosen(Collected(v, s));
    if j :| 0 <= j < |v.Assignments()| && !s.planPaid[j] && !BequestServes(v, j) {
      UnpayableBlocksForEver(e, s, j);
      ExecutedIfComplete(e, s);
    } else if i :| 0 <= i < |v.beneficiaries| && !LogOf(v, s).solPaid[i] && Shares(v, LogOf(v, s).snapshot)[i] > 0
                   && v.Wallet(i) == v.key {
      SolStuckPass(e, s, i);
    } else if i, k: nat :| 0 <= i < |Collected(v, s)| && Unsharable(v, s, Collected(v, s)[i].mint, k) {
      UnsharablePass(e, s, Collected(v, s)[i].mint, k);
    } else {
      var i :| 0 <= i < |Collected(v, s)| && Undustable(v, s, Collected(v, s)[i].mint);
      UndustablePass(e, s, Collected(v, s)[i].mint);
    }
  }

  lemma ExecutedIfComplete(e: Env, s: State)
    requires Good(e, Start(s))
    ensures Complete(e, s, CrankVault(e, Start(s))) ==> CrankVault(e, Start(s)).pass.ledger.executed
  {
    hide CrankVault, WellFormed, Collected;
  }

  // ---- the failing ledgers are reached ----

  /** Anyone may begin a bequeathed mint while the vault has no account of it. */
  lemma BarrenIsReached(v: Vault, s: State, m: Pubkey)
    requires WellFormed(v, s) && s.log.Some? && m in v.programOf && v.Bequeaths(m) && m !in s.dists && m !in s.own
    ensures Barren(Land(v, s, BeginTokenDist(m, v.programOf[m])), m)
  {
  }

  /** Anyone may give the vault an account of an unplanned mint that is not the associated one: no TokenDist can be begun. */
  lemma StrayIsReached(v: Vault, s: State, m: Pubkey, amount: nat)
    requires WellFormed(v, s) && m in v.programOf && !v.Bequeaths(m) && m !in s.dists && m !in s.own && amount > 0
    ensures var t := Land(v, s, OpenStray(m, amount)); Holds(v, t, m) && Unopenable(v, t, m)
  {
    var t := Land(v, s, OpenStray(m, amount));
    assert t.shelf[|s.shelf|] == Stray(m, amount);
  }
}
