/**
 * The chain as the cranks see it: one vault past its deadline. `Enabled` holds the rules of the program's
 * permissionless instructions and of what anyone else may do to the vault; a transaction lands exactly when
 * its rule holds at that instant, and then takes effect atomically. The owner's instructions are frozen past
 * the deadline. Amounts are in the smallest unit, lamports above the rent. Closing the vault ends the model.
 */
module Ledger {
  import opened Prelude
  import opened Bits
  import opened Mints

  const TOTAL_BPS := 10_000

  datatype Beneficiary = Beneficiary(wallet: Pubkey, shareBps: nat)
  datatype Assignment = Assignment(mint: Pubkey, beneficiary: nat, amount: nat)

  /**
   * What does not change during distribution. `programOf` gives the token program of every mint that
   * exists, `offCurve` the wallets for which no associated account address is derived.
   */
  datatype Vault = Vault(
    key: Pubkey,
    beneficiaries: seq<Beneficiary>,
    plan: Option<seq<Assignment>>,
    bounty: nat,
    programOf: map<Pubkey, Pubkey>,
    offCurve: set<Pubkey>)
  {
    function Assignments(): seq<Assignment> {
      if plan.Some? then plan.value else []
    }

    predicate Bequeaths(mint: Pubkey) {
      exists j :: 0 <= j < |Assignments()| && Assignments()[j].mint == mint
    }

    function Wallet(i: nat): Pubkey
      requires i < |beneficiaries|
    {
      beneficiaries[i].wallet
    }

    /** What the program checked when vault and plan were set; the vault is itself no key on the curve. */
    predicate Valid() {
      && beneficiaries != [] && TotalBps(beneficiaries) == TOTAL_BPS
      && (forall j :: 0 <= j < |Assignments()| ==> Assignments()[j].beneficiary < |beneficiaries|)
      && (forall m :: m in programOf ==>
            m != DEFAULT_KEY && (programOf[m] == TOKEN_PROGRAM || programOf[m] == TOKEN_2022_PROGRAM))
      && key in offCurve
    }
  }

  function TotalBps(bs: seq<Beneficiary>): nat {
    if bs == [] then 0 else TotalBps(bs[..|bs| - 1]) + bs[|bs| - 1].shareBps
  }

  datatype ExecutionLog = ExecutionLog(snapshot: nat, solPaid: seq<bool>, completed: bool)
  datatype Dist = Dist(snapshot: nat, paid: seq<bool>)

  /** An associated token account address, which is a function of wallet, mint and token program. */
  datatype Ata = Ata(wallet: Pubkey, mint: Pubkey, program: Pubkey)

  /** A token account in the vault's name: the associated one of a mint, or any other. */
  datatype Slot = Canonical(mint: Pubkey) | Stray(mint: Pubkey, amount: nat)

  /**
   * `own` holds the balances of the vault's associated accounts, `shelf` all its token accounts in the order
   * in which they are listed, `withheld` the mints whose associated account holds withheld fees, `atas` the
   * associated accounts of other wallets.
   */
  datatype State = State(
    log: Option<ExecutionLog>,
    planPaid: seq<bool>,
    dists: map<Pubkey, Dist>,
    executed: bool,
    delayOver: bool,
    lamports: nat,
    own: map<Pubkey, nat>,
    withheld: set<Pubkey>,
    shelf: seq<Slot>,
    atas: set<Ata>)

  datatype Ix =
    | CreateAta(ata: Ata)
    | BeginExecution
    | BeginTokenDist(mint: Pubkey, program: Pubkey)
    | SpecificAsset(j: nat, program: Pubkey)
    | SpecificSol(j: nat)
    | SolShares(indices: seq<nat>)
    | Finalize
    | TokenShares(mint: Pubkey, program: Pubkey, indices: seq<nat>)
    | CloseTokenDist(mint: Pubkey, program: Pubkey, dustTo: Option<Pubkey>, harvest: bool)
    | CloseVault
    | DepositToken(mint: Pubkey, amount: nat, withholds: bool)
    | OpenStray(mint: Pubkey, amount: nat)
    | DepositSol(amount: nat)
    | CloseAta(ata: Ata)
    | DelayPasses

  /** What only others do: deposits, the closing of their own accounts, and the passing of time. */
  predicate IsForeign(ix: Ix) {
    ix.DepositToken? || ix.OpenStray? || ix.DepositSol? || ix.CloseAta? || ix.DelayPasses?
  }

  // ---- accounts ----

  function OwnOf(s: State, mint: Pubkey): nat {
    if mint in s.own then s.own[mint] else 0
  }

  predicate ProgramIs(v: Vault, mint: Pubkey, program: Pubkey) {
    mint in v.programOf && v.programOf[mint] == program
  }

  predicate Exists(v: Vault, s: State, ata: Ata) {
    if ata.wallet == v.key then ata.mint in s.own && ProgramIs(v, ata.mint, ata.program) else ata in s.atas
  }

  predicate Shelved(v: Vault, s: State) {
    && (forall m :: m in s.own ==> m in v.programOf && Canonical(m) in s.shelf)
    && (forall x :: x in s.shelf ==> x.mint in v.programOf && (x.Canonical? ==> x.mint in s.own))
  }

  function AccountOf(v: Vault, s: State, x: Slot): TokenAccount {
    TokenAccount(x.mint, if x.mint in v.programOf then v.programOf[x.mint] else "",
                 if x.Stray? then x.amount else OwnOf(s, x.mint))
  }

  /** What the token accounts scan lists. */
  function Accounts(v: Vault, s: State): (r: seq<TokenAccount>)
    ensures |r| == |s.shelf| && forall i :: 0 <= i < |r| ==> r[i] == AccountOf(v, s, s.shelf[i])
  {
    seq(|s.shelf|, i requires 0 <= i < |s.shelf| => AccountOf(v, s, s.shelf[i]))
  }

  // ---- amounts ----

  /** The pro-rata shares of a snapshot, rounded down. */
  function Shares(v: Vault, snapshot: nat): (r: seq<nat>)
    ensures |r| == |v.beneficiaries|
  {
    seq(|v.beneficiaries|, i requires 0 <= i < |v.beneficiaries| => snapshot * v.beneficiaries[i].shareBps / TOTAL_BPS)
  }

  /** What the clear indices are still owed. */
  function Owed(shares: seq<nat>, paid: seq<bool>): nat
    requires |shares| == |paid|
  {
    if shares == [] then 0
    else
      var n := |shares| - 1;
      Owed(shares[..n], paid[..n]) + if paid[n] then 0 else shares[n]
  }

  /** What the unpaid bequests of a mint come to. */
  function Pledged(plan: seq<Assignment>, paid: seq<bool>, mint: Pubkey): nat
    requires |plan| == |paid|
  {
    if plan == [] then 0
    else
      var n := |plan| - 1;
      Pledged(plan[..n], paid[..n], mint) + if !paid[n] && plan[n].mint == mint then plan[n].amount else 0
  }

  function Bequeathed(v: Vault, mint: Pubkey): nat {
    Pledged(v.Assignments(), Zeros(|v.Assignments()|), mint)
  }

  function Pay(paid: seq<bool>, indices: seq<nat>): (r: seq<bool>)
    ensures |r| == |paid|
    ensures forall i: nat :: i < |r| ==> (r[i] <==> paid[i] || i in indices)
  {
    seq(|paid|, i requires 0 <= i < |paid| => paid[i] || i in indices)
  }

  predicate AllBelow(indices: seq<nat>, n: nat) {
    forall k :: 0 <= k < |indices| ==> indices[k] < n
  }

  /** What a batch moves: paid and repeated indices are skipped, so only the clear ones count, once each. */
  function Due(shares: seq<nat>, paid: seq<bool>, indices: seq<nat>): nat
    requires |shares| == |paid|
  {
    OwedShrinks(shares, paid, Pay(paid, indices));
    Owed(shares, paid) - Owed(shares, Pay(paid, indices))
  }

  lemma {:induction false} OwedShrinks(shares: seq<nat>, before: seq<bool>, after: seq<bool>)
    requires |shares| == |before| == |after|
    requires forall i :: 0 <= i < |before| && before[i] ==> after[i]
    ensures Owed(shares, after) <= Owed(shares, before)
  {
    if shares != [] {
      var n := |shares| - 1;
      OwedShrinks(shares[..n], before[..n], after[..n]);
    }
  }

  // ---- what every ledger keeps ----

  /** The balance covers what is owed, and a snapshot that is not empty left the reserve aside. */
  predicate Covers(balance: nat, snapshot: nat, owed: nat, reserve: nat) {
    balance >= owed && (snapshot > 0 ==> balance >= owed + reserve)
  }

  predicate SolCovered(v: Vault, s: State)
    requires |s.planPaid| == |v.Assignments()|
    requires s.log.Some? ==> |s.log.value.solPaid| == |v.beneficiaries|
  {
    s.log.Some? ==>
      Covers(s.lamports, s.log.value.snapshot, Owed(Shares(v, s.log.value.snapshot), s.log.value.solPaid),
             Pledged(v.Assignments(), s.planPaid, DEFAULT_KEY) + if s.executed then 0 else v.bounty)
  }

  predicate MintCovered(v: Vault, s: State, m: Pubkey)
    requires |s.planPaid| == |v.Assignments()|
    requires m in s.dists && |s.dists[m].paid| == |v.beneficiaries|
  {
    Covers(OwnOf(s, m), s.dists[m].snapshot, Owed(Shares(v, s.dists[m].snapshot), s.dists[m].paid),
           Pledged(v.Assignments(), s.planPaid, m))
  }

  predicate Shaped(v: Vault, s: State) {
    && |s.planPaid| == |v.Assignments()|
    && (s.log.Some? ==> |s.log.value.solPaid| == |v.beneficiaries|)
    && (forall m :: m in s.dists ==> |s.dists[m].paid| == |v.beneficiaries| && m in v.programOf && (m in s.own || v.Bequeaths(m)))
    && (s.log.None? ==> s.dists == map[])
    && (s.executed <==> s.log.Some? && s.log.value.completed)
    && (s.executed ==> AllSet(s.planPaid) && AllSet(s.log.value.solPaid))
    && Shelved(v, s)
  }

  predicate WellFormed(v: Vault, s: State) {
    v.Valid() && Shaped(v, s) && SolCovered(v, s) && forall m :: m in s.dists ==> MintCovered(v, s, m)
  }

  // ---- the rules ----

  /** Every earlier bequest of the same mint is paid. */
  predicate EarlierPaid(v: Vault, paid: seq<bool>, j: nat)
    requires j < |v.Assignments()| == |paid|
  {
    forall i :: 0 <= i < j && v.Assignments()[i].mint == v.Assignments()[j].mint ==> paid[i]
  }

  /** A bequest that is next in its mint, to someone other than the vault. */
  predicate BequestDue(v: Vault, s: State, j: nat)
    requires Shaped(v, s) && v.Valid()
  {
    && s.log.Some? && j < |s.planPaid| && !s.planPaid[j] && EarlierPaid(v, s.planPaid, j)
    && v.Wallet(v.Assignments()[j].beneficiary) != v.key
  }

  predicate Enabled(v: Vault, s: State, ix: Ix)
    requires WellFormed(v, s)
  {
    match ix
    case CreateAta(a) => ProgramIs(v, a.mint, a.program)
    case BeginExecution => s.log.None?
    case BeginTokenDist(m, p) =>
      s.log.Some? && m !in s.dists && ProgramIs(v, m, p) && (OwnOf(s, m) > 0 || v.Bequeaths(m))
    case SpecificAsset(j, p) =>
      && BequestDue(v, s, j)
      && var a := v.Assignments()[j];
      && a.mint != DEFAULT_KEY && ProgramIs(v, a.mint, p) && a.mint in s.dists && a.mint in s.own
      && Exists(v, s, Ata(v.Wallet(a.beneficiary), a.mint, p))
    case SpecificSol(j) => BequestDue(v, s, j) && v.Assignments()[j].mint == DEFAULT_KEY
    case SolShares(indices) =>
      && s.log.Some? && !s.executed && AllBelow(indices, |v.beneficiaries|)
      && var (shares, paid) := (Shares(v, s.log.value.snapshot), s.log.value.solPaid);
      && Due(shares, paid, indices) <= s.lamports
      && forall i :: i in indices && !paid[i] && shares[i] > 0 ==> v.Wallet(i) != v.key
    case Finalize =>
      && s.log.Some? && !s.executed && AllSet(s.log.value.solPaid) && AllSet(s.planPaid)
    case TokenShares(m, p, indices) =>
      && m in s.dists && ProgramIs(v, m, p) && m in s.own && AllBelow(indices, |v.beneficiaries|)
      && Due(Shares(v, s.dists[m].snapshot), s.dists[m].paid, indices) <= s.own[m]
      && forall i :: i in indices && !s.dists[m].paid[i] ==> Exists(v, s, Ata(v.Wallet(i), m, p))
    case CloseTokenDist(m, p, dustTo, harvest) =>
      && s.executed && m in s.dists && AllSet(s.dists[m].paid) && ProgramIs(v, m, p) && m in s.own
      && (dustTo.Some? ==> Exists(v, s, Ata(dustTo.value, m, p)))
      && (s.own[m] > 0 ==> dustTo == Some(LargestWallet(v)))
      && (m in s.withheld ==> harvest)
    case CloseVault => s.executed && s.dists == map[] && s.delayOver
    case DepositToken(m, _, _) => m in s.own
    case OpenStray(m, _) => m in v.programOf
    case DepositSol(_) => true
    case CloseAta(a) => a.wallet != v.key
    case DelayPasses => s.log.Some?
  }

  function Debit(balance: nat, amount: nat): nat {
    if amount <= balance then balance - amount else 0
  }

  function Effect(v: Vault, s: State, ix: Ix): State
    requires WellFormed(v, s) && Enabled(v, s, ix)
  {
    match ix
    case CreateAta(a) =>
      if Exists(v, s, a) then s
      else if a.wallet == v.key then s.(own := s.own[a.mint := 0], shelf := s.shelf + [Canonical(a.mint)])
      else s.(atas := s.atas + {a})
    case BeginExecution =>
      s.(log := Some(LogOf(v, s)))
    case BeginTokenDist(m, p) =>
      s.(dists := s.dists[m := Dist(Debit(OwnOf(s, m), Bequeathed(v, m)), Zeros(|v.beneficiaries|))])
    case SpecificAsset(j, p) =>
      var a := v.Assignments()[j];
      s.(planPaid := s.planPaid[j := true], own := s.own[a.mint := Debit(s.own[a.mint], a.amount)])
    case SpecificSol(j) =>
      s.(planPaid := s.planPaid[j := true], lamports := Debit(s.lamports, v.Assignments()[j].amount))
    case SolShares(indices) =>
      var log := s.log.value;
      s.(log := Some(log.(solPaid := Pay(log.solPaid, indices))),
         lamports := s.lamports - Due(Shares(v, log.snapshot), log.solPaid, indices))
    case Finalize =>
      s.(log := Some(s.log.value.(completed := true)), executed := true, lamports := Debit(s.lamports, v.bounty))
    case TokenShares(m, p, indices) =>
      var d := s.dists[m];
      s.(dists := s.dists[m := d.(paid := Pay(d.paid, indices))],
         own := s.own[m := s.own[m] - Due(Shares(v, d.snapshot), d.paid, indices)])
    case CloseTokenDist(m, p, dustTo, harvest) =>
      s.(dists := s.dists - {m}, own := s.own - {m}, withheld := s.withheld - {m},
         shelf := Filter((x: Slot) => x != Canonical(m), s.shelf))
    case CloseVault => s
    case DepositToken(m, amount, withholds) =>
      s.(own := s.own[m := s.own[m] + amount], withheld := if withholds then s.withheld + {m} else s.withheld)
    case OpenStray(m, amount) => s.(shelf := s.shelf + [Stray(m, amount)])
    case DepositSol(amount) => s.(lamports := s.lamports + amount)
    case CloseAta(a) => s.(atas := s.atas - {a})
    case DelayPasses => s.(delayOver := true)
  }

  /** `forEach` with a running best: the first index with the largest share. */
  function LargestFrom(bs: seq<Beneficiary>, i: nat, best: nat, bestBps: int): nat
    requires i <= |bs|
    decreases |bs| - i
  {
    if i == |bs| then best
    else if bs[i].shareBps > bestBps then LargestFrom(bs, i + 1, i, bs[i].shareBps)
    else LargestFrom(bs, i + 1, best, bestBps)
  }

  function LargestShareIndex(bs: seq<Beneficiary>): (k: nat)
    requires bs != []
    ensures k < |bs| && forall i :: 0 <= i < |bs| ==> bs[i].shareBps <= bs[k].shareBps
    ensures forall i :: 0 <= i < k ==> bs[i].shareBps < bs[k].shareBps
  {
    LargestFromSpec(bs, 0, 0, -1);
    LargestFrom(bs, 0, 0, -1)
  }

  lemma {:induction false} LargestFromSpec(bs: seq<Beneficiary>, i: nat, best: nat, bestBps: int)
    requires i <= |bs|
    requires if i == 0 then best == 0 && bestBps == -1 else best < i && bestBps == bs[best].shareBps
    requires forall k :: 0 <= k < i ==> bs[k].shareBps <= bestBps && (k < best ==> bs[k].shareBps < bestBps)
    ensures bs != [] ==>
              var k := LargestFrom(bs, i, best, bestBps);
              && k < |bs|
              && (forall l :: 0 <= l < |bs| ==> bs[l].shareBps <= bs[k].shareBps && (l < k ==> bs[l].shareBps < bs[k].shareBps))
    decreases |bs| - i
  {
    if i < |bs| {
      if bs[i].shareBps > bestBps {
        LargestFromSpec(bs, i + 1, i, bs[i].shareBps);
      } else {
        LargestFromSpec(bs, i + 1, best, bestBps);
      }
    }
  }

  /** Where dust goes. */
  function LargestWallet(v: Vault): Pubkey
    requires v.beneficiaries != []
  {
    v.Wallet(LargestShareIndex(v.beneficiaries))
  }

  /** What of a mint's balance is neither owed nor pledged. */
  function DustOf(v: Vault, s: State, m: Pubkey): nat {
    if m in s.dists && |s.dists[m].paid| == |v.beneficiaries| && |s.planPaid| == |v.Assignments()| then
      Debit(OwnOf(s, m), Owed(Shares(v, s.dists[m].snapshot), s.dists[m].paid) + Pledged(v.Assignments(), s.planPaid, m))
    else 0
  }

  /** The execution log, or the one that would be begun now. */
  function LogOf(v: Vault, s: State): (r: ExecutionLog)
    requires s.log.Some? ==> |s.log.value.solPaid| == |v.beneficiaries|
    ensures |r.solPaid| == |v.beneficiaries|
  {
    if s.log.Some? then s.log.value
    else ExecutionLog(Debit(s.lamports, Bequeathed(v, DEFAULT_KEY) + v.bounty), Zeros(|v.beneficiaries|), false)
  }

  // ---- solvency ----

  lemma FloorTimes(x: nat)
    ensures x / 10_000 * 10_000 <= x <= x / 10_000 * 10_000 + 9_999
  {
  }

  lemma TimesSum(a: nat, b: nat, c: nat)
    ensures a * (b + c) == a * b + a * c
  {
  }

  /** One beneficiary more: what is owed at first, and the shares of all. */
  lemma OneMoreShare(v: Vault, snapshot: nat, n: nat)
    requires 0 < n <= |v.beneficiaries|
    ensures Owed(Shares(v, snapshot)[..n], Zeros(n))
            == Owed(Shares(v, snapshot)[..n - 1], Zeros(n - 1)) + snapshot * v.beneficiaries[n - 1].shareBps / 10_000
    ensures snapshot * TotalBps(v.beneficiaries[..n])
            == snapshot * TotalBps(v.beneficiaries[..n - 1]) + snapshot * v.beneficiaries[n - 1].shareBps
  {
    var shares, bs := Shares(v, snapshot), v.beneficiaries;
    assert shares[..n][..n - 1] == shares[..n - 1] && Zeros(n)[..n - 1] == Zeros(n - 1) && bs[..n][..n - 1] == bs[..n - 1];
    TimesSum(snapshot, TotalBps(bs[..n - 1]), bs[n - 1].shareBps);
  }

  /** Shares rounded down never come to more than the snapshot. */
  lemma {:induction false} SharesFit(v: Vault, snapshot: nat, n: nat)
    requires n <= |v.beneficiaries|
    ensures Owed(Shares(v, snapshot)[..n], Zeros(n)) * 10_000 <= snapshot * TotalBps(v.beneficiaries[..n])
  {
    if n > 0 {
      SharesFit(v, snapshot, n - 1);
      OneMoreShare(v, snapshot, n);
      FloorTimes(snapshot * v.beneficiaries[n - 1].shareBps);
      hide Owed, Shares, TotalBps;
    }
  }

  /** And they come short of it by less than one unit each. */
  lemma {:induction false} SharesFitClosely(v: Vault, snapshot: nat, n: nat)
    requires n <= |v.beneficiaries|
    ensures snapshot * TotalBps(v.beneficiaries[..n]) <= Owed(Shares(v, snapshot)[..n], Zeros(n)) * 10_000 + n * 9_999
  {
    if n > 0 {
      SharesFitClosely(v, snapshot, n - 1);
      OneMoreShare(v, snapshot, n);
      FloorTimes(snapshot * v.beneficiaries[n - 1].shareBps);
      hide Owed, Shares, TotalBps;
    }
  }

  /** The dust of a snapshot: never negative, and less than one unit for each beneficiary. */
  lemma DustIsSmall(v: Vault, snapshot: nat)
    requires v.Valid()
    ensures 0 <= snapshot - Owed(Shares(v, snapshot), Zeros(|v.beneficiaries|)) < |v.beneficiaries|
  {
    var n := |v.beneficiaries|;
    SnapshotCovered(v, snapshot);
    SharesFitClosely(v, snapshot, n);
    assert Shares(v, snapshot)[..n] == Shares(v, snapshot) && v.beneficiaries[..n] == v.beneficiaries;
  }

  lemma SnapshotCovered(v: Vault, snapshot: nat)
    requires v.Valid()
    ensures Owed(Shares(v, snapshot), Zeros(|v.beneficiaries|)) <= snapshot
  {
    var n := |v.beneficiaries|;
    SharesFit(v, snapshot, n);
    assert Shares(v, snapshot)[..n] == Shares(v, snapshot) && v.beneficiaries[..n] == v.beneficiaries;
  }

  /** Bits that are set only lower what is pledged. */
  lemma {:induction false} PledgedShrinks(plan: seq<Assignment>, before: seq<bool>, after: seq<bool>, mint: Pubkey)
    requires |plan| == |before| == |after|
    requires forall i :: 0 <= i < |before| && before[i] ==> after[i]
    ensures Pledged(plan, after, mint) <= Pledged(plan, before, mint)
  {
    if plan != [] {
      var n := |plan| - 1;
      PledgedShrinks(plan[..n], before[..n], after[..n], mint);
    }
  }

  lemma {:induction false} PledgedAfter(plan: seq<Assignment>, paid: seq<bool>, j: nat, mint: Pubkey)
    requires j < |plan| == |paid| && !paid[j]
    ensures Pledged(plan, paid, mint) == Pledged(plan, paid[j := true], mint) + if plan[j].mint == mint then plan[j].amount else 0
  {
    var n := |plan| - 1;
    if j < n {
      PledgedAfter(plan[..n], paid[..n], j, mint);
      assert paid[j := true][..n] == paid[..n][j := true];
    } else {
      assert paid[j := true][..n] == paid[..n];
    }
  }

  lemma {:induction false} AllPaidOwesNothing(shares: seq<nat>, paid: seq<bool>)
    requires |shares| == |paid| && AllSet(paid)
    ensures Owed(shares, paid) == 0
  {
    if shares != [] {
      AllPaidOwesNothing(shares[..|shares| - 1], paid[..|shares| - 1]);
    }
  }

  lemma {:induction false} AllPaidPledgesNothing(plan: seq<Assignment>, paid: seq<bool>, mint: Pubkey)
    requires |plan| == |paid| && AllSet(paid)
    ensures Pledged(plan, paid, mint) == 0
  {
    if plan != [] {
      AllPaidPledgesNothing(plan[..|plan| - 1], paid[..|plan| - 1], mint);
    }
  }

  /** A new snapshot leaves its reserve aside. */
  lemma SnapshotCovers(v: Vault, balance: nat, mint: Pubkey, extra: nat, paid: seq<bool>)
    requires v.Valid() && |paid| == |v.Assignments()|
    ensures var snapshot := Debit(balance, Bequeathed(v, mint) + extra);
            Covers(balance, snapshot, Owed(Shares(v, snapshot), Zeros(|v.beneficiaries|)), Pledged(v.Assignments(), paid, mint) + extra)
  {
    var snapshot := Debit(balance, Bequeathed(v, mint) + extra);
    SnapshotCovered(v, snapshot);
    PledgedShrinks(v.Assignments(), Zeros(|v.Assignments()|), paid, mint);
  }

  lemma BeginExecutionCovered(v: Vault, s: State)
    requires WellFormed(v, s) && Enabled(v, s, BeginExecution)
    ensures WellFormed(v, Effect(v, s, BeginExecution))
  {
    hide Shares, Owed, Pledged, Debit, Shelved;
    SnapshotCovers(v, s.lamports, DEFAULT_KEY, v.bounty, s.planPaid);
    SameShelf(v, s, Effect(v, s, BeginExecution));
  }

  lemma BeginTokenDistCovered(v: Vault, s: State, ix: Ix)
    requires WellFormed(v, s) && Enabled(v, s, ix) && ix.BeginTokenDist?
    ensures WellFormed(v, Effect(v, s, ix))
  {
    hide Shares, Owed, Pledged, Debit, Shelved;
    var s' := Effect(v, s, ix);
    SnapshotCovers(v, OwnOf(s, ix.mint), ix.mint, 0, s.planPaid);
    SameShelf(v, s, s');
    forall m | m in s'.dists ensures MintCovered(v, s', m) {
      if m != ix.mint { assert MintCovered(v, s, m); }
    }
  }

  /** A payment of at most the pledge it settles keeps the rest covered. */
  lemma PaymentCovered(v: Vault, balance: nat, snapshot: nat, paid: seq<bool>, reserve: nat, amount: nat)
    requires |paid| == |v.beneficiaries| && amount <= reserve
    requires Covers(balance, snapshot, Owed(Shares(v, snapshot), paid), reserve)
    ensures Covers(Debit(balance, amount), snapshot, Owed(Shares(v, snapshot), paid), reserve - amount)
  {
    if snapshot == 0 {
      EmptySnapshotOwesNothing(v, paid);
    }
  }

  lemma AssetBequestCovered(v: Vault, s: State, ix: Ix)
    requires WellFormed(v, s) && Enabled(v, s, ix) && ix.SpecificAsset?
    ensures WellFormed(v, Effect(v, s, ix))
  {
    hide Shares, Owed, Pledged, Debit, EarlierPaid;
    var s' := Effect(v, s, ix);
    var a := v.Assignments()[ix.j];
    PledgedAfter(v.Assignments(), s.planPaid, ix.j, DEFAULT_KEY);
    forall m | m in s'.dists ensures MintCovered(v, s', m) {
      assert MintCovered(v, s, m);
      PledgedAfter(v.Assignments(), s.planPaid, ix.j, m);
      if m == a.mint {
        PaymentCovered(v, s.own[m], s.dists[m].snapshot, s.dists[m].paid, Pledged(v.Assignments(), s.planPaid, m), a.amount);
      }
    }
  }

  lemma SolBequestCovered(v: Vault, s: State, ix: Ix)
    requires WellFormed(v, s) && Enabled(v, s, ix) && ix.SpecificSol?
    ensures WellFormed(v, Effect(v, s, ix))
  {
    hide Shares, Owed, Pledged, Debit, EarlierPaid;
    var s' := Effect(v, s, ix);
    var reserve := Pledged(v.Assignments(), s.planPaid, DEFAULT_KEY) + if s.executed then 0 else v.bounty;
    PledgedAfter(v.Assignments(), s.planPaid, ix.j, DEFAULT_KEY);
    PaymentCovered(v, s.lamports, s.log.value.snapshot, s.log.value.solPaid, reserve, v.Assignments()[ix.j].amount);
    forall m | m in s'.dists ensures MintCovered(v, s', m) {
      assert MintCovered(v, s, m);
      PledgedAfter(v.Assignments(), s.planPaid, ix.j, m);
    }
  }

  lemma EmptySnapshotOwesNothing(v: Vault, paid: seq<bool>)
    requires |paid| == |v.beneficiaries|
    ensures Owed(Shares(v, 0), paid) == 0
  {
    ZerosOwe(Shares(v, 0), paid);
  }

  lemma {:induction false} ZerosOwe(shares: seq<nat>, paid: seq<bool>)
    requires |shares| == |paid| && forall i :: 0 <= i < |shares| ==> shares[i] == 0
    ensures Owed(shares, paid) == 0
  {
    if shares != [] {
      ZerosOwe(shares[..|shares| - 1], paid[..|shares| - 1]);
    }
  }

  lemma SharesCovered(v: Vault, s: State, ix: Ix)
    requires WellFormed(v, s) && Enabled(v, s, ix) && (ix.SolShares? || ix.TokenShares?)
    ensures WellFormed(v, Effect(v, s, ix))
  {
    var s' := Effect(v, s, ix);
    forall m | m in s'.dists ensures MintCovered(v, s', m) {
      assert MintCovered(v, s, m);
    }
  }

  lemma FinalizeCovered(v: Vault, s: State)
    requires WellFormed(v, s) && Enabled(v, s, Finalize)
    ensures WellFormed(v, Effect(v, s, Finalize))
  {
    var s' := Effect(v, s, Finalize);
    AllPaidOwesNothing(Shares(v, s.log.value.snapshot), s.log.value.solPaid);
    AllPaidPledgesNothing(v.Assignments(), s.planPaid, DEFAULT_KEY);
    forall m | m in s'.dists ensures MintCovered(v, s', m) {
      assert MintCovered(v, s, m);
    }
  }

  /** Balances that do not fall stay enough. */
  lemma MoreIsCovered(v: Vault, s: State, s': State)
    requires WellFormed(v, s) && Shaped(v, s')
    requires s'.log == s.log && s'.planPaid == s.planPaid && s'.executed == s.executed && s'.dists == s.dists
    requires s'.lamports >= s.lamports && forall m :: OwnOf(s', m) >= OwnOf(s, m)
    ensures WellFormed(v, s')
  {
    hide Shares, Owed, Pledged, Shelved, OwnOf;
    forall m | m in s'.dists ensures MintCovered(v, s', m) {
      assert MintCovered(v, s, m);
    }
  }

  lemma ShelfGrows(v: Vault, s: State, m: Pubkey)
    requires Shelved(v, s) && m in v.programOf && m !in s.own
    ensures Shelved(v, s.(own := s.own[m := 0], shelf := s.shelf + [Canonical(m)]))
  {
    var s' := s.(own := s.own[m := 0], shelf := s.shelf + [Canonical(m)]);
    assert s'.shelf[|s.shelf|] == Canonical(m);
    forall x | x in s'.shelf ensures x.mint in v.programOf && (x.Canonical? ==> x.mint in s'.own) {
      assert x in s.shelf || x == Canonical(m);
    }
    forall k | k in s'.own ensures k in v.programOf && Canonical(k) in s'.shelf {
      if k != m { assert Canonical(k) in s.shelf; }
    }
  }

  lemma OpenedCovered(v: Vault, s: State, a: Ata)
    requires WellFormed(v, s) && Enabled(v, s, CreateAta(a))
    ensures WellFormed(v, Effect(v, s, CreateAta(a)))
  {
    hide SolCovered, MintCovered, Shelved;
    var s' := Effect(v, s, CreateAta(a));
    if a.wallet == v.key && s' != s {
      ShelfGrows(v, s, a.mint);
      MoreIsCovered(v, s, s');
    } else {
      SameShelf(v, s, s');
      MoreIsCovered(v, s, s');
    }
  }

  lemma SameShelf(v: Vault, s: State, s': State)
    requires Shelved(v, s) && s'.own == s.own && s'.shelf == s.shelf
    ensures Shelved(v, s')
  {
  }

  lemma SameKeysShelf(v: Vault, s: State, s': State)
    requires Shelved(v, s) && s'.own.Keys == s.own.Keys && s'.shelf == s.shelf
    ensures Shelved(v, s')
  {
    assert forall m :: m in s'.own <==> m in s.own;
  }

  lemma DepositCovered(v: Vault, s: State, ix: Ix)
    requires WellFormed(v, s) && Enabled(v, s, ix) && ix.DepositToken?
    ensures WellFormed(v, Effect(v, s, ix))
  {
    hide SolCovered, MintCovered, Shelved;
    SameKeysShelf(v, s, Effect(v, s, ix));
    MoreIsCovered(v, s, Effect(v, s, ix));
  }

  lemma StrayCovered(v: Vault, s: State, ix: Ix)
    requires WellFormed(v, s) && Enabled(v, s, ix) && ix.OpenStray?
    ensures WellFormed(v, Effect(v, s, ix))
  {
    hide SolCovered, MintCovered;
    MoreIsCovered(v, s, Effect(v, s, ix));
  }

  lemma CloseCovered(v: Vault, s: State, ix: Ix)
    requires WellFormed(v, s) && Enabled(v, s, ix) && ix.CloseTokenDist?
    ensures WellFormed(v, Effect(v, s, ix))
  {
    hide Shares, Owed, Pledged;
    var s' := Effect(v, s, ix);
    forall m | m in s'.dists ensures MintCovered(v, s', m) {
      assert MintCovered(v, s, m);
    }
  }

  lemma OthersCovered(v: Vault, s: State, ix: Ix)
    requires WellFormed(v, s) && Enabled(v, s, ix)
    requires ix.CloseVault? || ix.DepositSol? || ix.CloseAta? || ix.DelayPasses?
    ensures WellFormed(v, Effect(v, s, ix))
  {
    hide SolCovered, MintCovered, Shelved;
    SameShelf(v, s, Effect(v, s, ix));
    MoreIsCovered(v, s, Effect(v, s, ix));
  }

  // ---- dust ----

  /** A payment of a pledge lowers balance and pledge alike. */
  lemma BequestKeepsDust(v: Vault, s: State, ix: Ix, m: Pubkey)
    requires WellFormed(v, s) && Enabled(v, s, ix) && (ix.SpecificAsset? || ix.SpecificSol?) && m in s.dists
    ensures DustOf(v, Effect(v, s, ix), m) == DustOf(v, s, m)
  {
    hide SolCovered, MintCovered, Shelved, Shares, Owed, Pledged, EarlierPaid, Exists;
    PledgedAfter(v.Assignments(), s.planPaid, ix.j, m);
  }

  /** So does the payment of shares, of debt. */
  lemma SharesKeepDust(v: Vault, s: State, ix: Ix, m: Pubkey)
    requires WellFormed(v, s) && Enabled(v, s, ix) && (ix.TokenShares? || ix.SolShares?) && m in s.dists
    ensures DustOf(v, Effect(v, s, ix), m) == DustOf(v, s, m)
  {
    hide SolCovered, Shelved, Shares, Owed, Pledged, Exists;
    assert MintCovered(v, s, m);
  }

  /** When everything is paid the dust is the balance. */
  lemma DustIsBalance(v: Vault, s: State, m: Pubkey)
    requires WellFormed(v, s) && m in s.dists && AllSet(s.dists[m].paid) && AllSet(s.planPaid)
    ensures DustOf(v, s, m) == OwnOf(s, m)
  {
    hide SolCovered, MintCovered, Shelved;
    AllPaidOwesNothing(Shares(v, s.dists[m].snapshot), s.dists[m].paid);
    AllPaidPledgesNothing(v.Assignments(), s.planPaid, m);
  }

  /** Whatever lands leaves a ledger in which every promise is covered. */
  lemma EffectKeepsWellFormed(v: Vault, s: State, ix: Ix)
    requires WellFormed(v, s) && Enabled(v, s, ix)
    ensures WellFormed(v, Effect(v, s, ix))
  {
    hide WellFormed, Enabled, Effect;
    match ix {
      case BeginExecution => BeginExecutionCovered(v, s);
      case BeginTokenDist(_, _) => BeginTokenDistCovered(v, s, ix);
      case SpecificAsset(_, _) => AssetBequestCovered(v, s, ix);
      case SpecificSol(_) => SolBequestCovered(v, s, ix);
      case SolShares(_) => SharesCovered(v, s, ix);
      case TokenShares(_, _, _) => SharesCovered(v, s, ix);
      case Finalize => FinalizeCovered(v, s);
      case CreateAta(a) => OpenedCovered(v, s, a);
      case OpenStray(_, _) => StrayCovered(v, s, ix);
      case DepositToken(_, _, _) => DepositCovered(v, s, ix);
      case CloseTokenDist(_, _, _, _) => CloseCovered(v, s, ix);
      case _ => OthersCovered(v, s, ix);
    }
  }

  // ---- landing ----

  /** The ledger after an attempt: a rule that does not hold rejects the transaction without effect. */
  function Land(v: Vault, s: State, ix: Ix): (s': State)
    requires WellFormed(v, s)
    ensures WellFormed(v, s')
  {
    if Enabled(v, s, ix) then EffectKeepsWellFormed(v, s, ix); Effect(v, s, ix) else s
  }

  /** Any number of other crankers and depositors act, in any order. */
  function LandAll(v: Vault, s: State, ixs: seq<Ix>): (s': State)
    requires WellFormed(v, s)
    ensures WellFormed(v, s')
    decreases |ixs|
  {
    if ixs == [] then s else LandAll(v, Land(v, s, ixs[0]), ixs[1..])
  }

  /**
   * No batch of shares ever fails for want of funds, in any ledger that transactions lead to: the balance
   * covers every set of clear indices.
   */
  lemma EveryBatchIsCovered(v: Vault, s: State, ixs: seq<Ix>, indices: seq<nat>)
    requires WellFormed(v, s)
    ensures var t := LandAll(v, s, ixs);
            && (t.log.Some? ==> Due(Shares(v, t.log.value.snapshot), t.log.value.solPaid, indices) <= t.lamports)
            && (forall m :: m in t.dists ==> Due(Shares(v, t.dists[m].snapshot), t.dists[m].paid, indices) <= OwnOf(t, m))
  {
    var t := LandAll(v, s, ixs);
    forall m | m in t.dists ensures Due(Shares(v, t.dists[m].snapshot), t.dists[m].paid, indices) <= OwnOf(t, m) {
      assert MintCovered(v, t, m);
    }
  }

  // ---- what no step can undo ----

  predicate BitsGrow(a: seq<bool>, b: seq<bool>) {
    |a| == |b| && forall i :: 0 <= i < |a| && a[i] ==> b[i]
  }

  predicate DistsGrow(s: State, s': State) {
    forall m :: m in s.dists ==> m in s'.dists && BitsGrow(s.dists[m].paid, s'.dists[m].paid)
                                 && s'.dists[m].snapshot == s.dists[m].snapshot
  }

  /** Masks only gain bits; a TokenDist and the vault's associated accounts go away only after execution. */
  predicate Grows(s: State, s': State) {
    && (s.log.Some? ==> s'.log.Some? && BitsGrow(s.log.value.solPaid, s'.log.value.solPaid)
                        && (s.log.value.completed ==> s'.log.value.completed))
    && BitsGrow(s.planPaid, s'.planPaid)
    && (s.executed ==> s'.executed)
    && (!s'.executed ==> DistsGrow(s, s') && s.own.Keys <= s'.own.Keys)
  }

  lemma SharesGrow(v: Vault, s: State, ix: Ix)
    requires WellFormed(v, s) && Enabled(v, s, ix) && (ix.TokenShares? || ix.SolShares?)
    ensures Grows(s, Effect(v, s, ix))
  {
    hide SolCovered, MintCovered, Shelved, Shares, Owed, Due, Exists, AllSet;
  }

  lemma BequestsGrow(v: Vault, s: State, ix: Ix)
    requires WellFormed(v, s) && Enabled(v, s, ix) && (ix.SpecificAsset? || ix.SpecificSol?)
    ensures Grows(s, Effect(v, s, ix))
  {
    hide SolCovered, MintCovered, Shelved, EarlierPaid, Exists, Debit, AllSet;
  }

  lemma AccountsGrow(v: Vault, s: State, ix: Ix)
    requires WellFormed(v, s) && Enabled(v, s, ix) && (ix.CreateAta? || ix.CloseTokenDist? || IsForeign(ix))
    ensures Grows(s, Effect(v, s, ix))
  {
    hide SolCovered, MintCovered, Shelved, Exists, LargestShareIndex, AllSet;
  }

  lemma OthersGrow(v: Vault, s: State, ix: Ix)
    requires WellFormed(v, s) && Enabled(v, s, ix)
    requires ix.BeginExecution? || ix.BeginTokenDist? || ix.Finalize? || ix.CloseVault?
    ensures Grows(s, Effect(v, s, ix))
  {
    hide SolCovered, MintCovered, Shelved, Pledged, Debit, AllSet;
  }

  lemma EffectGrows(v: Vault, s: State, ix: Ix)
    requires WellFormed(v, s) && Enabled(v, s, ix)
    ensures Grows(s, Effect(v, s, ix))
  {
    hide WellFormed, Enabled, Effect, Grows;
    match ix {
      case TokenShares(_, _, _) => SharesGrow(v, s, ix);
      case SolShares(_) => SharesGrow(v, s, ix);
      case SpecificAsset(_, _) => BequestsGrow(v, s, ix);
      case SpecificSol(_) => BequestsGrow(v, s, ix);
      case BeginExecution => OthersGrow(v, s, ix);
      case BeginTokenDist(_, _) => OthersGrow(v, s, ix);
      case Finalize => OthersGrow(v, s, ix);
      case CloseVault => OthersGrow(v, s, ix);
      case _ => AccountsGrow(v, s, ix);
    }
  }

  lemma LandGrows(v: Vault, s: State, ix: Ix)
    requires WellFormed(v, s)
    ensures Grows(s, Land(v, s, ix))
  {
    hide Enabled, Effect, Grows, WellFormed;
    GrowsReflexive(s);
    if Enabled(v, s, ix) {
      EffectGrows(v, s, ix);
    }
  }

  lemma GrowsTransitive(a: State, b: State, c: State)
    requires Grows(a, b) && Grows(b, c)
    ensures Grows(a, c)
  {
  }

  lemma {:induction false} LandAllGrows(v: Vault, s: State, ixs: seq<Ix>)
    requires WellFormed(v, s)
    ensures Grows(s, LandAll(v, s, ixs))
    decreases |ixs|
  {
    hide Land, Grows, WellFormed;
    if ixs != [] {
      var s1 := Land(v, s, ixs[0]);
      LandGrows(v, s, ixs[0]);
      LandAllGrows(v, s1, ixs[1..]);
      GrowsTransitive(s, s1, LandAll(v, s1, ixs[1..]));
    } else {
      GrowsReflexive(s);
    }
  }

  lemma GrowsReflexive(s: State)
    ensures Grows(s, s)
  {
  }

  // ---- what payments move ----

  /** Of each mint the bequests are paid in the order of the plan. */
  predicate PaidInOrder(v: Vault, paid: seq<bool>)
    requires |paid| == |v.Assignments()|
  {
    forall i, j :: 0 <= i < j < |paid| && v.Assignments()[i].mint == v.Assignments()[j].mint && paid[j] ==> paid[i]
  }

  lemma LandKeepsOrder(v: Vault, s: State, ix: Ix)
    requires WellFormed(v, s) && PaidInOrder(v, s.planPaid)
    ensures |Land(v, s, ix).planPaid| == |v.Assignments()| && PaidInOrder(v, Land(v, s, ix).planPaid)
  {
    hide SolCovered, MintCovered, Shelved, Shares, Owed, Pledged, Due, LargestShareIndex, AllSet, Exists;
  }

  /** Whoever submits what, no bequest is paid before an earlier one of its mint. */
  lemma {:induction false} BequestsPaidInOrder(v: Vault, s: State, ixs: seq<Ix>)
    requires WellFormed(v, s) && PaidInOrder(v, s.planPaid)
    ensures PaidInOrder(v, LandAll(v, s, ixs).planPaid)
    decreases |ixs|
  {
    hide Land, SolCovered, MintCovered, Shelved, PaidInOrder;
    if ixs != [] {
      LandKeepsOrder(v, s, ixs[0]);
      BequestsPaidInOrder(v, Land(v, s, ixs[0]), ixs[1..]);
    }
  }

  lemma {:induction false} PledgeIsIncluded(plan: seq<Assignment>, paid: seq<bool>, j: nat)
    requires j < |plan| == |paid| && !paid[j]
    ensures Pledged(plan, paid, plan[j].mint) >= plan[j].amount
  {
    PledgedAfter(plan, paid, j, plan[j].mint);
  }

  /** A bequest moves its amount, or what there is; after a snapshot that was not empty it is paid in full. */
  lemma BequestMoves(v: Vault, s: State, j: nat, p: Pubkey)
    requires WellFormed(v, s) && Enabled(v, s, SpecificAsset(j, p))
    ensures var (t, a) := (Effect(v, s, SpecificAsset(j, p)), v.Assignments()[j]);
            && OwnOf(s, a.mint) - OwnOf(t, a.mint) == Min(a.amount, OwnOf(s, a.mint))
            && (s.dists[a.mint].snapshot > 0 ==> OwnOf(s, a.mint) - OwnOf(t, a.mint) == a.amount)
            && (forall k :: k != a.mint ==> OwnOf(t, k) == OwnOf(s, k)) && t.lamports == s.lamports
  {
    hide SolCovered, Shelved, Shares, EarlierPaid;
    PledgeIsIncluded(v.Assignments(), s.planPaid, j);
    assert MintCovered(v, s, v.Assignments()[j].mint);
  }

  lemma SolBequestMoves(v: Vault, s: State, j: nat)
    requires WellFormed(v, s) && Enabled(v, s, SpecificSol(j))
    ensures var (t, a) := (Effect(v, s, SpecificSol(j)), v.Assignments()[j]);
            && s.lamports - t.lamports == Min(a.amount, s.lamports)
            && (s.log.value.snapshot > 0 ==> s.lamports - t.lamports == a.amount)
            && t.own == s.own
  {
    hide MintCovered, Shelved, Shares, EarlierPaid;
    PledgeIsIncluded(v.Assignments(), s.planPaid, j);
  }

  lemma {:induction false} OwedAfter(shares: seq<nat>, paid: seq<bool>, i: nat)
    requires i < |shares| == |paid| && !paid[i]
    ensures Owed(shares, paid) == Owed(shares, paid[i := true]) + shares[i]
  {
    var n := |shares| - 1;
    if i < n {
      OwedAfter(shares[..n], paid[..n], i);
      assert paid[i := true][..n] == paid[..n][i := true];
    } else {
      assert paid[i := true][..n] == paid[..n];
    }
  }

  /** A share is the snapshot's part of the beneficiary, rounded down; the index of one that is paid moves nothing. */
  lemma ShareMoves(v: Vault, snapshot: nat, paid: seq<bool>, i: nat)
    requires i < |paid| == |v.beneficiaries|
    ensures Due(Shares(v, snapshot), paid, [i]) == if paid[i] then 0 else snapshot * v.beneficiaries[i].shareBps / 10_000
  {
    if paid[i] {
      assert Pay(paid, [i]) == paid;
    } else {
      assert Pay(paid, [i]) == paid[i := true];
      OwedAfter(Shares(v, snapshot), paid, i);
    }
  }

  /** A batch takes from the balance exactly what is owed no longer; finalize takes the bounty, in full after a snapshot that was not empty. */
  lemma PaymentsSettleDebts(v: Vault, s: State, ix: Ix)
    requires WellFormed(v, s) && Enabled(v, s, ix)
    ensures ix.SolShares? ==>
              var (t, shares) := (Effect(v, s, ix), Shares(v, s.log.value.snapshot));
              && t.log.Some? && |t.log.value.solPaid| == |v.beneficiaries| && t.own == s.own
              && s.lamports - t.lamports == Owed(shares, s.log.value.solPaid) - Owed(shares, t.log.value.solPaid)
    ensures ix.TokenShares? ==>
              var (t, m, shares) := (Effect(v, s, ix), ix.mint, Shares(v, s.dists[ix.mint].snapshot));
              && m in t.dists && |t.dists[m].paid| == |v.beneficiaries| && t.lamports == s.lamports
              && OwnOf(s, m) - OwnOf(t, m) == Owed(shares, s.dists[m].paid) - Owed(shares, t.dists[m].paid)
              && forall k :: k != m ==> OwnOf(t, k) == OwnOf(s, k)
    ensures ix.Finalize? ==>
              var t := Effect(v, s, ix);
              && s.lamports - t.lamports == Min(v.bounty, s.lamports)
              && (s.log.value.snapshot > 0 ==> s.lamports - t.lamports == v.bounty) && t.own == s.own
  {
    hide MintCovered, Shelved, Shares, Owed, Pledged, EarlierPaid, Exists, AllSet;
  }
}
