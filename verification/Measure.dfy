/**
 * Progress of any number of racing crankers. What still has to be done before execution is one number; every
 * transaction of theirs that changes the ledger lowers it. A share batch whose indices are all paid lands too,
 * as often as anyone likes, and changes nothing.
 */
module Measure {
  import opened Prelude
  import opened Bits
  import opened Mints
  import opened Ledger

  /** The mints a TokenDist may still be opened for, and those that have one, are among `us`. */
  ghost predicate Universe(v: Vault, s: State, us: seq<Pubkey>) {
    && (forall i, k :: 0 <= i < k < |us| ==> us[i] != us[k])
    && (forall m :: m != DEFAULT_KEY && v.Bequeaths(m) ==> m in us)
    && (forall m :: m in s.own || m in s.dists ==> m in us)
  }

  /** The vault gets associated accounts only for mints among `us`. */
  ghost predicate StaysIn(v: Vault, ixs: seq<Ix>, us: seq<Pubkey>) {
    forall k :: 0 <= k < |ixs| && ixs[k].CreateAta? && ixs[k].ata.wallet == v.key ==> ixs[k].ata.mint in us
  }

  /** The instructions of a crank, the creation of token accounts aside. */
  predicate IsCrank(ix: Ix) {
    !ix.CreateAta? && !IsForeign(ix)
  }

  /** A share batch without a clear index. */
  predicate Idle(s: State, ix: Ix) {
    match ix
    case SolShares(indices) =>
      s.log.Some? && forall i :: i in indices ==> i < |s.log.value.solPaid| && s.log.value.solPaid[i]
    case TokenShares(m, _, indices) =>
      m in s.dists && forall i :: i in indices ==> i < |s.dists[m].paid| && s.dists[m].paid[i]
    case _ => false
  }

  /** One for the snapshot and one for every share, until they are done. */
  function MintWork(v: Vault, s: State, m: Pubkey): nat {
    if m in s.dists then Unset(s.dists[m].paid) else 1 + |v.beneficiaries|
  }

  function MintsWork(v: Vault, s: State, us: seq<Pubkey>): nat {
    if us == [] then 0 else MintWork(v, s, us[0]) + MintsWork(v, s, us[1..])
  }

  function Work(v: Vault, s: State, us: seq<Pubkey>): nat {
    (if s.log.None? then 1 + |v.beneficiaries| else Unset(s.log.value.solPaid))
    + Unset(s.planPaid)
    + MintsWork(v, s, us)
    + (if s.executed then 0 else 1)
  }

  lemma {:induction false} MintsWorkBound(v: Vault, s: State, us: seq<Pubkey>)
    requires WellFormed(v, s)
    ensures MintsWork(v, s, us) <= |us| + |us| * |v.beneficiaries|
  {
    if us != [] {
      MintsWorkBound(v, s, us[1..]);
      assert |us| * |v.beneficiaries| == |v.beneficiaries| + (|us| - 1) * |v.beneficiaries|;
    }
  }

  lemma {:induction false} MintsWorkSame(v: Vault, s: State, s': State, us: seq<Pubkey>)
    requires forall i :: 0 <= i < |us| ==> MintWork(v, s', us[i]) == MintWork(v, s, us[i])
    ensures MintsWork(v, s', us) == MintsWork(v, s, us)
  {
    if us != [] {
      MintsWorkSame(v, s, s', us[1..]);
    }
  }

  /** Work on one mint shows in the sum. */
  lemma {:induction false} MintsWorkLowered(v: Vault, s: State, s': State, us: seq<Pubkey>, m: Pubkey)
    requires m in us && forall i, k :: 0 <= i < k < |us| ==> us[i] != us[k]
    requires MintWork(v, s', m) < MintWork(v, s, m)
    requires forall u :: u in us && u != m ==> MintWork(v, s', u) == MintWork(v, s, u)
    ensures MintsWork(v, s', us) < MintsWork(v, s, us)
  {
    if us[0] == m {
      assert forall i :: 0 <= i < |us[1..]| ==> us[1..][i] == us[i + 1] != m;
      MintsWorkSame(v, s, s', us[1..]);
    } else {
      MintsWorkLowered(v, s, s', us[1..], m);
    }
  }

  lemma PayLowers(paid: seq<bool>, indices: seq<nat>)
    requires AllBelow(indices, |paid|)
    ensures if forall i :: i in indices ==> i < |paid| && paid[i] then Pay(paid, indices) == paid
            else Unset(Pay(paid, indices)) < Unset(paid)
  {
    if i :| i in indices && (i >= |paid| || !paid[i]) {
      assert !paid[i] && Pay(paid, indices)[i];
      UnsetShrinks(paid, Pay(paid, indices));
    }
  }

  lemma IdleSolChangesNothing(v: Vault, s: State, indices: seq<nat>)
    requires WellFormed(v, s) && Enabled(v, s, SolShares(indices)) && Idle(s, SolShares(indices))
    ensures Effect(v, s, SolShares(indices)) == s
  {
    hide SolCovered, MintCovered, Shelved, Shares, Owed;
    PayLowers(s.log.value.solPaid, indices);
  }

  lemma IdleTokenChangesNothing(v: Vault, s: State, ix: Ix)
    requires WellFormed(v, s) && Enabled(v, s, ix) && ix.TokenShares? && Idle(s, ix)
    ensures Effect(v, s, ix) == s
  {
    hide SolCovered, MintCovered, Shelved, Shares, Owed;
    PayLowers(s.dists[ix.mint].paid, ix.indices);
    assert s.dists[ix.mint := s.dists[ix.mint]] == s.dists;
    assert s.own[ix.mint := s.own[ix.mint]] == s.own;
  }

  /** A batch without a clear index moves nothing. */
  lemma IdleChangesNothing(v: Vault, s: State, ix: Ix)
    requires WellFormed(v, s) && Enabled(v, s, ix) && Idle(s, ix)
    ensures Effect(v, s, ix) == s
  {
    hide WellFormed, Enabled, Effect;
    if ix.SolShares? {
      IdleSolChangesNothing(v, s, ix.indices);
    } else {
      IdleTokenChangesNothing(v, s, ix);
    }
  }

  lemma BatchLowersWork(v: Vault, s: State, ix: Ix, us: seq<Pubkey>)
    requires WellFormed(v, s) && Universe(v, s, us) && Enabled(v, s, ix) && (ix.SolShares? || ix.TokenShares?) && !Idle(s, ix)
    ensures Work(v, Effect(v, s, ix), us) < Work(v, s, us)
  {
    hide SolCovered, MintCovered, Shelved, Due, Shares;
    var s' := Effect(v, s, ix);
    if ix.SolShares? {
      PayLowers(s.log.value.solPaid, ix.indices);
      MintsWorkSame(v, s, s', us);
    } else {
      PayLowers(s.dists[ix.mint].paid, ix.indices);
      MintsWorkLowered(v, s, s', us, ix.mint);
    }
  }

  lemma BeginsLowerWork(v: Vault, s: State, ix: Ix, us: seq<Pubkey>)
    requires WellFormed(v, s) && Universe(v, s, us) && !s.executed && Enabled(v, s, ix)
    requires ix.BeginExecution? || ix.BeginTokenDist?
    ensures Work(v, Effect(v, s, ix), us) < Work(v, s, us)
  {
    hide SolCovered, MintCovered, Shelved, Pledged, Debit;
    var s' := Effect(v, s, ix);
    UnsetZeros(|v.beneficiaries|);
    if ix.BeginExecution? {
      MintsWorkSame(v, s, s', us);
    } else {
      MintsWorkLowered(v, s, s', us, ix.mint);
    }
  }

  lemma OthersLowerWork(v: Vault, s: State, ix: Ix, us: seq<Pubkey>)
    requires WellFormed(v, s) && Universe(v, s, us) && !s.executed && Enabled(v, s, ix)
    requires ix.SpecificAsset? || ix.SpecificSol? || ix.Finalize?
    ensures Work(v, Effect(v, s, ix), us) < Work(v, s, us)
  {
    hide SolCovered, MintCovered, Shelved, EarlierPaid, Debit, Exists;
    var s' := Effect(v, s, ix);
    MintsWorkSame(v, s, s', us);
    if !ix.Finalize? {
      assert !s.planPaid[ix.j] && s'.planPaid[ix.j];
      UnsetShrinks(s.planPaid, s'.planPaid);
    }
  }

  lemma OnlyTheseAreLeft(v: Vault, s: State, ix: Ix)
    requires WellFormed(v, s) && !s.executed && Enabled(v, s, ix) && IsCrank(ix)
    requires !ix.SolShares? && !ix.TokenShares? && !ix.BeginExecution? && !ix.BeginTokenDist?
    ensures ix.SpecificAsset? || ix.SpecificSol? || ix.Finalize?
  {
  }

  /**
   * A crank's landing before execution is progress exactly when it is not a share batch without a clear
   * index, and only then does it change the ledger at all.
   */
  lemma LandingLowersWork(v: Vault, s: State, ix: Ix, us: seq<Pubkey>)
    requires WellFormed(v, s) && Universe(v, s, us) && !s.executed && Enabled(v, s, ix) && IsCrank(ix)
    ensures Work(v, Effect(v, s, ix), us) < Work(v, s, us) <==> !Idle(s, ix)
    ensures Effect(v, s, ix) == s <==> Idle(s, ix)
  {
    hide Work, WellFormed, Enabled, Effect, Universe;
    if Idle(s, ix) {
      IdleChangesNothing(v, s, ix);
    } else if ix.SolShares? || ix.TokenShares? {
      BatchLowersWork(v, s, ix, us);
    } else if ix.BeginExecution? || ix.BeginTokenDist? {
      BeginsLowerWork(v, s, ix, us);
    } else {
      OnlyTheseAreLeft(v, s, ix);
      OthersLowerWork(v, s, ix, us);
    }
  }

  lemma WorkDependsOnMasks(v: Vault, s: State, s': State, us: seq<Pubkey>)
    requires s'.log == s.log && s'.planPaid == s.planPaid && s'.dists == s.dists && s'.executed == s.executed
    ensures Work(v, s', us) == Work(v, s, us)
  {
    MintsWorkSame(v, s, s', us);
  }

  /** What is not a crank's instruction leaves the work as it is. */
  lemma ForeignKeepsWork(v: Vault, s: State, ix: Ix, us: seq<Pubkey>)
    requires WellFormed(v, s) && Enabled(v, s, ix) && !IsCrank(ix)
    ensures Work(v, Effect(v, s, ix), us) == Work(v, s, us)
  {
    hide WellFormed, Work, Exists;
    WorkDependsOnMasks(v, s, Effect(v, s, ix), us);
  }

  lemma UniverseKept(v: Vault, s: State, ix: Ix, us: seq<Pubkey>)
    requires WellFormed(v, s) && Universe(v, s, us) && StaysIn(v, [ix], us)
    ensures Universe(v, Land(v, s, ix), us)
  {
    hide SolCovered, MintCovered, Shelved, Shares, Due, Pledged, EarlierPaid, Debit, LargestShareIndex;
    assert [ix][0] == ix;
  }

  /** The landings of a run that change something before execution, account creations and deposits aside. */
  function Landings(v: Vault, s: State, ixs: seq<Ix>): nat
    requires WellFormed(v, s)
    decreases |ixs|
  {
    if ixs == [] || s.executed then 0
    else
      (if Enabled(v, s, ixs[0]) && IsCrank(ixs[0]) && Effect(v, s, ixs[0]) != s then 1 else 0)
      + Landings(v, Land(v, s, ixs[0]), ixs[1..])
  }

  lemma {:induction false} LandingsWithinWork(v: Vault, s: State, ixs: seq<Ix>, us: seq<Pubkey>)
    requires WellFormed(v, s) && Universe(v, s, us) && StaysIn(v, ixs, us)
    ensures Landings(v, s, ixs) <= Work(v, s, us)
    decreases |ixs|
  {
    hide Work, WellFormed, Enabled, Effect, Universe;
    if ixs != [] && !s.executed {
      var ix := ixs[0];
      assert [ix][0] == ixs[0];
      UniverseKept(v, s, ix, us);
      LandingsWithinWork(v, Land(v, s, ix), ixs[1..], us);
      if Enabled(v, s, ix) {
        if IsCrank(ix) {
          LandingLowersWork(v, s, ix, us);
          if Idle(s, ix) { IdleChangesNothing(v, s, ix); }
        } else {
          ForeignKeepsWork(v, s, ix, us);
        }
      }
    }
  }

  /**
   * Main result: in every interleaving of submissions and deposits, from anyone and in any order, at most
   * 2 + M + A + B + M * B cranks change the ledger before execution, for M mints, A assignments and B beneficiaries.
   */
  lemma FewLandings(v: Vault, s: State, ixs: seq<Ix>, us: seq<Pubkey>)
    requires WellFormed(v, s) && Universe(v, s, us) && StaysIn(v, ixs, us)
    ensures Landings(v, s, ixs) <= 2 + |us| + |v.Assignments()| + |v.beneficiaries| + |us| * |v.beneficiaries|
  {
    hide WellFormed;
    LandingsWithinWork(v, s, ixs, us);
    MintsWorkBound(v, s, us);
    WorkBound(v, s, us);
  }

  lemma WorkBound(v: Vault, s: State, us: seq<Pubkey>)
    requires WellFormed(v, s)
    ensures Work(v, s, us) <= 2 + |v.beneficiaries| + |v.Assignments()| + MintsWork(v, s, us)
  {
  }

  /** How many submissions of a run land before execution at all. */
  function AllLandings(v: Vault, s: State, ixs: seq<Ix>): nat
    requires WellFormed(v, s)
    decreases |ixs|
  {
    if ixs == [] || s.executed then 0
    else (if Enabled(v, s, ixs[0]) then 1 else 0) + AllLandings(v, Land(v, s, ixs[0]), ixs[1..])
  }

  /** Landings that change nothing are not bounded: the same paid index can be sent any number of times. */
  lemma {:induction false} IdleLandingsAreUnbounded(v: Vault, s: State, i: nat, ixs: seq<Ix>)
    requires WellFormed(v, s) && s.log.Some? && !s.executed && i < |s.log.value.solPaid| && s.log.value.solPaid[i]
    requires forall k :: 0 <= k < |ixs| ==> ixs[k] == SolShares([i])
    ensures AllLandings(v, s, ixs) == |ixs| && LandAll(v, s, ixs) == s && Landings(v, s, ixs) == 0
    decreases |ixs|
  {
    if ixs != [] {
      var ix := SolShares([i]);
      assert Pay(s.log.value.solPaid, [i]) == s.log.value.solPaid;
      assert Enabled(v, s, ix);
      IdleChangesNothing(v, s, ix);
      IdleLandingsAreUnbounded(v, s, i, ixs[1..]);
    }
  }
}
