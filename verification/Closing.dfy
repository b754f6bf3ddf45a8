/**
 * A quiet pass and then a quiet cleanup: whether the vault is closed is decided by the ledger that the pass
 * started from. The cap on unplanned mints and balances outside the associated accounts are what can stand in the way.
 */
module Closing {
  import opened Prelude
  import opened Mints
  import opened Ledger
  import opened Crank
  import opened CrankSafety
  import opened Selection
  import opened CrankCompletes
  import opened Completion
  import opened Cleanup

  /** A balance outside the vault's associated accounts. */
  predicate StrayHeld(s: State) {
    exists x :: x in s.shelf && x.Stray? && x.amount > 0
  }

  /** Places for unplanned mints. */
  function Room(info: seq<Held>): nat {
    Max(0, MAX_AUTO_MINTS - |Planned(info)|)
  }

  predicate HoldsAny(v: Vault, s: State) {
    exists i :: 0 <= i < |s.shelf| && AccountOf(v, s, s.shelf[i]).amount > 0
  }

  // ---- the quiet close ----

  lemma HoldsOneOfTwo(v: Vault, s: State)
    requires WellFormed(v, s)
    ensures HoldsAny(v, s) <==> HoldsTokens(v, s, TOKEN_PROGRAM) || HoldsTokens(v, s, TOKEN_2022_PROGRAM)
  {
    hide SolCovered, MintCovered;
    if i :| 0 <= i < |s.shelf| && AccountOf(v, s, s.shelf[i]).amount > 0 {
      assert s.shelf[i] in s.shelf;
      assert AccountOf(v, s, s.shelf[i]).program == v.programOf[s.shelf[i].mint];
    }
  }

  lemma QuietCloseIfEmpty(e: Env, p: Pass)
    requires Good(e, p) && Quiet(e) && p.ledger.executed && p.ledger.dists == map[]
    ensures CloseIfEmpty(e, p).pass.ledger == p.ledger
    ensures CloseIfEmpty(e, p).result ==
            if HoldsAny(e.v, p.ledger) then HeldMintsRemain else if p.ledger.delayOver then Closed else WindowOpen
  {
    hide WellFormed, HoldsTokens, HoldsAny;
    HoldsOneOfTwo(e.v, p.ledger);
    QuietRead(e, p);
    var a := Read(e, p).pass;
    QuietRead(e, a);
    var b := Read(e, a).pass;
    var g := Guard(e, b).pass;
    assert g.ledger == p.ledger;
    QuietRead(e, g.(trace := g.trace + [Submitted(CloseVault, g.ledger, g.stuck)]));
    CloseChangesNothing(e.v, p.ledger);
    assert e.tick(g.clock).fault == Fine;
  }

  lemma QuietCleanup(e: Env, t: State)
    requires Good(e, Start(t)) && Quiet(e) && t.executed && t.dists == map[]
    ensures CleanupVault(e, Start(t), false).result ==
            if HoldsAny(e.v, t) then HeldMintsRemain else if t.delayOver then Closed else WindowOpen
  {
    hide CloseIfEmpty, HoldsAny, SolCovered, MintCovered, Shelved;
    QuietRead(e, Start(t));
    var fee := Read(e, Start(t)).pass;
    QuietRead(e, fee);
    QuietCloseIfEmpty(e, Read(e, fee).pass);
  }

  // ---- what the selection leaves out ----

  lemma HeldOnlyDistinct(info: seq<Held>)
    requires Distinct(info)
    ensures Distinct(HeldOnly(info))
  {
    FilterDistinct(IsUnplanned(), info);
    Sorting.SortByCorrect(Descending(), Filter(IsUnplanned(), info));
    DistinctPermutes(Filter(IsUnplanned(), info), HeldOnly(info));
  }

  lemma AllMintsFit(info: seq<Held>)
    requires |HeldOnly(info)| <= Room(info)
    ensures forall h :: h in info ==> Chosen(Infos(Choose(info)), h.mint)
  {
    HeldOnlyCorrect(info);
    hide HeldOnly;
    var plan, rest, chosen := Planned(info), HeldOnly(info), Choose(info);
    assert rest[..Min(|rest|, Room(info))] == rest;
    assert chosen == plan + rest;
    forall h | h in info ensures Chosen(Infos(chosen), h.mint) {
      assert h in plan || h in rest;
      assert h in chosen;
      var i :| 0 <= i < |chosen| && chosen[i] == h;
      assert Infos(chosen)[i].mint == h.mint;
    }
  }

  lemma FirstThatDoesNotFit(info: seq<Held>)
    requires Distinct(info) && |HeldOnly(info)| > Room(info)
    ensures var h := HeldOnly(info)[Room(info)]; h in info && !Chosen(Infos(Choose(info)), h.mint)
  {
    HeldOnlyCorrect(info);
    HeldOnlyDistinct(info);
    ChooseCorrect(info);
    hide HeldOnly;
    var plan, rest, room, chosen := Planned(info), HeldOnly(info), Room(info), Choose(info);
    var h := rest[room];
    assert h in rest && h in info && !h.inPlan;
    forall i | 0 <= i < |chosen| ensures Infos(chosen)[i].mint != h.mint {
      if i < |plan| {
        assert plan[i] in plan && plan[i] in info && plan[i].inPlan;
        if plan[i].mint == h.mint {
          SameMintSameEntry(info, plan[i], h);
        }
      } else {
        assert chosen[i] == rest[i - |plan|];
      }
    }
  }

  /** Every listed mint is chosen exactly if the unplanned ones fit. */
  lemma AllChosenIfTheyFit(info: seq<Held>)
    requires Distinct(info)
    ensures |HeldOnly(info)| <= Room(info) <==> forall h :: h in info ==> Chosen(Infos(Choose(info)), h.mint)
  {
    hide HeldOnly, Room, Chosen, Choose;
    if |HeldOnly(info)| <= Room(info) {
      AllMintsFit(info);
    } else {
      FirstThatDoesNotFit(info);
    }
  }

  lemma SameMintSameEntry(info: seq<Held>, a: Held, b: Held)
    requires Distinct(info) && a in info && b in info && a.mint == b.mint
    ensures a == b
  {
  }

  /** After a completed pass a balance is left exactly if one was stray or one of the listed mints was not chosen. */
  lemma LeftOver(v: Vault, s: State, t: State)
    requires WellFormed(v, s) && WellFormed(v, t) && Aside(s, t, Collected(v, s))
    requires forall m :: Chosen(Collected(v, s), m) ==> OwnOf(t, m) == 0
    ensures HoldsAny(v, t) <==> StrayHeld(s) || |HeldOnly(CollectedInfo(v, s))| > Room(CollectedInfo(v, s))
  {
    hide SolCovered, MintCovered, CollectedInfo, HeldOnly, Room, Chosen;
    var info := CollectedInfo(v, s);
    InfoSpec(v, s);
    CollectedSpec(v, s);
    AllChosenIfTheyFit(info);
    if i :| 0 <= i < |t.shelf| && AccountOf(v, t, t.shelf[i]).amount > 0 {
      var x := t.shelf[i];
      assert x in t.shelf;
      if x.Stray? {
        assert x in s.shelf;
      } else {
        LeftOwnIsListed(v, s, t, x.mint);
      }
    }
    if StrayHeld(s) {
      var x :| x in s.shelf && x.Stray? && x.amount > 0;
      assert x in t.shelf;
      var k :| 0 <= k < |t.shelf| && t.shelf[k] == x;
      assert AccountOf(v, t, t.shelf[k]).amount > 0;
    } else if |HeldOnly(info)| > Room(info) {
      var h :| h in info && !Chosen(Collected(v, s), h.mint);
      UnchosenIsLeft(v, s, t, h);
    }
  }

  lemma LeftOwnIsListed(v: Vault, s: State, t: State, m: Pubkey)
    requires WellFormed(v, s) && Aside(s, t, Collected(v, s)) && (forall k :: Chosen(Collected(v, s), k) ==> OwnOf(t, k) == 0)
    requires m in t.own && t.own[m] > 0
    ensures exists h :: h in CollectedInfo(v, s) && !Chosen(Collected(v, s), h.mint)
  {
    hide SolCovered, MintCovered, CollectedInfo, Collected, Chosen;
    InfoSpec(v, s);
    assert !Chosen(Collected(v, s), m) && m in s.own && s.own[m] > 0;
    OwnIsHeld(v, s, m);
    assert Has(CollectedInfo(v, s), m);
    var i :| 0 <= i < |CollectedInfo(v, s)| && CollectedInfo(v, s)[i].mint == m;
    assert CollectedInfo(v, s)[i] in CollectedInfo(v, s);
  }

  lemma UnchosenIsLeft(v: Vault, s: State, t: State, h: Held)
    requires WellFormed(v, s) && WellFormed(v, t) && Aside(s, t, Collected(v, s)) && !StrayHeld(s)
    requires h in CollectedInfo(v, s) && !Chosen(Collected(v, s), h.mint)
    ensures HoldsAny(v, t)
  {
    hide SolCovered, MintCovered, CollectedInfo, Collected, Chosen;
    var m := h.mint;
    InfoSpec(v, s);
    CollectedSpec(v, s);
    var i :| 0 <= i < |CollectedInfo(v, s)| && CollectedInfo(v, s)[i] == h;
    assert Has(CollectedInfo(v, s), m);
    HasInPrograms(v, s, m);
    assert Holds(v, s, m);
    HeldInOwn(v, s, m);
    assert m in t.own && t.own[m] == s.own[m] > 0;
    OwnIsHeld(v, t, m);
  }

  lemma HeldInOwn(v: Vault, s: State, m: Pubkey)
    requires Shelved(v, s) && Holds(v, s, m) && !StrayHeld(s)
    ensures m in s.own && s.own[m] > 0
  {
    var k :| 0 <= k < |s.shelf| && s.shelf[k].mint == m && AccountOf(v, s, s.shelf[k]).amount > 0;
    assert s.shelf[k] in s.shelf && s.shelf[k].Canonical?;
  }

  lemma OwnIsHeld(v: Vault, s: State, m: Pubkey)
    requires Shelved(v, s) && m in s.own && s.own[m] > 0
    ensures HoldsAny(v, s) && Holds(v, s, m)
  {
    var k :| 0 <= k < |s.shelf| && s.shelf[k] == Canonical(m);
    assert AccountOf(v, s, s.shelf[k]).amount > 0;
  }

  lemma HasInPrograms(v: Vault, s: State, m: Pubkey)
    requires WellFormed(v, s) && Has(CollectedInfo(v, s), m)
    ensures m in v.programOf
  {
    hide SolCovered, MintCovered, CollectedInfo;
    InfoSpec(v, s);
    HasIsListed(v, CollectedInfo(v, s));
  }

  /**
   * Main result: after a completed pass over a vault whose open TokenDists were all collected, the cleanup,
   * whenever it comes, closes the vault exactly if the window is over, nothing was held outside the associated
   * accounts, and the held unplanned mints fitted under max(0, 16 - plan mints). Otherwise it says which failed.
   */
  lemma CleanupClosesWhatFitted(e: Env, e': Env, s: State, over: bool)
    requires Good(e, Start(s)) && Quiet(e) && Completable(e.v, s) && WalletsServe(e.v, s)
    requires forall m :: m in s.dists ==> Chosen(Collected(e.v, s), m)
    requires Quiet(e') && e'.v == e.v
    ensures var t := CrankVault(e, Start(s)).pass.ledger.(delayOver := over);
            var info := CollectedInfo(e.v, s);
            && Good(e', Start(t)) && t.dists == map[]
            && CleanupVault(e', Start(t), false).result ==
               if StrayHeld(s) || |HeldOnly(info)| > Room(info) then HeldMintsRemain else if over then Closed else WindowOpen
  {
    hide CrankVault, WellFormed, HoldsAny, StrayHeld, Room, HeldOnly, CollectedInfo, Chosen;
    CompletableCompletes(e, s);
    var r := CrankVault(e, Start(s)).pass.ledger;
    var t := r.(delayOver := over);
    DelayIsIrrelevant(e.v, r, over);
    EachIsChosen(Collected(e.v, s));
    forall m | Chosen(Collected(e.v, s), m) ensures m !in r.own {
      ChosenHasIndex(Collected(e.v, s), m);
    }
    LeftOver(e.v, s, r);
    SameHolds(e.v, r, t);
    QuietCleanup(e', t);
  }

  /** A vault that is not executed is not cleaned up, under any script in which nobody executes it meanwhile. */
  lemma UnexecutedIsLeftAlone(e: Env, s: State, openDists: bool)
    requires Good(e, Start(s)) && !LandAll(e.v, LandAll(e.v, s, e.tick(0).others), e.tick(1).others).executed
    ensures var r := CleanupVault(e, Start(s), openDists);
            && r.pass.trace == [] && r.result != Closed && (r.result.Thrown? || r.result == NoExecutionLog)
  {
    hide SolCovered, MintCovered, Shelved, FinishDists, CloseIfEmpty, LandAll;
  }

  // ---- leftover TokenDists ----

  /** A TokenDist that no pass closes: its mint is not collected, or the vault has no account of it. */
  ghost predicate Unclosable(v: Vault, s: State, m: Pubkey) {
    m in s.dists && (!Chosen(Collected(v, s), m) || m !in s.own)
  }

  /** On an executed vault only a mint that cannot be begun is blocked. */
  lemma ExecutedBlocks(v: Vault, s: State)
    requires WellFormed(v, s) && s.executed
    ensures forall k :: Blocked(v, s, k) <==> Chosen(Collected(v, s), k) && Unopenable(v, s, k)
  {
    hide SolCovered, MintCovered, Shelved, Collected, Chosen, Unopenable;
  }

  /** What the pass of the cleanup closes, and which balances it leaves. */
  lemma ExecutedOutcome(e: Env, s: State, r: Flow)
    requires e.v.Valid() && WellFormed(e.v, s) && s.executed && QuietOutcome(e.v, s, r) && Wilts(e.v, s, r.pass.ledger)
    ensures r.pass.ledger.executed
    ensures forall k :: k in r.pass.ledger.dists <==> Unclosable(e.v, s, k)
    ensures (forall k :: !Unclosable(e.v, s, k)) ==> forall m :: Chosen(Collected(e.v, s), m) ==> OwnOf(r.pass.ledger, m) == 0
  {
    hide WellFormed, Collected, Chosen, Blocked, Aside, SolStuck, Undustable, Unsharable, Unpayable;
    ExecutedBlocks(e.v, s);
    var t := r.pass.ledger;
    if forall k :: !Unclosable(e.v, s, k) {
      forall m | Chosen(Collected(e.v, s), m) ensures OwnOf(t, m) == 0 {
        assert !Unclosable(e.v, s, m);
        if m in r.pass.stuck {
          assert Unopenable(e.v, s, m);
          assert Unopenable(e.v, t, m);
        }
      }
    }
  }

  lemma QuietFinish(e: Env, p: Pass)
    requires Good(e, p) && Quiet(e) && WalletsServe(e.v, p.ledger)
    ensures var r := FinishDists(e, p, true);
            && r.Next? && QuietOutcome(e.v, p.ledger, r) && Wilts(e.v, p.ledger, r.pass.ledger)
  {
    hide WellFormed, Phases, QuietOutcome, WalletsServe, Wilts;
    var f := Fresh(p);
    QuietRead(e, f);
    var q := Read(e, f).pass;
    QuietPhases(e, q);
    CrankVaultSteps(e, f);
    var c := CrankVault(e, f);
    OutcomeIsNext(e.v, p.ledger, c);
    QuietRead(e, c.pass);
    SameOutcome(e.v, p.ledger, c, Read(e, c.pass));
  }

  /**
   * Main result for leftover TokenDists: a quiet cleanup of an executed vault that was seen with open ones cranks
   * again and closes them all, unless one is of a mint that is not collected or has no account, which is exactly
   * when it answers that they are open. Otherwise the answer is decided as after a completed pass.
   */
  lemma CleanupFinishesDists(e: Env, s: State)
    requires Good(e, Start(s)) && Quiet(e) && s.executed && WalletsServe(e.v, s)
    ensures var r := CleanupVault(e, Start(s), true);
            var info := CollectedInfo(e.v, s);
            && (r.result == TokenDistsOpen <==> exists m :: Unclosable(e.v, s, m))
            && (forall m :: m in r.pass.ledger.dists <==> Unclosable(e.v, s, m))
            && (r.result != TokenDistsOpen ==>
                  && r.pass.ledger.dists == map[]
                  && r.result == if StrayHeld(s) || |HeldOnly(info)| > Room(info) then HeldMintsRemain
                                 else if s.delayOver then Closed else WindowOpen)
  {
    hide WellFormed, FinishDists, CloseIfEmpty, HoldsAny, StrayHeld, Room, HeldOnly, CollectedInfo, Unclosable, QuietOutcome, WalletsServe, Wilts;
    QuietRead(e, Start(s));
    var fee := Read(e, Start(s)).pass;
    QuietRead(e, fee);
    var log := Read(e, fee).pass;
    ExecutedIsLogged(e.v, s);
    QuietFinish(e, log);
    var r := FinishDists(e, log, true);
    ExecutedOutcome(e, s, r);
    OutcomeIsAside(e.v, s, r);
    NoneOpen(r.pass.ledger);
    if r.pass.ledger.dists == map[] {
      LeftOver(e.v, s, r.pass.ledger);
      QuietCloseIfEmpty(e, r.pass);
    }
  }

  lemma ExecutedIsLogged(v: Vault, s: State)
    requires WellFormed(v, s) && s.executed
    ensures s.log.Some? && s.log.value.completed
  {
  }

  lemma NoneOpen(s: State)
    ensures s.dists == map[] <==> forall m :: m !in s.dists
  {
  }

  lemma OutcomeIsAside(v: Vault, s: State, r: Flow)
    requires WellFormed(v, s) && QuietOutcome(v, s, r)
    ensures Aside(s, r.pass.ledger, Collected(v, s)) && r.pass.ledger.delayOver == s.delayOver
  {
    hide WellFormed, Collected, Blocked, Chosen;
  }

  lemma ChosenHasIndex(mints: seq<MintInfo>, m: Pubkey)
    requires Chosen(mints, m)
    ensures exists i :: 0 <= i < |mints| && mints[i].mint == m
  {
  }

  lemma DelayIsIrrelevant(v: Vault, s: State, over: bool)
    requires WellFormed(v, s)
    ensures WellFormed(v, s.(delayOver := over))
  {
    hide Shares, Owed, Pledged;
    var t := s.(delayOver := over);
    forall m | m in t.dists ensures MintCovered(v, t, m) {
      assert MintCovered(v, s, m);
    }
  }

  lemma SameHolds(v: Vault, s: State, t: State)
    requires t.own == s.own && t.shelf == s.shelf
    ensures HoldsAny(v, t) <==> HoldsAny(v, s)
  {
    assert forall i :: 0 <= i < |s.shelf| ==> AccountOf(v, t, t.shelf[i]) == AccountOf(v, s, s.shelf[i]);
  }
}
