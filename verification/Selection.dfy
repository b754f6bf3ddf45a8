/** The mints that a pass without faults or races collects, as a function of the ledger alone. */
module Selection {
  import opened Prelude
  import opened Mints
  import opened Ledger

  /** The walk over the plan after the two scans; a mint that is gone is left out. */
  function PlanInfo(v: Vault, info: seq<Held>, j: nat): seq<Held>
    requires j <= |v.Assignments()|
    decreases |v.Assignments()| - j
  {
    if j == |v.Assignments()| then info
    else
      var mint := v.Assignments()[j].mint;
      if mint == DEFAULT_KEY then PlanInfo(v, info, j + 1)
      else if Has(info, mint) then PlanInfo(v, MarkPlanned(info, mint), j + 1)
      else if mint !in v.programOf then PlanInfo(v, info, j + 1)
      else PlanInfo(v, info + [Held(mint, v.programOf[mint], 0, true)], j + 1)
  }

  function CollectedInfo(v: Vault, s: State): seq<Held> {
    PlanInfo(v, Scan(Accounts(v, s)), 0)
  }

  function Collected(v: Vault, s: State): seq<MintInfo> {
    Infos(Choose(CollectedInfo(v, s)))
  }

  predicate Chosen(mints: seq<MintInfo>, mint: Pubkey) {
    exists i :: 0 <= i < |mints| && mints[i].mint == mint
  }

  /** The vault has a token account with a balance of this mint, associated or not. */
  predicate Holds(v: Vault, s: State, mint: Pubkey) {
    exists i :: 0 <= i < |s.shelf| && s.shelf[i].mint == mint && AccountOf(v, s, s.shelf[i]).amount > 0
  }

  // ---- what the list contains ----

  /** Distinct mints, each under its own program. */
  ghost predicate Tidy(v: Vault, info: seq<Held>) {
    Distinct(info) && forall i :: 0 <= i < |info| ==> ProgramIs(v, info[i].mint, info[i].program)
  }

  ghost predicate PlannedIn(info: seq<Held>, mint: Pubkey) {
    exists k :: 0 <= k < |info| && info[k].mint == mint && info[k].inPlan
  }

  /** The plan names the mint from index j on. */
  ghost predicate Names(v: Vault, j: nat, mint: Pubkey) {
    exists i :: j <= i < |v.Assignments()| && v.Assignments()[i].mint == mint
  }

  lemma {:induction false} MarkPlannedSpec(info: seq<Held>, mint: Pubkey)
    requires Distinct(info)
    ensures var r := MarkPlanned(info, mint);
            && |r| == |info|
            && (forall i :: 0 <= i < |r| ==> r[i] == info[i].(inPlan := info[i].inPlan || info[i].mint == mint))
  {
    if info != [] && info[0].mint != mint {
      MarkPlannedSpec(info[1..], mint);
    }
  }

  lemma MarkPlannedMeans(v: Vault, info: seq<Held>, mint: Pubkey)
    requires Tidy(v, info) && Has(info, mint)
    ensures Tidy(v, MarkPlanned(info, mint))
    ensures forall m :: Has(MarkPlanned(info, mint), m) <==> Has(info, m)
    ensures forall m :: PlannedIn(MarkPlanned(info, mint), m) <==> PlannedIn(info, m) || m == mint
  {
    MarkPlannedSpec(info, mint);
    var r := MarkPlanned(info, mint);
    forall m ensures Has(r, m) <==> Has(info, m) {
      if i :| 0 <= i < |info| && info[i].mint == m { assert r[i].mint == m; }
    }
    forall m ensures PlannedIn(r, m) <==> PlannedIn(info, m) || m == mint {
      if i :| 0 <= i < |info| && info[i].mint == m && info[i].inPlan { assert r[i].mint == m && r[i].inPlan; }
      if m == mint {
        var i :| 0 <= i < |info| && info[i].mint == mint;
        assert r[i].mint == m && r[i].inPlan;
      }
    }
  }

  lemma AppendMeans(v: Vault, info: seq<Held>, h: Held)
    requires Tidy(v, info) && !Has(info, h.mint) && h.inPlan && ProgramIs(v, h.mint, h.program)
    ensures Tidy(v, info + [h])
    ensures forall m :: Has(info + [h], m) <==> Has(info, m) || m == h.mint
    ensures forall m :: PlannedIn(info + [h], m) <==> PlannedIn(info, m) || m == h.mint
  {
    var r := info + [h];
    assert r[|info|] == h;
    forall m ensures Has(r, m) <==> Has(info, m) || m == h.mint {
      if i :| 0 <= i < |info| && info[i].mint == m { assert r[i].mint == m; }
    }
    forall m ensures PlannedIn(r, m) <==> PlannedIn(info, m) || m == h.mint {
      if i :| 0 <= i < |info| && info[i].mint == m && info[i].inPlan { assert r[i].mint == m && r[i].inPlan; }
    }
  }

  lemma NamesNext(v: Vault, j: nat, m: Pubkey)
    requires j < |v.Assignments()|
    ensures Names(v, j, m) <==> Names(v, j + 1, m) || v.Assignments()[j].mint == m
  {
  }

  /** The walk adds exactly the named mints that exist, and marks exactly the named ones. */
  lemma {:induction false} PlanInfoSpec(v: Vault, info: seq<Held>, j: nat)
    requires v.Valid() && Tidy(v, info) && j <= |v.Assignments()|
    ensures var r := PlanInfo(v, info, j);
            && Tidy(v, r)
            && (forall m :: Has(r, m) <==> Has(info, m) || (m in v.programOf && Names(v, j, m)))
            && (forall m :: Has(r, m) ==> (PlannedIn(r, m) <==> PlannedIn(info, m) || Names(v, j, m)))
    decreases |v.Assignments()| - j
  {
    hide Names, Has, PlannedIn, Tidy;
    if j == |v.Assignments()| {
      forall m ensures !Names(v, j, m) { NamesNothing(v, m); }
    } else {
      var mint := v.Assignments()[j].mint;
      forall m ensures Names(v, j, m) <==> Names(v, j + 1, m) || mint == m { NamesNext(v, j, m); }
      NoneIsDefault(v, info);
      if mint == DEFAULT_KEY || (!Has(info, mint) && mint !in v.programOf) {
        PlanInfoSpec(v, info, j + 1);
        HasIsListed(v, PlanInfo(v, info, j));
      } else if Has(info, mint) {
        MarkPlannedMeans(v, info, mint);
        PlanInfoSpec(v, MarkPlanned(info, mint), j + 1);
      } else {
        AppendMeans(v, info, Held(mint, v.programOf[mint], 0, true));
        PlanInfoSpec(v, info + [Held(mint, v.programOf[mint], 0, true)], j + 1);
      }
    }
  }

  lemma NamesNothing(v: Vault, m: Pubkey)
    ensures !Names(v, |v.Assignments()|, m)
  {
  }

  lemma HasIsListed(v: Vault, info: seq<Held>)
    requires Tidy(v, info)
    ensures forall m :: Has(info, m) ==> m in v.programOf
  {
  }

  lemma NoneIsDefault(v: Vault, info: seq<Held>)
    requires v.Valid() && Tidy(v, info)
    ensures !Has(info, DEFAULT_KEY) && DEFAULT_KEY !in v.programOf
  {
  }

  lemma {:induction false} AddAccountTidy(v: Vault, info: seq<Held>, a: TokenAccount)
    requires ProgramIs(v, a.mint, a.program)
    requires forall h :: h in info ==> ProgramIs(v, h.mint, h.program)
    ensures forall h :: h in AddAccount(info, a, a.program) ==> ProgramIs(v, h.mint, h.program)
  {
    if a.amount > 0 && info != [] && info[0].mint != a.mint {
      AddAccountTidy(v, info[1..], a);
    }
  }

  lemma {:induction false} AddAccountsTidy(v: Vault, info: seq<Held>, accounts: seq<TokenAccount>, program: Pubkey)
    requires Tidy(v, info)
    requires forall a :: a in accounts ==> a.program == program && ProgramIs(v, a.mint, program)
    ensures Tidy(v, AddAccounts(info, accounts, program))
    decreases |accounts|
  {
    if accounts != [] {
      assert accounts[0] in accounts;
      AddAccountTidy(v, info, accounts[0]);
      AddAccountCorrect(info, accounts[0], program, "");
      AddAccountsTidy(v, AddAccount(info, accounts[0], program), accounts[1..], program);
    }
  }

  lemma ScanTidy(v: Vault, s: State)
    requires v.Valid() && Shelved(v, s)
    ensures Tidy(v, Scan(Accounts(v, s)))
    ensures forall m :: Has(Scan(Accounts(v, s)), m) <==> Holds(v, s, m)
  {
    var accounts := Accounts(v, s);
    forall a | a in accounts ensures ProgramIs(v, a.mint, a.program) {
      var i :| 0 <= i < |accounts| && accounts[i] == a;
      assert s.shelf[i] in s.shelf;
    }
    AddAccountsTidy(v, [], OfProgram(accounts, TOKEN_PROGRAM), TOKEN_PROGRAM);
    AddAccountsTidy(v, AddAccounts([], OfProgram(accounts, TOKEN_PROGRAM), TOKEN_PROGRAM),
                    OfProgram(accounts, TOKEN_2022_PROGRAM), TOKEN_2022_PROGRAM);
    forall m ensures Has(Scan(accounts), m) <==> Holds(v, s, m) {
      ScanSumsPositiveAccounts(accounts, m);
      if i :| 0 <= i < |s.shelf| && s.shelf[i].mint == m && AccountOf(v, s, s.shelf[i]).amount > 0 {
        assert accounts[i] in accounts;
      }
    }
  }

  lemma {:induction false} ScanUnplanned(info: seq<Held>, accounts: seq<TokenAccount>, program: Pubkey)
    requires forall h :: h in info ==> !h.inPlan
    ensures forall h :: h in AddAccounts(info, accounts, program) ==> !h.inPlan
    decreases |accounts|
  {
    if accounts != [] {
      AddUnplanned(info, accounts[0], program);
      ScanUnplanned(AddAccount(info, accounts[0], program), accounts[1..], program);
    }
  }

  lemma {:induction false} AddUnplanned(info: seq<Held>, a: TokenAccount, program: Pubkey)
    requires forall h :: h in info ==> !h.inPlan
    ensures forall h :: h in AddAccount(info, a, program) ==> !h.inPlan
  {
    if a.amount > 0 && info != [] && info[0].mint != a.mint {
      AddUnplanned(info[1..], a, program);
    }
  }

  /** The list: the held mints and the bequeathed mints that exist, each once, marked exactly if bequeathed. */
  lemma InfoSpec(v: Vault, s: State)
    requires v.Valid() && Shelved(v, s)
    ensures var info := CollectedInfo(v, s);
            && Tidy(v, info)
            && (forall m :: Has(info, m) <==> Holds(v, s, m) || (m in v.programOf && v.Bequeaths(m)))
            && (forall h :: h in info ==> (h.inPlan <==> v.Bequeaths(h.mint)))
  {
    var accounts := Accounts(v, s);
    var scanned := Scan(accounts);
    ScanTidy(v, s);
    ScanUnplanned([], OfProgram(accounts, TOKEN_PROGRAM), TOKEN_PROGRAM);
    ScanUnplanned(AddAccounts([], OfProgram(accounts, TOKEN_PROGRAM), TOKEN_PROGRAM),
                  OfProgram(accounts, TOKEN_2022_PROGRAM), TOKEN_2022_PROGRAM);
    PlanInfoSpec(v, scanned, 0);
    var info := CollectedInfo(v, s);
    forall m ensures Names(v, 0, m) <==> v.Bequeaths(m) { NamesBequeaths(v, m); }
    forall h | h in info ensures h.inPlan <==> v.Bequeaths(h.mint) {
      var i :| 0 <= i < |info| && info[i] == h;
      assert Has(info, h.mint);
      NotPlannedYet(scanned, h.mint);
      PlannedMeans(info, i);
    }
  }

  lemma NamesBequeaths(v: Vault, m: Pubkey)
    ensures Names(v, 0, m) <==> v.Bequeaths(m)
  {
  }

  lemma NotPlannedYet(info: seq<Held>, m: Pubkey)
    requires forall h :: h in info ==> !h.inPlan
    ensures !PlannedIn(info, m)
  {
  }

  lemma PlannedMeans(info: seq<Held>, i: nat)
    requires Distinct(info) && i < |info|
    ensures PlannedIn(info, info[i].mint) <==> info[i].inPlan
  {
  }

  /** What the collected mints are: distinct, under their programs, all bequeathed mints that exist, and held ones. */
  lemma CollectedSpec(v: Vault, s: State)
    requires v.Valid() && Shelved(v, s)
    ensures var mints := Collected(v, s);
            && (forall i :: 0 <= i < |mints| ==>
                  ProgramIs(v, mints[i].mint, mints[i].program) && (Holds(v, s, mints[i].mint) || v.Bequeaths(mints[i].mint)))
            && (forall i, k :: 0 <= i < k < |mints| ==> mints[i].mint != mints[k].mint)
            && (forall m :: m in v.programOf && v.Bequeaths(m) ==> Chosen(mints, m))
  {
    InfoSpec(v, s);
    var info := CollectedInfo(v, s);
    ChooseCorrect(info);
    ChooseDistinct(info);
    var chosen := Choose(info);
    var mints := Collected(v, s);
    forall i | 0 <= i < |mints|
      ensures ProgramIs(v, mints[i].mint, mints[i].program) && (Holds(v, s, mints[i].mint) || v.Bequeaths(mints[i].mint))
    {
      assert chosen[i] in info;
      var k :| 0 <= k < |info| && info[k] == chosen[i];
      assert Has(info, mints[i].mint);
    }
    forall m | m in v.programOf && v.Bequeaths(m) ensures Chosen(mints, m) {
      assert Has(info, m);
      var k :| 0 <= k < |info| && info[k].mint == m;
      assert info[k] in info && info[k].inPlan;
      var i :| 0 <= i < |chosen| && chosen[i] == info[k];
      assert mints[i].mint == m;
    }
  }
}
