/**
 * Which mints a crank distributes: the mints the vault holds joined with the mints its plan names,
 * with a cap on the unplanned ones. The JavaScript `Map` is a list of entries in insertion order.
 */
module Mints {
  import opened Prelude
  import opened Sorting

  const MAX_AUTO_MINTS := 16

  datatype TokenAccount = TokenAccount(mint: Pubkey, program: Pubkey, amount: int)
  datatype Held = Held(mint: Pubkey, program: Pubkey, amount: int, inPlan: bool)
  datatype MintInfo = MintInfo(mint: Pubkey, program: Pubkey)

  predicate Has(info: seq<Held>, mint: Pubkey) {
    exists i :: 0 <= i < |info| && info[i].mint == mint
  }

  predicate Distinct(info: seq<Held>) {
    forall i, j :: 0 <= i < j < |info| ==> info[i].mint != info[j].mint
  }

  /** `info.get(mint)` followed by `info.set`: the entry keeps its place if the mint is known. */
  function AddAccount(info: seq<Held>, a: TokenAccount, program: Pubkey): seq<Held> {
    if a.amount <= 0 then info
    else if info == [] then [Held(a.mint, program, a.amount, false)]
    else if info[0].mint == a.mint then
      [Held(a.mint, program, info[0].amount + a.amount, info[0].inPlan)] + info[1..]
    else [info[0]] + AddAccount(info[1..], a, program)
  }

  function AddAccounts(info: seq<Held>, accounts: seq<TokenAccount>, program: Pubkey): seq<Held>
    decreases |accounts|
  {
    if accounts == [] then info
    else AddAccounts(AddAccount(info, accounts[0], program), accounts[1..], program)
  }

  function OfProgram(accounts: seq<TokenAccount>, program: Pubkey): (r: seq<TokenAccount>)
    ensures forall a :: a in r <==> a in accounts && a.program == program
  {
    Filter((a: TokenAccount) => a.program == program, accounts)
  }

  /** `prev.inPlan = true` */
  function MarkPlanned(info: seq<Held>, mint: Pubkey): seq<Held> {
    if info == [] then []
    else if info[0].mint == mint then [info[0].(inPlan := true)] + info[1..]
    else [info[0]] + MarkPlanned(info[1..], mint)
  }

  function IsPlanned(): Held -> bool { (h: Held) => h.inPlan }
  function IsUnplanned(): Held -> bool { (h: Held) => !h.inPlan }
  function Descending(): Held -> int { (h: Held) => -h.amount }

  function Planned(info: seq<Held>): seq<Held> {
    Filter(IsPlanned(), info)
  }

  function HeldOnly(info: seq<Held>): seq<Held> {
    SortBy(Descending(), Filter(IsUnplanned(), info))
  }

  /** The keeper's form: plan mints, then a slice of the sorted rest. */
  function Choose(info: seq<Held>): seq<Held> {
    var plan := Planned(info);
    var rest := HeldOnly(info);
    plan + rest[..Min(|rest|, Max(0, MAX_AUTO_MINTS - |plan|))]
  }

  function Infos(chosen: seq<Held>): (r: seq<MintInfo>)
    ensures |r| == |chosen|
    ensures forall i :: 0 <= i < |r| ==> r[i] == MintInfo(chosen[i].mint, chosen[i].program)
  {
    seq(|chosen|, i requires 0 <= i < |chosen| => MintInfo(chosen[i].mint, chosen[i].program))
  }

  /** The server's form: push the sorted rest one by one and count what the cap defers. */
  method ChooseCounting(info: seq<Held>) returns (chosen: seq<Held>, deferred: nat)
    ensures chosen == Choose(info)
    ensures |chosen| + deferred == |Planned(info)| + |HeldOnly(info)|
  {
    chosen := Planned(info);
    deferred := 0;
    var rest := HeldOnly(info);
    for i := 0 to |rest|
      invariant |chosen| + deferred == |Planned(info)| + i
      invariant chosen == Planned(info) + rest[..Min(i, Max(0, MAX_AUTO_MINTS - |Planned(info)|))]
    {
      if |chosen| >= MAX_AUTO_MINTS {
        deferred := deferred + 1;
      } else {
        chosen := chosen + [rest[i]];
      }
    }
  }

  // ---- what the scan collects ----

  /** The sum of the positive balances of one mint. */
  function Balance(accounts: seq<TokenAccount>, mint: Pubkey): int {
    if accounts == [] then 0
    else (if accounts[0].mint == mint && accounts[0].amount > 0 then accounts[0].amount else 0)
         + Balance(accounts[1..], mint)
  }

  function AmountOf(info: seq<Held>, mint: Pubkey): int {
    if info == [] then 0
    else if info[0].mint == mint then info[0].amount
    else AmountOf(info[1..], mint)
  }

  lemma {:induction false} HasTail(info: seq<Held>, mint: Pubkey)
    requires info != []
    ensures Has(info, mint) <==> info[0].mint == mint || Has(info[1..], mint)
  {
    if i :| 0 <= i < |info| && info[i].mint == mint && i > 0 {
      assert info[1..][i - 1].mint == mint;
    }
    if i :| 0 <= i < |info[1..]| && info[1..][i].mint == mint {
      assert info[i + 1].mint == mint;
    }
  }

  lemma {:induction false} AddAccountCorrect(info: seq<Held>, a: TokenAccount, program: Pubkey, mint: Pubkey)
    requires Distinct(info)
    ensures var r := AddAccount(info, a, program);
            && Distinct(r)
            && (Has(r, mint) <==> Has(info, mint) || (a.mint == mint && a.amount > 0))
            && AmountOf(r, mint) == AmountOf(info, mint) + (if a.mint == mint && a.amount > 0 then a.amount else 0)
  {
    var r := AddAccount(info, a, program);
    if a.amount <= 0 {
    } else if info == [] {
      assert r[0].mint == a.mint;
    } else if info[0].mint == a.mint {
      HasTail(info, mint);
      HasTail(r, mint);
    } else {
      AddAccountCorrect(info[1..], a, program, mint);
      AddAccountCorrect(info[1..], a, program, info[0].mint);
      HasTail(info, mint);
      HasTail(r, mint);
      assert !Has(info[1..], info[0].mint) by {
        forall i | 0 <= i < |info[1..]| ensures info[1..][i].mint != info[0].mint {
          assert info[1..][i] == info[i + 1];
        }
      }
      assert r[1..] == AddAccount(info[1..], a, program);
      forall i, j | 0 <= i < j < |r| ensures r[i].mint != r[j].mint {
        assert r[j] == r[1..][j - 1];
        if i > 0 { assert r[i] == r[1..][i - 1]; }
      }
    }
  }

  /** After a scan every mint with a positive account is listed once, with the sum of its positive accounts. */
  lemma {:induction false} AddAccountsCorrect(info: seq<Held>, accounts: seq<TokenAccount>, program: Pubkey, mint: Pubkey)
    requires Distinct(info)
    ensures var r := AddAccounts(info, accounts, program);
            && Distinct(r)
            && (Has(r, mint) <==> Has(info, mint) || exists a :: a in accounts && a.mint == mint && a.amount > 0)
            && AmountOf(r, mint) == AmountOf(info, mint) + Balance(accounts, mint)
    decreases |accounts|
  {
    if accounts != [] {
      AddAccountCorrect(info, accounts[0], program, mint);
      AddAccountsCorrect(AddAccount(info, accounts[0], program), accounts[1..], program, mint);
      assert accounts == [accounts[0]] + accounts[1..];
    }
  }

  /** The two scans of a pass, over both token programs. */
  function Scan(accounts: seq<TokenAccount>): seq<Held> {
    AddAccounts(AddAccounts([], OfProgram(accounts, TOKEN_PROGRAM), TOKEN_PROGRAM),
                OfProgram(accounts, TOKEN_2022_PROGRAM), TOKEN_2022_PROGRAM)
  }

  lemma ScanSumsPositiveAccounts(accounts: seq<TokenAccount>, mint: Pubkey)
    ensures var info := Scan(accounts);
            && Distinct(info)
            && AmountOf(info, mint) == Balance(OfProgram(accounts, TOKEN_PROGRAM), mint)
                                       + Balance(OfProgram(accounts, TOKEN_2022_PROGRAM), mint)
            && (Has(info, mint) <==> exists a :: a in accounts && a.mint == mint && a.amount > 0
                                              && (a.program == TOKEN_PROGRAM || a.program == TOKEN_2022_PROGRAM))
  {
    AddAccountsCorrect([], OfProgram(accounts, TOKEN_PROGRAM), TOKEN_PROGRAM, mint);
    AddAccountsCorrect(AddAccounts([], OfProgram(accounts, TOKEN_PROGRAM), TOKEN_PROGRAM),
                       OfProgram(accounts, TOKEN_2022_PROGRAM), TOKEN_2022_PROGRAM, mint);
  }

  // ---- what the selection keeps ----

  lemma HeldOnlyCorrect(info: seq<Held>)
    ensures forall c :: c in HeldOnly(info) <==> c in info && !c.inPlan
    ensures forall i, k :: 0 <= i < k < |HeldOnly(info)| ==> HeldOnly(info)[k].amount <= HeldOnly(info)[i].amount
  {
    var unplanned := Filter(IsUnplanned(), info);
    SortByCorrect(Descending(), unplanned);
    assert forall c :: c in HeldOnly(info) <==> c in multiset(HeldOnly(info));
    assert forall c :: c in unplanned <==> c in multiset(unplanned);
    forall i, k | 0 <= i < k < |HeldOnly(info)| ensures HeldOnly(info)[k].amount <= HeldOnly(info)[i].amount {
      assert Descending()(HeldOnly(info)[i]) <= Descending()(HeldOnly(info)[k]);
    }
  }

  /**
   * Every planned mint is chosen; a chosen mint was listed; the list is no longer than the cap or the
   * plan, whichever is larger; and no deferred mint has a larger balance than a chosen unplanned one.
   */
  lemma ChooseCorrect(info: seq<Held>)
    ensures forall c :: c in Choose(info) ==> c in info
    ensures forall h :: h in info && h.inPlan ==> h in Choose(info)
    ensures |Choose(info)| <= Max(16, |Planned(info)|)
    ensures forall h, c :: h in info && h !in Choose(info) && c in Choose(info) && !c.inPlan ==> h.amount <= c.amount
    ensures (exists h :: h in info && h !in Choose(info)) ==> |Choose(info)| >= 16
  {
    hide HeldOnly, Filter;
    HeldOnlyCorrect(info);
    var plan := Planned(info);
    assert forall h :: h in plan <==> h in info && h.inPlan;
    var rest := HeldOnly(info);
    var take := Min(|rest|, Max(0, MAX_AUTO_MINTS - |plan|));
    forall h | h in info && h !in Choose(info)
      ensures |Choose(info)| >= MAX_AUTO_MINTS
      ensures forall c :: c in Choose(info) && !c.inPlan ==> h.amount <= c.amount
    {
      assert h !in plan && h in rest;
      var k :| 0 <= k < |rest| && rest[k] == h;
      assert forall i :: 0 <= i < take ==> rest[i] in rest[..take];
      forall c | c in Choose(info) && !c.inPlan ensures h.amount <= c.amount {
        assert c in rest[..take];
      }
    }
  }

  lemma {:induction false} FilterDistinct(p: Held -> bool, info: seq<Held>)
    requires Distinct(info)
    ensures Distinct(Filter(p, info))
  {
    if info != [] {
      var n := |info| - 1;
      FilterDistinct(p, info[..n]);
      var r := Filter(p, info[..n]);
      forall i | 0 <= i < |r| ensures r[i].mint != info[n].mint {
        assert r[i] in info[..n];
      }
    }
  }

  /** Distinctness can be read off the multiset of entries. */
  lemma DistinctPermutes(s: seq<Held>, t: seq<Held>)
    requires Distinct(s) && multiset(s) == multiset(t)
    ensures Distinct(t)
  {
    forall i, j | 0 <= i < j < |t| ensures t[i].mint != t[j].mint {
      if t[i].mint == t[j].mint {
        assert t[i] in multiset(s) && t[j] in multiset(s);
        assert t[i] == t[j];
        assert t == t[..i] + [t[i]] + t[i + 1..j] + [t[j]] + t[j + 1..];
        assert multiset(t)[t[i]] >= 2;
        OnceIfDistinct(s, t[i]);
      }
    }
  }

  lemma {:induction false} OnceIfDistinct(s: seq<Held>, x: Held)
    requires Distinct(s)
    ensures multiset(s)[x] <= 1
  {
    if s != [] {
      OnceIfDistinct(s[1..], x);
      assert s == [s[0]] + s[1..];
      if s[0] == x && x in s[1..] {
        assert false;
      }
    }
  }

  lemma ChooseDistinct(info: seq<Held>)
    requires Distinct(info)
    ensures Distinct(Choose(info))
  {
    var plan := Planned(info);
    var unplanned := Filter(IsUnplanned(), info);
    var rest := HeldOnly(info);
    FilterDistinct(IsPlanned(), info);
    FilterDistinct(IsUnplanned(), info);
    SortByCorrect(Descending(), unplanned);
    DistinctPermutes(unplanned, rest);
    var chosen := Choose(info);
    forall i, j | 0 <= i < j < |chosen| ensures chosen[i].mint != chosen[j].mint {
      if i < |plan| && |plan| <= j {
        assert chosen[i] in plan && chosen[i] in info;
        assert chosen[j] == rest[j - |plan|];
        assert chosen[j] in multiset(rest);
        assert chosen[j] in unplanned && chosen[j] in info;
      }
    }
  }
}
