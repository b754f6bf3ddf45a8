/** The execution history of a vault: its transactions, grouped into one session per begun distribution. */
module Sessions {
  import opened Prelude
  import opened Sorting

  datatype Kind =
    | BeginExecution | BeginTokenDist | ExecuteSpecificAsset | ExecuteSpecificSol
    | ExecuteSolShares | ExecuteTokenShares | FinalizeExecution | CloseTokenDist | CloseExecutedVault
    | Other(name: string)

  datatype NativeTransfer = NativeTransfer(from: Pubkey, amount: int)
  datatype TokenTransfer = TokenTransfer(mint: Pubkey, amount: int)

  /** Amounts are in the smallest unit. */
  datatype Tx = Tx(
    signature: string, timestamp: int, feePayer: Pubkey, kinds: seq<Kind>,
    native: seq<NativeTransfer>, tokens: seq<TokenTransfer>)

  datatype Step = Step(kind: Kind, signature: string, timestamp: int, sol: Option<int>, token: Option<TokenTransfer>)

  datatype Summary = Summary(
    executedAt: int, signature: string, steps: seq<Step>, totalSol: int, tokenTransferCount: int)

  const UNKNOWN := Other("Unknown")

  const PRIORITY: seq<Kind> := [
    ExecuteSpecificSol, ExecuteSpecificAsset, ExecuteSolShares, ExecuteTokenShares, FinalizeExecution,
    BeginTokenDist, CloseTokenDist, CloseExecutedVault, BeginExecution]

  // ---- one transaction ----

  predicate IsExecution(t: Tx) {
    exists i :: 0 <= i < |t.kinds| && !t.kinds[i].Other?
  }

  predicate Begins(t: Tx) {
    BeginExecution in t.kinds
  }

  predicate Finalizes(t: Tx) {
    FinalizeExecution in t.kinds
  }

  /** Where the first kind of the order that is present stands. */
  function FirstIn(order: seq<Kind>, kinds: seq<Kind>): (k: nat)
    ensures k <= |order| && forall i :: 0 <= i < k ==> order[i] !in kinds
    ensures k < |order| ==> order[k] in kinds
  {
    if order == [] || order[0] in kinds then 0 else 1 + FirstIn(order[1..], kinds)
  }

  function Primary(order: seq<Kind>, kinds: seq<Kind>): Kind {
    var k := FirstIn(order, kinds);
    if k < |order| then order[k] else if kinds == [] then UNKNOWN else kinds[0]
  }

  /** The most telling kind of a transaction that bundles several. */
  method PrimaryType(order: seq<Kind>, kinds: seq<Kind>) returns (r: Kind)
    ensures r == Primary(order, kinds)
    ensures kinds != [] ==> r in kinds
  {
    var i := 0;
    while i < |order|
      invariant 0 <= i <= |order|
      invariant forall k :: 0 <= k < i ==> order[k] !in kinds
    {
      if order[i] in kinds { return order[i]; }
      i := i + 1;
    }
    r := if kinds == [] then UNKNOWN else kinds[0];
  }

  /** Every execution kind has its place in the order, so exactly the execution transactions are shown as such. */
  lemma ExecutionShownAsExecution(t: Tx)
    ensures IsExecution(t) <==> Primary(PRIORITY, t.kinds) in t.kinds && !Primary(PRIORITY, t.kinds).Other?
  {
    if i :| 0 <= i < |t.kinds| && !t.kinds[i].Other? {
      EveryKindRanked(t.kinds[i]);
    }
  }

  /** Payments come before what opens and closes a distribution, bequests before shares, SOL before tokens. */
  lemma PaymentsShownFirst(kinds: seq<Kind>)
    ensures ExecuteSpecificSol in kinds ==> Primary(PRIORITY, kinds) == ExecuteSpecificSol
    ensures ExecuteSpecificAsset in kinds && ExecuteSpecificSol !in kinds ==> Primary(PRIORITY, kinds) == ExecuteSpecificAsset
    ensures ExecuteSolShares in kinds ==>
              Primary(PRIORITY, kinds) in [ExecuteSpecificSol, ExecuteSpecificAsset, ExecuteSolShares]
    ensures ExecuteTokenShares in kinds ==>
              Primary(PRIORITY, kinds) in [ExecuteSpecificSol, ExecuteSpecificAsset, ExecuteSolShares, ExecuteTokenShares]
    ensures FinalizeExecution in kinds ==>
              Primary(PRIORITY, kinds) !in [BeginTokenDist, CloseTokenDist, CloseExecutedVault, BeginExecution]
    ensures Primary(PRIORITY, kinds) == BeginExecution ==> forall k :: k in kinds ==> k == BeginExecution || k.Other?
  {
    var p := PRIORITY;
    assert p[0] == ExecuteSpecificSol && p[1] == ExecuteSpecificAsset && p[2] == ExecuteSolShares && p[3] == ExecuteTokenShares;
    assert p[4] == FinalizeExecution && p[5] == BeginTokenDist && p[6] == CloseTokenDist && p[7] == CloseExecutedVault;
    forall k | k in kinds && !k.Other? ensures k in p { EveryKindRanked(k); }
  }

  lemma EveryKindRanked(k: Kind)
    requires !k.Other?
    ensures k in PRIORITY
    ensures forall i :: 0 <= i < |PRIORITY| ==> !PRIORITY[i].Other?
  {
  }

  /** What left an account other than the payer's. */
  function OutSol(payer: Pubkey, ts: seq<NativeTransfer>): (r: int)
    ensures r >= 0
    ensures r > 0 <==> exists i :: 0 <= i < |ts| && ts[i].from != payer && ts[i].amount > 0
  {
    if ts == [] then 0
    else
      var last := ts[|ts| - 1];
      OutSol(payer, ts[..|ts| - 1]) + if last.from != payer && last.amount > 0 then last.amount else 0
  }

  function FirstToken(ts: seq<TokenTransfer>): (r: Option<TokenTransfer>)
    ensures r.Some? <==> exists i :: 0 <= i < |ts| && ts[i].amount > 0
    ensures r.Some? ==> r.value.amount > 0
  {
    if ts == [] then None else if ts[0].amount > 0 then Some(ts[0]) else FirstToken(ts[1..])
  }

  function StepOf(t: Tx): Step {
    var sol := OutSol(t.feePayer, t.native);
    Step(Primary(PRIORITY, t.kinds), t.signature, t.timestamp, if sol > 0 then Some(sol) else None, FirstToken(t.tokens))
  }

  // ---- sessions ----

  type Group = s: seq<Tx> | s != [] witness [Tx("", 0, "", [], [], [])]

  /** A begun distribution opens a group; anything else joins the latest. */
  function Split(s: seq<Tx>): seq<Group> {
    if s == [] then []
    else
      var groups, x := Split(s[..|s| - 1]), s[|s| - 1];
      if groups == [] || Begins(x) then groups + [[x]]
      else groups[..|groups| - 1] + [groups[|groups| - 1] + [x]]
  }

  function LastFinalize(g: seq<Tx>): Option<Tx> {
    if g == [] then None
    else if Finalizes(g[|g| - 1]) then Some(g[|g| - 1])
    else LastFinalize(g[..|g| - 1])
  }

  function TotalSol(s: seq<Tx>): int {
    if s == [] then 0 else TotalSol(s[..|s| - 1]) + OutSol(s[|s| - 1].feePayer, s[|s| - 1].native)
  }

  function TokenCount(s: seq<Tx>): int {
    if s == [] then 0 else TokenCount(s[..|s| - 1]) + if FirstToken(s[|s| - 1].tokens).Some? then 1 else 0
  }

  function Representative(g: Group): Tx {
    if LastFinalize(g).Some? then LastFinalize(g).value else g[0]
  }

  function Summarize(g: Group): Summary {
    Summary(Representative(g).timestamp, Representative(g).signature, MapSeq(StepOf, g), TotalSol(g), TokenCount(g))
  }

  function Summaries(groups: seq<Group>): (r: seq<Summary>)
    ensures |r| == |groups| && forall i :: 0 <= i < |groups| ==> r[i] == Summarize(groups[i])
  {
    seq(|groups|, i requires 0 <= i < |groups| => Summarize(groups[i]))
  }

  function Execution(txs: seq<Tx>): seq<Tx> {
    Filter(IsExecution, SortBy((t: Tx) => t.timestamp, txs))
  }

  function Reverse<T>(s: seq<T>): (r: seq<T>)
    ensures |r| == |s| && forall i :: 0 <= i < |s| ==> r[i] == s[|s| - 1 - i]
  {
    if s == [] then [] else [s[|s| - 1]] + Reverse(s[..|s| - 1])
  }

  /** The sessions so far, the open one included. */
  function Open(sessions: seq<Summary>, cur: Option<Summary>): seq<Summary> {
    if cur.Some? then sessions + [cur.value] else sessions
  }

  method GroupIntoSessions(txs: seq<Tx>) returns (r: seq<Summary>)
    ensures r == Reverse(Summaries(Split(Execution(txs))))
  {
    hide Summarize, Extended, Split, IsExecution, Begins, SortBy, Filter;
    FilterSplitEmpty();
    var sorted := SortBy((t: Tx) => t.timestamp, txs);
    var sessions: seq<Summary> := [];
    var cur: Option<Summary> := None;
    var i := 0;
    while i < |sorted|
      invariant 0 <= i <= |sorted|
      invariant cur.None? ==> sessions == []
      invariant Open(sessions, cur) == Summaries(Split(Filter(IsExecution, sorted[..i])))
    {
      var tx := sorted[i];
      ghost var s := Filter(IsExecution, sorted[..i]);
      FilterAppend(IsExecution, sorted[..i], tx);
      assert sorted[..i + 1] == sorted[..i] + [tx];
      i := i + 1;
      if !IsExecution(tx) { continue; }
      SessionStep(s, tx, sessions, cur);
      if Begins(tx) && cur.Some? {
        sessions := sessions + [cur.value];
        cur := None;
      }
      if cur.None? {
        cur := Some(Blank(tx));
      }
      cur := Some(Extended(cur.value, tx));
    }
    assert sorted[..|sorted|] == sorted;
    if cur.Some? {
      sessions := sessions + [cur.value];
    }
    r := Reverse(sessions);
  }

  /** What the loop's body does to the open session. */
  function Extended(cur: Summary, tx: Tx): Summary {
    var step := StepOf(tx);
    Summary(
      if Finalizes(tx) then tx.timestamp else cur.executedAt,
      if Finalizes(tx) then tx.signature else cur.signature,
      cur.steps + [step],
      cur.totalSol + (if step.sol.Some? then step.sol.value else 0),
      cur.tokenTransferCount + (if step.token.Some? then 1 else 0))
  }

  lemma FilterSplitEmpty()
    ensures Split(Filter(IsExecution, [])) == []
  {
  }

  /** One execution transaction more: the open session grows, or it is closed and a new one opens. */
  lemma SessionStep(s: seq<Tx>, tx: Tx, sessions: seq<Summary>, cur: Option<Summary>)
    requires Open(sessions, cur) == Summaries(Split(s))
    requires cur.None? ==> sessions == []
    ensures Summaries(Split(s + [tx])) ==
              if cur.None? || Begins(tx) then Open(sessions, cur) + [Extended(Blank(tx), tx)]
              else sessions + [Extended(cur.value, tx)]
  {
    hide Summarize, Extended, Split, Begins;
    var groups: seq<Group> := Split(s);
    SplitAppend(s, tx);
    if cur.None? || Begins(tx) {
      SummarizeFirst(tx);
      assert Split(s + [tx]) == groups + [[tx]];
      assert Summaries(groups + [[tx]]) == Summaries(groups) + [Summarize([tx])];
    } else {
      var last := groups[|groups| - 1];
      assert cur.value == Summarize(last);
      SummarizeNext(last, tx);
      assert sessions == Summaries(groups[..|groups| - 1]);
    }
  }

  /** A session before its first step is pushed. */
  function Blank(tx: Tx): Summary {
    Summary(tx.timestamp, tx.signature, [], 0, 0)
  }

  lemma SummarizeFirst(tx: Tx)
    ensures Extended(Blank(tx), tx) == Summarize([tx])
  {
    assert [tx][..0] == [];
    assert MapSeq(StepOf, [tx]) == [StepOf(tx)];
    assert TotalSol([]) == 0 && TokenCount([]) == 0 && LastFinalize([]).None?;
    assert Representative([tx]) == tx;
  }

  lemma SummarizeNext(g: Group, tx: Tx)
    ensures Extended(Summarize(g), tx) == Summarize(g + [tx])
  {
    var h := g + [tx];
    assert h[..|h| - 1] == g;
    assert MapSeq(StepOf, h) == MapSeq(StepOf, g) + [StepOf(tx)];
  }

  lemma SplitAppend(s: seq<Tx>, x: Tx)
    ensures var groups := Split(s);
            Split(s + [x]) == if groups == [] || Begins(x) then groups + [[x]]
                              else groups[..|groups| - 1] + [groups[|groups| - 1] + [x]]
    ensures Split(s) == [] <==> s == []
  {
    assert (s + [x])[..|s|] == s;
  }

  // ---- what the sessions are ----

  /** Groups that split s at begins and nowhere else: each later group opens with one, none holds one further in. */
  ghost predicate CutsAtBegins(s: seq<Tx>, groups: seq<Group>) {
    Flatten(groups) == s && BeginsAtHeads(groups)
  }

  ghost predicate BeginsAtHeads(groups: seq<Group>) {
    && (forall i :: 1 <= i < |groups| ==> Begins(groups[i][0]))
    && (forall i, j :: 0 <= i < |groups| && 1 <= j < |groups[i]| ==> !Begins(groups[i][j]))
  }

  lemma {:induction false} FlattenAppend<T>(ss: seq<seq<T>>, s: seq<T>)
    ensures Flatten(ss + [s]) == Flatten(ss) + s
  {
    if ss == [] {
      assert [s][1..] == [];
    } else {
      assert (ss + [s])[1..] == ss[1..] + [s];
      FlattenAppend(ss[1..], s);
    }
  }

  lemma NewGroupCuts(s: seq<Tx>, groups: seq<Group>, x: Tx)
    requires CutsAtBegins(s, groups) && (groups == [] || Begins(x))
    ensures CutsAtBegins(s + [x], groups + [[x]])
  {
    hide Begins, Flatten;
    FlattenAppend(groups, [x]);
  }

  lemma GrownGroupCuts(s: seq<Tx>, groups: seq<Group>, x: Tx)
    requires CutsAtBegins(s, groups) && groups != [] && !Begins(x)
    ensures CutsAtBegins(s + [x], groups[..|groups| - 1] + [groups[|groups| - 1] + [x]])
  {
    hide Begins, Flatten, BeginsAtHeads;
    LastGroupFlattens(groups, x);
    LastGroupGrows(groups, x);
  }

  lemma NothingCuts()
    ensures CutsAtBegins([], [])
  {
  }

  /** The groups, oldest first, are a partition of the execution transactions, cut at begins. */
  lemma {:induction false} SplitCutsAtBegins(s: seq<Tx>)
    ensures CutsAtBegins(s, Split(s))
  {
    hide Begins, CutsAtBegins;
    if s == [] {
      NothingCuts();
    } else {
      var n := |s| - 1;
      var groups, x := Split(s[..n]), s[n];
      SplitCutsAtBegins(s[..n]);
      assert s == s[..n] + [x];
      if groups == [] || Begins(x) {
        NewGroupCuts(s[..n], groups, x);
      } else {
        GrownGroupCuts(s[..n], groups, x);
      }
    }
  }

  lemma LastGroupFlattens(groups: seq<Group>, x: Tx)
    requires groups != []
    ensures var m := |groups| - 1; Flatten(groups[..m] + [groups[m] + [x]]) == Flatten(groups) + [x]
  {
    hide Flatten;
    var m := |groups| - 1;
    var front, last: seq<Tx> := groups[..m], groups[m];
    LastApart(groups);
    FlattenAppend(front, last);
    FlattenAppend(front, last + [x]);
    ConcatAssociates(Flatten(front), last, [x]);
  }

  lemma LastApart(groups: seq<Group>)
    requires groups != []
    ensures groups == groups[..|groups| - 1] + [groups[|groups| - 1]]
  {
  }

  lemma ConcatAssociates<T>(a: seq<T>, b: seq<T>, c: seq<T>)
    ensures a + (b + c) == a + b + c
  {
  }

  lemma LastGroupGrows(groups: seq<Group>, x: Tx)
    requires groups != [] && !Begins(x) && BeginsAtHeads(groups)
    ensures BeginsAtHeads(groups[..|groups| - 1] + [groups[|groups| - 1] + [x]])
  {
    hide Begins;
    var m := |groups| - 1;
    var last := groups[m] + [x];
    assert last[0] == groups[m][0];
    forall j | 1 <= j < |last| ensures !Begins(last[j]) {
      if j < |groups[m]| {
        assert !Begins(groups[m][j]);
      }
    }
  }

  /** And it is the only such partition. */
  lemma {:induction false} OnlyOneCut(s: seq<Tx>, groups: seq<Group>)
    requires CutsAtBegins(s, groups)
    ensures groups == Split(s)
  {
    hide Begins;
    if groups != [] {
      var m := |groups| - 1;
      var g := groups[m];
      var k := |g| - 1;
      assert groups == groups[..m] + [g];
      FlattenAppend(groups[..m], g);
      assert s == Flatten(groups[..m]) + g && s[|s| - 1] == g[k];
      if k == 0 {
        assert s[..|s| - 1] == Flatten(groups[..m]);
        OnlyOneCut(s[..|s| - 1], groups[..m]);
        assert g == [g[0]];
        assert m > 0 ==> Begins(g[0]);
      } else {
        var shorter: seq<Group> := groups[..m] + [g[..k]];
        FlattenAppend(groups[..m], g[..k]);
        assert s[..|s| - 1] == Flatten(groups[..m]) + g[..k];
        ShorterStillCuts(groups, m, k);
        OnlyOneCut(s[..|s| - 1], shorter);
        assert g == g[..k] + [g[k]];
      }
    }
  }

  lemma ShorterStillCuts(groups: seq<Group>, m: nat, k: nat)
    requires |groups| == m + 1 && k == |groups[m]| - 1 && k > 0
    requires CutsAtBegins(Flatten(groups), groups)
    ensures var shorter: seq<Group> := groups[..m] + [groups[m][..k]]; CutsAtBegins(Flatten(shorter), shorter)
    ensures !Begins(groups[m][k])
  {
    hide Begins;
  }

  lemma {:induction false} TotalsAppend(s: seq<Tx>, t: seq<Tx>)
    ensures TotalSol(s + t) == TotalSol(s) + TotalSol(t)
    ensures TokenCount(s + t) == TokenCount(s) + TokenCount(t)
  {
    hide OutSol, FirstToken;
    if t == [] {
      assert s + t == s;
    } else {
      var n := |t| - 1;
      TotalsAppend(s, t[..n]);
      assert (s + t)[..|s + t| - 1] == s + t[..n];
    }
  }

  function SumOver(f: Summary -> int, s: seq<Summary>): int {
    if s == [] then 0 else f(s[0]) + SumOver(f, s[1..])
  }

  lemma {:induction false} GroupTotals(groups: seq<Group>)
    ensures SumOver((r: Summary) => r.totalSol, Summaries(groups)) == TotalSol(Flatten(groups))
    ensures SumOver((r: Summary) => r.tokenTransferCount, Summaries(groups)) == TokenCount(Flatten(groups))
  {
    if groups != [] {
      GroupTotals(groups[1..]);
      TotalsAppend(groups[0], Flatten(groups[1..]));
      assert Summaries(groups)[1..] == Summaries(groups[1..]);
    }
  }

  /** The sessions share out the totals of all execution transactions without loss. */
  lemma TotalsAddUp(txs: seq<Tx>)
    ensures var sessions := Summaries(Split(Execution(txs)));
            && SumOver((r: Summary) => r.totalSol, sessions) == TotalSol(Execution(txs))
            && SumOver((r: Summary) => r.tokenTransferCount, sessions) == TokenCount(Execution(txs))
  {
    SplitCutsAtBegins(Execution(txs));
    GroupTotals(Split(Execution(txs)));
  }

  // ---- dates ----

  predicate InTime(s: seq<Tx>) {
    forall i, j :: 0 <= i < j < |s| ==> s[i].timestamp <= s[j].timestamp
  }

  /** A session is dated by its last finalizing transaction, or by its first one when none finalizes. */
  lemma {:induction false} DatedByLastFinalize(g: seq<Tx>)
    ensures LastFinalize(g).None? <==> forall i :: 0 <= i < |g| ==> !Finalizes(g[i])
    ensures LastFinalize(g).Some? ==>
              exists i :: 0 <= i < |g| && LastFinalize(g) == Some(g[i]) && Finalizes(g[i])
                          && forall j :: i < j < |g| ==> !Finalizes(g[j])
  {
    hide Finalizes;
    if g != [] && !Finalizes(g[|g| - 1]) {
      var n := |g| - 1;
      DatedByLastFinalize(g[..n]);
      if LastFinalize(g).Some? {
        var i :| 0 <= i < n && LastFinalize(g[..n]) == Some(g[..n][i]) && Finalizes(g[..n][i])
                 && forall j :: i < j < n ==> !Finalizes(g[..n][j]);
        assert g[i] == g[..n][i] && forall j :: i < j < n ==> g[j] == g[..n][j];
        assert forall j :: i < j < |g| ==> !Finalizes(g[j]);
      } else {
        assert forall i :: 0 <= i < n ==> g[..n][i] == g[i];
      }
    }
  }

  lemma {:induction false} FilterKeepsTime(s: seq<Tx>)
    requires InTime(s)
    ensures InTime(Filter(IsExecution, s))
    ensures forall t :: t in Filter(IsExecution, s) ==> t in s
  {
    hide IsExecution;
    if s != [] {
      var n := |s| - 1;
      FilterKeepsTime(s[..n]);
      assert s == s[..n] + [s[n]];
      FilterAppend(IsExecution, s[..n], s[n]);
      forall t | t in s[..n] ensures t.timestamp <= s[n].timestamp {
      }
    }
  }

  lemma ExecutionInTime(txs: seq<Tx>)
    ensures InTime(Execution(txs))
    ensures forall t :: t in Execution(txs) <==> t in txs && IsExecution(t)
  {
    var key := (t: Tx) => t.timestamp;
    SortByCorrect(key, txs);
    var sorted := SortBy(key, txs);
    assert InTime(sorted) by {
      forall i, j | 0 <= i < j < |sorted| ensures sorted[i].timestamp <= sorted[j].timestamp {
        assert key(sorted[i]) <= key(sorted[j]);
      }
    }
    FilterKeepsTime(sorted);
    assert forall t :: t in sorted <==> t in multiset(sorted);
  }

  /** A group's date lies between its first transaction's and its last one's. */
  lemma DateInGroup(g: Group)
    ensures Representative(g) in g
  {
    DatedByLastFinalize(g);
  }

  lemma {:induction false} DatesInOrder(groups: seq<Group>, i: nat, j: nat)
    requires InTime(Flatten(groups)) && i < j < |groups|
    ensures Representative(groups[i]).timestamp <= Representative(groups[j]).timestamp
  {
    var s := Flatten(groups[1..]);
    assert forall a, b :: 0 <= a < b < |s| ==> s[a] == Flatten(groups)[|groups[0]| + a] && s[b] == Flatten(groups)[|groups[0]| + b];
    if i > 0 {
      DatesInOrder(groups[1..], i - 1, j - 1);
    } else {
      DateInGroup(groups[0]);
      DateInGroup(groups[j]);
      MemberOfFlatten(groups[1..], j - 1, Representative(groups[j]));
      var a :| 0 <= a < |groups[0]| && groups[0][a] == Representative(groups[0]);
      var b :| 0 <= b < |s| && s[b] == Representative(groups[j]);
      assert Flatten(groups)[a] == groups[0][a] && Flatten(groups)[|groups[0]| + b] == s[b];
    }
  }

  lemma {:induction false} MemberOfFlatten<T>(ss: seq<seq<T>>, i: nat, x: T)
    requires i < |ss| && x in ss[i]
    ensures x in Flatten(ss)
  {
    if i > 0 {
      MemberOfFlatten(ss[1..], i - 1, x);
    }
  }

  lemma SplitFlattens(s: seq<Tx>)
    ensures Flatten(Split(s)) == s
  {
    SplitCutsAtBegins(s);
  }

  /** The answer lists the newest session first. */
  lemma NewestFirst(txs: seq<Tx>)
    ensures var r := Reverse(Summaries(Split(Execution(txs))));
            forall i, j :: 0 <= i < j < |r| ==> r[i].executedAt >= r[j].executedAt
  {
    hide Execution, Split, Representative, InTime, Reverse, LastFinalize, TotalSol, TokenCount, Flatten, CutsAtBegins;
    var groups := Split(Execution(txs));
    ExecutionInTime(txs);
    SplitFlattens(Execution(txs));
    var r := Reverse(Summaries(groups));
    forall i, j | 0 <= i < j < |r| ensures r[i].executedAt >= r[j].executedAt {
      DatesInOrder(groups, |groups| - 1 - j, |groups| - 1 - i);
    }
  }

  // ---- amounts and fields ----

  /** No transfer moves nothing; one moves its amount, unless the payer sent it or it is not positive. */
  lemma OutSolOfOne(payer: Pubkey)
    ensures OutSol(payer, []) == 0
    ensures forall x: NativeTransfer :: OutSol(payer, [x]) == if x.from == payer || x.amount <= 0 then 0 else x.amount
  {
    forall x: NativeTransfer ensures OutSol(payer, [x]) == if x.from == payer || x.amount <= 0 then 0 else x.amount {
      assert [x][..0] == [];
    }
  }

  /** The amount is what others than the payer sent: the amount of a list is the sum of the amounts of its parts. */
  lemma {:induction false} OutSolAdds(payer: Pubkey, a: seq<NativeTransfer>, b: seq<NativeTransfer>)
    ensures OutSol(payer, a + b) == OutSol(payer, a) + OutSol(payer, b)
  {
    hide OutSol;
    if b == [] {
      assert a + b == a;
      OutSolOfOne(payer);
    } else {
      OutSolAdds(payer, a, b[..|b| - 1]);
      OutSolLast(payer, b);
      OutSolLast(payer, a + b);
      assert (a + b)[..|a + b| - 1] == a + b[..|b| - 1];
    }
  }

  lemma OutSolLast(payer: Pubkey, ts: seq<NativeTransfer>)
    requires ts != []
    ensures var last := ts[|ts| - 1];
            OutSol(payer, ts) == OutSol(payer, ts[..|ts| - 1]) + if last.from == payer || last.amount <= 0 then 0 else last.amount
  {
  }

  /** The token shown is the first one that moved. */
  lemma {:induction false} FirstTokenIsFirst(ts: seq<TokenTransfer>)
    ensures FirstToken(ts).Some? ==>
              exists k :: 0 <= k < |ts| && FirstToken(ts) == Some(ts[k]) && forall i :: 0 <= i < k ==> ts[i].amount <= 0
  {
    if ts != [] && ts[0].amount <= 0 {
      FirstTokenIsFirst(ts[1..]);
      if FirstToken(ts).Some? {
        var k :| 0 <= k < |ts[1..]| && FirstToken(ts[1..]) == Some(ts[1..][k]) && forall i :: 0 <= i < k ==> ts[1..][i].amount <= 0;
        assert ts[k + 1] == ts[1..][k];
        assert forall i :: 0 < i < k + 1 ==> ts[i] == ts[1..][i - 1];
      }
    }
  }

  /** A step tells of its own transaction: what it was, when, what SOL left in all, and the first token that moved. */
  lemma StepTells(t: Tx)
    requires IsExecution(t)
    ensures var step := StepOf(t);
            && step.signature == t.signature && step.timestamp == t.timestamp
            && step.kind in t.kinds && !step.kind.Other?
            && (step.sol.None? ==> OutSol(t.feePayer, t.native) == 0)
            && (step.sol.Some? ==> step.sol.value == OutSol(t.feePayer, t.native) > 0)
            && (step.token.None? <==> forall i :: 0 <= i < |t.tokens| ==> t.tokens[i].amount <= 0)
            && (step.token.Some? ==> step.token.value in t.tokens && step.token.value.amount > 0)
  {
    ExecutionShownAsExecution(t);
    FirstTokenIsFirst(t.tokens);
  }

  /** A session lists its transactions in order and carries date and signature of one of them: the last finalize, or else the first. */
  lemma SummaryTells(g: Group)
    ensures var r := Summarize(g);
            && |r.steps| == |g| && (forall i :: 0 <= i < |g| ==> r.steps[i] == StepOf(g[i]))
            && (exists i :: 0 <= i < |g| && r.executedAt == g[i].timestamp && r.signature == g[i].signature
                            && (if Finalizes(g[i]) then forall j :: i < j < |g| ==> !Finalizes(g[j])
                                else i == 0 && forall j :: 0 <= j < |g| ==> !Finalizes(g[j])))
  {
    hide Finalizes, StepOf, TotalSol, TokenCount;
    DatedByLastFinalize(g);
    if LastFinalize(g).None? {
      assert Representative(g) == g[0];
    }
  }
}
