/** One poll cycle: up to four workers that share an index into the list of registrations. */
module PollCycle {
  import opened Prelude
  import opened Watcher
  import R = Readiness

  const POLL_CONCURRENCY := 4

  /** How an item ended for its worker; running out of its budget is the action `TimedOut`. */
  datatype Outcome = Returned(action: Action) | Threw

  predicate Fails(o: Outcome) {
    o.Threw? || IsReadFailure(o.action)
  }

  predicate Sends(o: Outcome) {
    o.Returned? && o.action.Sent?
  }

  /** `busy` maps a worker to the item it waits for; `ended` records how each finished item ended. */
  datatype Pool = Pool(idx: nat, sent: nat, readErrors: nat, busy: map<nat, nat>, ended: map<nat, Outcome>)

  const FRESH := Pool(0, 0, 0, map[], map[])

  /** A worker takes the next item, or the awaited item of a worker ends. */
  datatype Turn = Take(worker: nat) | End(worker: nat, outcome: Outcome)

  predicate Possible(n: nat, p: Pool, t: Turn) {
    match t
    case Take(k) => k < Min(POLL_CONCURRENCY, n) && k !in p.busy && p.idx < n
    case End(k, _) => k in p.busy
  }

  function Turned(n: nat, p: Pool, t: Turn): Pool
    requires Possible(n, p, t)
  {
    match t
    case Take(k) => p.(idx := p.idx + 1, busy := p.busy[k := p.idx])
    case End(k, o) =>
      Pool(p.idx, p.sent + (if Sends(o) then 1 else 0), p.readErrors + (if Fails(o) then 1 else 0),
           p.busy - {k}, p.ended[p.busy[k] := o])
  }

  /** Every worker has left its loop. */
  predicate Over(n: nat, p: Pool) {
    p.idx >= n && p.busy == map[]
  }

  // ---- the shared variables in their own form ----

  class Cycle {
    const n: nat
    var idx: nat
    var sent: nat
    var readErrors: nat
    var busy: map<nat, nat>
    var ended: map<nat, Outcome>

    ghost function Now(): Pool
      reads this
    {
      Pool(idx, sent, readErrors, busy, ended)
    }

    constructor (n: nat)
      ensures this.n == n && Now() == FRESH
    {
      this.n := n;
      idx, sent, readErrors, busy, ended := 0, 0, 0, map[], map[];
    }

    /** The head of the worker's loop, up to its await. */
    method TakeNext(worker: nat)
      requires Possible(n, Now(), Take(worker))
      modifies this
      ensures Now() == Turned(n, old(Now()), Take(worker))
      ensures Consistent(n, old(Now())) ==> Consistent(n, Now())
    {
      ghost var before := Now();
      if Consistent(n, before) {
        TurnKeepsConsistent(n, before, Take(worker));
      }
      busy := busy[worker := idx];
      idx := idx + 1;
    }

    /** The rest of the loop's body, once the item has answered, thrown or run out of its budget. */
    method Settle(worker: nat, outcome: Outcome)
      requires Possible(n, Now(), End(worker, outcome))
      modifies this
      ensures Now() == Turned(n, old(Now()), End(worker, outcome))
      ensures Consistent(n, old(Now())) ==> Consistent(n, Now())
    {
      ghost var before := Now();
      if Consistent(n, before) {
        TurnKeepsConsistent(n, before, End(worker, outcome));
      }
      match outcome {
        case Threw =>
          readErrors := readErrors + 1;
        case Returned(action) =>
          if IsReadFailure(action) {
            readErrors := readErrors + 1;
          }
          if action.Sent? {
            sent := sent + 1;
          }
      }
      ended := ended[busy[worker] := outcome];
      busy := busy - {worker};
    }
  }

  // ---- every schedule ----

  ghost predicate IsSchedule(n: nat, turns: seq<Turn>, pools: seq<Pool>) {
    && |pools| == |turns| + 1 && pools[0] == FRESH
    && forall i :: 0 <= i < |turns| ==> Possible(n, pools[i], turns[i]) && pools[i + 1] == Turned(n, pools[i], turns[i])
  }

  /** The numbers below n. */
  function UpTo(n: nat): (r: set<nat>)
    ensures |r| == n && forall i: nat :: i in r <==> i < n
  {
    if n == 0 then {} else UpTo(n - 1) + {n - 1}
  }

  function Items(p: Outcome -> bool, ended: map<nat, Outcome>): set<nat> {
    set i | i in ended && p(ended[i])
  }

  function FailedItems(ended: map<nat, Outcome>): set<nat> {
    Items(Fails, ended)
  }

  function SentItems(ended: map<nat, Outcome>): set<nat> {
    Items(Sends, ended)
  }

  /** Items taken are in flight with exactly one worker or ended; the counters count ended items. */
  ghost predicate Consistent(n: nat, p: Pool) {
    && p.idx <= n
    && (forall k :: k in p.busy ==> k < Min(POLL_CONCURRENCY, n))
    && (forall a, b :: a in p.busy && b in p.busy && a != b ==> p.busy[a] != p.busy[b])
    && (forall i: nat :: i < p.idx <==> i in p.ended || i in p.busy.Values)
    && p.busy.Values !! p.ended.Keys
    && p.readErrors == |FailedItems(p.ended)| && p.sent == |SentItems(p.ended)|
  }

  lemma ValuesAfterTake(busy: map<nat, nat>, k: nat, item: nat)
    requires k !in busy
    ensures busy[k := item].Values == busy.Values + {item}
  {
    assert busy[k := item][k] == item;
    forall v | v in busy.Values ensures v in busy[k := item].Values {
      var a :| a in busy && busy[a] == v;
      assert busy[k := item][a] == v;
    }
  }

  lemma ValuesAfterEnd(busy: map<nat, nat>, k: nat)
    requires k in busy && forall a, b :: a in busy && b in busy && a != b ==> busy[a] != busy[b]
    ensures (busy - {k}).Values == busy.Values - {busy[k]}
  {
    forall v | v in busy.Values && v != busy[k] ensures v in (busy - {k}).Values {
      var a :| a in busy && busy[a] == v;
      assert (busy - {k})[a] == v;
    }
  }

  lemma CountAfterEnd(p: Outcome -> bool, ended: map<nat, Outcome>, item: nat, o: Outcome)
    requires item !in ended
    ensures |Items(p, ended[item := o])| == |Items(p, ended)| + if p(o) then 1 else 0
  {
    assert Items(p, ended[item := o]) == if p(o) then Items(p, ended) + {item} else Items(p, ended);
  }

  lemma TurnKeepsConsistent(n: nat, p: Pool, t: Turn)
    requires Consistent(n, p) && Possible(n, p, t)
    ensures Consistent(n, Turned(n, p, t))
  {
    hide Items, Fails, Sends;
    match t
    case Take(k) =>
      ValuesAfterTake(p.busy, k, p.idx);
    case End(k, o) =>
      assert p.busy[k] in p.busy.Values;
      ValuesAfterEnd(p.busy, k);
      CountAfterEnd(Fails, p.ended, p.busy[k], o);
      CountAfterEnd(Sends, p.ended, p.busy[k], o);
  }

  lemma {:induction false} ScheduleConsistent(n: nat, turns: seq<Turn>, pools: seq<Pool>)
    requires IsSchedule(n, turns, pools)
    ensures Consistent(n, pools[|turns|])
  {
    if turns != [] {
      var m := |turns| - 1;
      ScheduleConsistent(n, turns[..m], pools[..m + 1]);
      TurnKeepsConsistent(n, pools[m], turns[m]);
    }
  }

  /** The item threw, or its vault was not read for one of five reasons. */
  predicate Broke(o: Outcome) {
    match o
    case Threw => true
    case Returned(a) => a.NetUnverified? || a.ReadError? || a.TimedOut? || a.ProgramUnready? || a.NoHeartbeat?
  }

  lemma FailingItemsBroke(ended: map<nat, Outcome>)
    ensures FailedItems(ended) == set i | i in ended && Broke(ended[i])
    ensures SentItems(ended) == set i | i in ended && ended[i].Returned? && ended[i].action.Sent?
    ensures FailedItems(ended) + SentItems(ended) <= ended.Keys && FailedItems(ended) !! SentItems(ended)
  {
  }

  /**
   * Main result: under every schedule of the workers, a cycle that is over has ended each registration, its
   * counters are the numbers of failed and of sent ones, and it never had more than four in flight.
   */
  lemma EveryItemEndsOnce(n: nat, turns: seq<Turn>, pools: seq<Pool>)
    requires IsSchedule(n, turns, pools) && Over(n, pools[|turns|])
    ensures var p := pools[|turns|];
            && p.ended.Keys == UpTo(n) && |p.ended| == n
            && p.readErrors == |set i | i in p.ended && Broke(p.ended[i])|
            && p.sent == |set i | i in p.ended && p.ended[i].Returned? && p.ended[i].action.Sent?|
            && p.readErrors + p.sent <= n
    ensures forall i :: 0 <= i <= |turns| ==> |pools[i].busy| <= 4
  {
    hide FailedItems, SentItems, Broke;
    ScheduleConsistent(n, turns, pools);
    var p := pools[|turns|];
    FailingItemsBroke(p.ended);
    assert forall i: nat :: i < n <==> i in p.ended;
    assert p.ended.Keys == UpTo(n);
    SubsetSize(FailedItems(p.ended) + SentItems(p.ended), p.ended.Keys);
    forall i | 0 <= i <= |turns| ensures |pools[i].busy| <= POLL_CONCURRENCY {
      ScheduleConsistent(n, turns[..i], pools[..i + 1]);
      var busy := pools[i].busy;
      assert |busy| == |busy.Keys|;
      SubsetSize(busy.Keys, UpTo(POLL_CONCURRENCY));
    }
  }

  lemma {:induction false} SubsetSize<T>(a: set<T>, b: set<T>)
    requires a <= b
    ensures |a| <= |b|
  {
    if a != {} {
      var x :| x in a;
      SubsetSize(a - {x}, b - {x});
    }
  }

  /** No schedule gets stuck, and each takes exactly two turns per registration. */
  lemma {:induction false} CyclesEnd(n: nat, turns: seq<Turn>, pools: seq<Pool>)
    requires IsSchedule(n, turns, pools)
    ensures var p := pools[|turns|];
            && |turns| == p.idx + |p.ended| <= 2 * n
            && (Over(n, p) <==> |turns| == 2 * n)
            && (!Over(n, p) ==> exists t :: Possible(n, p, t))
  {
    TurnsCounted(n, turns, pools);
    ScheduleConsistent(n, turns, pools);
    var p := pools[|turns|];
    assert p.ended.Keys <= UpTo(p.idx);
    SubsetSize(p.ended.Keys, UpTo(p.idx));
    if Over(n, p) {
      EveryItemEndsOnce(n, turns, pools);
    } else if p.busy != map[] {
      var k :| k in p.busy;
      assert Possible(n, p, End(k, Threw));
      ProperSubsetSize(p.ended.Keys, UpTo(p.idx), p.busy[k]);
    } else {
      assert Possible(n, p, Take(0));
    }
  }

  lemma ProperSubsetSize<T>(a: set<T>, b: set<T>, x: T)
    requires a <= b && x in b && x !in a
    ensures |a| < |b|
  {
    SubsetSize(a, b - {x});
  }

  lemma {:induction false} TurnsCounted(n: nat, turns: seq<Turn>, pools: seq<Pool>)
    requires IsSchedule(n, turns, pools)
    ensures |turns| == pools[|turns|].idx + |pools[|turns|].ended|
  {
    if turns != [] {
      var m := |turns| - 1;
      TurnsCounted(n, turns[..m], pools[..m + 1]);
      ScheduleConsistent(n, turns[..m], pools[..m + 1]);
      if turns[m].End? {
        var item := pools[m].busy[turns[m].worker];
        assert item in pools[m].busy.Values;
        assert pools[m + 1].ended.Keys == pools[m].ended.Keys + {item};
      }
    }
  }

  // ---- what the cycle's numbers decide ----

  /** The quotient of the code, cross-multiplied. */
  lemma HealthyMeans(n: nat, errors: nat, maxRatio: real, maxAbs: int)
    requires n > 0
    ensures R.IsPollCycleHealthy(R.Reads(n, errors), maxRatio, maxAbs) <==>
              errors as real <= maxRatio * n as real && errors <= maxAbs && errors < n
  {
    var x := errors as real / n as real;
    assert x * n as real == errors as real;
    assert (maxRatio - x) * n as real == maxRatio * n as real - errors as real;
    assert maxRatio - x >= 0.0 <==> (maxRatio - x) * n as real >= 0.0;
  }

  /**
   * Whatever the bounds, a cycle that read nothing is unhealthy, and one without failures is healthy when the
   * bounds are not negative; with the defaults one failure needs 20 registrations, two need 40, three are too many.
   */
  lemma HealthyCycles(n: nat, turns: seq<Turn>, pools: seq<Pool>, maxRatio: real, maxAbs: int)
    requires IsSchedule(n, turns, pools) && Over(n, pools[|turns|]) && n > 0
    ensures var p := pools[|turns|];
            var healthy := R.IsPollCycleHealthy(R.Reads(n, p.readErrors), maxRatio, maxAbs);
            && ((forall i: nat :: i < n ==> i in p.ended && Fails(p.ended[i])) ==> !healthy)
            && ((forall i: nat :: i < n ==> i in p.ended && !Fails(p.ended[i])) && maxRatio >= 0.0 && maxAbs >= 0 ==> healthy)
            && (maxRatio == 0.05 && maxAbs == 2 ==> (healthy <==> p.readErrors <= 2 && 20 * p.readErrors <= n))
  {
    hide Over, R.IsPollCycleHealthy, Items, Turned, Possible;
    EveryItemEndsOnce(n, turns, pools);
    FailingItemsBroke(pools[|turns|].ended);
    AllOrNothing(n, pools[|turns|].ended);
    HealthyBounds(n, pools[|turns|].readErrors, maxRatio, maxAbs);
  }

  lemma HealthyBounds(n: nat, errors: nat, maxRatio: real, maxAbs: int)
    requires n > 0
    ensures var healthy := R.IsPollCycleHealthy(R.Reads(n, errors), maxRatio, maxAbs);
            && (errors == n ==> !healthy)
            && (errors == 0 && maxRatio >= 0.0 && maxAbs >= 0 ==> healthy)
            && (maxRatio == 0.05 && maxAbs == 2 ==> (healthy <==> errors <= 2 && 20 * errors <= n))
  {
    hide R.IsPollCycleHealthy;
    HealthyMeans(n, errors, maxRatio, maxAbs);
    NonNegativeProduct(maxRatio, n);
  }

  lemma AllOrNothing(n: nat, ended: map<nat, Outcome>)
    requires ended.Keys == UpTo(n)
    ensures (forall i: nat :: i < n ==> i in ended && Fails(ended[i])) ==> |FailedItems(ended)| == n
    ensures (forall i: nat :: i < n ==> i in ended && !Fails(ended[i])) ==> |FailedItems(ended)| == 0
  {
    hide Fails;
    if forall i: nat :: i < n ==> i in ended && Fails(ended[i]) {
      assert FailedItems(ended) == ended.Keys;
    }
    if forall i: nat :: i < n ==> i in ended && !Fails(ended[i]) {
      assert FailedItems(ended) == {};
    }
  }

  lemma NonNegativeProduct(q: real, n: nat)
    ensures q >= 0.0 ==> q * n as real >= 0.0
  {
  }
}
