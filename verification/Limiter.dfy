/** The fixed-window rate limiter of the write endpoints. Times are milliseconds. */
module Limiter {
  import opened Prelude

  const IP_WINDOW_MS := 60_000
  const IP_MAX := 30
  const FACET_WINDOW_MS := 600_000
  const OWNER_MAX := 10
  const VAULT_MAX := 10
  const TOKEN_MAX := 6
  const MAP_CAP := 50_000

  datatype Bucket = Bucket(count: nat, resetAt: int)
  datatype Verdict = Verdict(ok: bool, retryAfter: int)
  type Buckets = map<string, Bucket>

  function CeilDiv1000(n: int): int {
    -((-n) / 1000)
  }

  /** Expired entries go; nothing else does. */
  function Prune(m: Buckets, t: int): Buckets {
    map k | k in m && t < m[k].resetAt :: m[k]
  }

  function Current(m: Buckets, key: string, windowMs: int, t: int): Bucket {
    if key !in m || t >= m[key].resetAt then Bucket(0, t + windowMs) else m[key]
  }

  function AfterHit(m: Buckets, key: string, windowMs: int, t: int): Buckets {
    var m := if |m| > MAP_CAP then Prune(m, t) else m;
    var b := Current(m, key, windowMs, t);
    m[key := b.(count := b.count + 1)]
  }

  function Judge(b: Bucket, max: nat, t: int): Verdict {
    if b.count + 1 > max then Verdict(false, Max(1, CeilDiv1000(b.resetAt - t))) else Verdict(true, 0)
  }

  function HitVerdict(m: Buckets, key: string, max: nat, windowMs: int, t: int): Verdict {
    Judge(Current(m, key, windowMs, t), max, t)
  }

  // ---- the object ----

  datatype Facets = Facets(owner: Option<string>, vault: Option<string>, tokenHash: Option<string>)
  datatype Maps = Maps(ip: Buckets, owner: Buckets, vault: Buckets, token: Buckets, adminIp: Buckets)

  /** Owner, then vault, then token hash; the first refusal ends the check, and what was charged stays charged. */
  function FacetsChecked(s: Maps, f: Facets, t: int): (r: (Maps, Verdict)) {
    var s1 := if f.owner.Some? then s.(owner := AfterHit(s.owner, f.owner.value, FACET_WINDOW_MS, t)) else s;
    var v1 := if f.owner.Some? then HitVerdict(s.owner, f.owner.value, OWNER_MAX, FACET_WINDOW_MS, t) else Verdict(true, 0);
    if !v1.ok then (s1, v1)
    else
      var s2 := if f.vault.Some? then s1.(vault := AfterHit(s.vault, f.vault.value, FACET_WINDOW_MS, t)) else s1;
      var v2 := if f.vault.Some? then HitVerdict(s.vault, f.vault.value, VAULT_MAX, FACET_WINDOW_MS, t) else Verdict(true, 0);
      if !v2.ok || f.tokenHash.None? then (s2, v2)
      else
        (s2.(token := AfterHit(s.token, f.tokenHash.value, FACET_WINDOW_MS, t)),
         HitVerdict(s.token, f.tokenHash.value, TOKEN_MAX, FACET_WINDOW_MS, t))
  }

  function IpChecked(s: Maps, key: string, t: int): (Maps, Verdict) {
    (s.(ip := AfterHit(s.ip, key, IP_WINDOW_MS, t)), HitVerdict(s.ip, key, IP_MAX, IP_WINDOW_MS, t))
  }

  class WriteRateLimiter {
    var maps: Maps

    constructor ()
      ensures maps == Maps(map[], map[], map[], map[], map[])
    {
      maps := Maps(map[], map[], map[], map[], map[]);
    }

    /** The deletion loop over one map. */
    static method PruneMap(m: Buckets, t: int) returns (r: Buckets)
      ensures r == Prune(m, t)
    {
      r := m;
      var left := m.Keys;
      while left != {}
        invariant left <= m.Keys
        invariant r == map k | k in m && (k in left || t < m[k].resetAt) :: m[k]
        decreases |left|
      {
        var k :| k in left;
        if t >= m[k].resetAt {
          r := r - {k};
        }
        left := left - {k};
      }
    }

    static method Hit(m: Buckets, key: string, max: nat, windowMs: int, t: int) returns (r: Buckets, v: Verdict)
      ensures r == AfterHit(m, key, windowMs, t)
      ensures v == HitVerdict(m, key, max, windowMs, t)
    {
      r := m;
      if |r| > MAP_CAP {
        r := PruneMap(r, t);
      }
      if key !in r || t >= r[key].resetAt {
        r := r[key := Bucket(0, t + windowMs)];
      }
      r := r[key := r[key].(count := r[key].count + 1)];
      var b := r[key];
      v := if b.count > max then Verdict(false, Max(1, CeilDiv1000(b.resetAt - t))) else Verdict(true, 0);
    }

    method CheckIp(key: string, t: int) returns (v: Verdict)
      modifies this
      ensures (maps, v) == IpChecked(old(maps), key, t)
    {
      var m;
      m, v := Hit(maps.ip, key, IP_MAX, IP_WINDOW_MS, t);
      maps := maps.(ip := m);
    }

    method CheckFacets(f: Facets, t: int) returns (v: Verdict)
      modifies this
      ensures (maps, v) == FacetsChecked(old(maps), f, t)
    {
      var m;
      if f.owner.Some? {
        m, v := Hit(maps.owner, f.owner.value, OWNER_MAX, FACET_WINDOW_MS, t);
        maps := maps.(owner := m);
        if !v.ok { return; }
      }
      if f.vault.Some? {
        m, v := Hit(maps.vault, f.vault.value, VAULT_MAX, FACET_WINDOW_MS, t);
        maps := maps.(vault := m);
        if !v.ok { return; }
      }
      if f.tokenHash.Some? {
        m, v := Hit(maps.token, f.tokenHash.value, TOKEN_MAX, FACET_WINDOW_MS, t);
        maps := maps.(token := m);
        return;
      }
      v := Verdict(true, 0);
    }

    method Sweep(t: int)
      modifies this
      ensures maps == Maps(Prune(old(maps).ip, t), Prune(old(maps).owner, t), Prune(old(maps).vault, t),
                           Prune(old(maps).token, t), Prune(old(maps).adminIp, t))
    {
      var ip := PruneMap(maps.ip, t);
      var owner := PruneMap(maps.owner, t);
      var vault := PruneMap(maps.vault, t);
      var token := PruneMap(maps.token, t);
      var adminIp := PruneMap(maps.adminIp, t);
      maps := Maps(ip, owner, vault, token, adminIp);
    }
  }

  // ---- runs over one map ----

  datatype Call = Hit(t: int, key: string) | Sweep(t: int)

  ghost predicate Ordered(calls: seq<Call>) {
    forall i, j :: 0 <= i < j < |calls| ==> calls[i].t <= calls[j].t
  }

  function After(m: Buckets, c: Call, windowMs: int): Buckets {
    match c
    case Hit(t, key) => AfterHit(m, key, windowMs, t)
    case Sweep(t) => Prune(m, t)
  }

  /** The answers to the hits of a run. */
  function Answers(m: Buckets, calls: seq<Call>, max: nat, windowMs: int): seq<Verdict>
    decreases |calls|
  {
    if calls == [] then []
    else
      (if calls[0].Hit? then [HitVerdict(m, calls[0].key, max, windowMs, calls[0].t)] else [])
      + Answers(After(m, calls[0], windowMs), calls[1..], max, windowMs)
  }

  function HitsOf(calls: seq<Call>): seq<Call> {
    if calls == [] then [] else (if calls[0].Hit? then [calls[0]] else []) + HitsOf(calls[1..])
  }

  /** From time t on, the two maps cannot be told apart: they have the same unexpired buckets. */
  ghost predicate Alike(m: Buckets, n: Buckets, t: int) {
    forall k :: (k in m && t < m[k].resetAt) || (k in n && t < n[k].resetAt) ==> k in m && k in n && m[k] == n[k]
  }

  lemma AlikeAfterHit(m: Buckets, n: Buckets, key: string, windowMs: int, t0: int, t: int)
    requires Alike(m, n, t0) && t0 <= t
    ensures Current(m, key, windowMs, t) == Current(n, key, windowMs, t)
    ensures Alike(AfterHit(m, key, windowMs, t), AfterHit(n, key, windowMs, t), t)
  {
  }

  lemma {:induction false} AlikeAnswers(m: Buckets, n: Buckets, calls: seq<Call>, max: nat, windowMs: int, t0: int)
    requires Ordered(calls) && Alike(m, n, t0) && (calls != [] ==> t0 <= calls[0].t)
    ensures Answers(m, calls, max, windowMs) == Answers(n, HitsOf(calls), max, windowMs)
    decreases |calls|
  {
    if calls != [] {
      var c := calls[0];
      if c.Hit? {
        AlikeAfterHit(m, n, c.key, windowMs, t0, c.t);
        AlikeAnswers(After(m, c, windowMs), After(n, c, windowMs), calls[1..], max, windowMs, c.t);
        assert HitsOf(calls) == [c] + HitsOf(calls[1..]);
      } else {
        AlikeAnswers(After(m, c, windowMs), n, calls[1..], max, windowMs, c.t);
        assert HitsOf(calls) == HitsOf(calls[1..]);
        assert Answers(m, calls, max, windowMs) == Answers(After(m, c, windowMs), calls[1..], max, windowMs);
      }
    }
  }

  /** Sweeps are invisible: two runs with the same hits, with sweeps anywhere, give the same answers. */
  lemma SweepsChangeNoAnswer(m: Buckets, calls: seq<Call>, others: seq<Call>, max: nat, windowMs: int)
    requires Ordered(calls) && Ordered(others) && HitsOf(calls) == HitsOf(others)
    ensures Answers(m, calls, max, windowMs) == Answers(m, others, max, windowMs)
  {
    AlikeAnswers(m, m, calls, max, windowMs, if calls == [] then 0 else calls[0].t);
    AlikeAnswers(m, m, others, max, windowMs, if others == [] then 0 else others[0].t);
  }

  // ---- how much one key gets ----

  /** The accepted hits of one key with a time in [lo, hi). */
  function Accepted(m: Buckets, calls: seq<Call>, key: string, max: nat, windowMs: int, lo: int, hi: int): nat
    decreases |calls|
  {
    if calls == [] then 0
    else
      var c := calls[0];
      (if c.Hit? && c.key == key && lo <= c.t < hi && HitVerdict(m, key, max, windowMs, c.t).ok then 1 else 0)
      + Accepted(After(m, c, windowMs), calls[1..], key, max, windowMs, lo, hi)
  }

  /** What a key without a live bucket can still get in [lo, hi) from time t on. */
  function FreshBudget(max: nat, t: int, lo: int, hi: int): int {
    if t >= hi then 0 else if t >= lo then max else Max(max, 2 * max - 1)
  }

  /** The same with the bucket the key has. */
  function Budget(m: Buckets, key: string, max: nat, t: int, lo: int, hi: int): int {
    if key !in m || t >= m[key].resetAt then FreshBudget(max, t, lo, hi)
    else (if m[key].resetAt <= lo || t >= hi then 0 else Max(0, max - m[key].count))
         + FreshBudget(max, m[key].resetAt, lo, hi)
  }

  lemma BudgetSpent(m: Buckets, c: Call, key: string, max: nat, windowMs: int, t0: int, lo: int, hi: int)
    requires t0 <= c.t && 0 < windowMs && hi <= lo + windowMs
    ensures (if c.Hit? && c.key == key && lo <= c.t < hi && HitVerdict(m, key, max, windowMs, c.t).ok then 1 else 0)
            + Budget(After(m, c, windowMs), key, max, c.t, lo, hi)
            <= Budget(m, key, max, t0, lo, hi)
  {
  }

  lemma {:induction false} AcceptedWithinBudget(m: Buckets, calls: seq<Call>, key: string, max: nat, windowMs: int, t0: int, lo: int, hi: int)
    requires Ordered(calls) && (calls != [] ==> t0 <= calls[0].t) && 0 < windowMs && hi <= lo + windowMs
    ensures Accepted(m, calls, key, max, windowMs, lo, hi) <= Max(0, Budget(m, key, max, t0, lo, hi))
    decreases |calls|
  {
    if calls != [] {
      BudgetSpent(m, calls[0], key, max, windowMs, t0, lo, hi);
      AcceptedWithinBudget(After(m, calls[0], windowMs), calls[1..], key, max, windowMs, calls[0].t, lo, hi);
    }
  }

  /**
   * From an empty limiter, whatever other keys do and however often it is swept, a key is accepted fewer than
   * 2 * max times in any interval of the window's length.
   */
  lemma TwiceMaxPerInterval(calls: seq<Call>, key: string, max: nat, windowMs: int, lo: int)
    requires Ordered(calls) && 0 < windowMs && 0 < max
    ensures Accepted(map[], calls, key, max, windowMs, lo, lo + windowMs) < 2 * max
  {
    AcceptedWithinBudget(map[], calls, key, max, windowMs, if calls == [] then 0 else calls[0].t, lo, lo + windowMs);
  }

  /** n hits of one key at one instant. */
  function Burst(n: nat, t: int, key: string): (r: seq<Call>)
    ensures |r| == n && forall i :: 0 <= i < n ==> r[i] == Hit(t, key)
  {
    seq(n, _ => Hit(t, key))
  }

  /** One more hit at the front of the calls, on a map that holds at most the key's own bucket. */
  lemma HitCounted(m: Buckets, t: int, key: string, rest: seq<Call>, max: nat, windowMs: int, lo: int, hi: int)
    requires m.Keys <= {key} && Current(m, key, windowMs, t).count < max
    ensures var b := Current(m, key, windowMs, t);
            Accepted(m, [Hit(t, key)] + rest, key, max, windowMs, lo, hi)
            == (if lo <= t < hi then 1 else 0)
               + Accepted(map[key := b.(count := b.count + 1)], rest, key, max, windowMs, lo, hi)
  {
    var calls := [Hit(t, key)] + rest;
    assert calls[0] == Hit(t, key) && calls[1..] == rest;
    AtMostOne(m, key);
    var b := Current(m, key, windowMs, t);
    assert AfterHit(m, key, windowMs, t) == map[key := b.(count := b.count + 1)];
  }

  lemma AtMostOne(m: Buckets, key: string)
    requires m.Keys <= {key}
    ensures |m| <= 1
  {
    assert m.Keys == {} || m.Keys == {key};
    assert |m| == |m.Keys|;
  }

  /** A burst that the live bucket has room for is accepted as a whole. */
  lemma {:induction false} BurstAccepted(
      n: nat, t: int, key: string, b: Bucket, rest: seq<Call>, max: nat, windowMs: int, lo: int, hi: int)
    requires b.count + n <= max && t < b.resetAt && lo <= t < hi
    ensures Accepted(map[key := b], Burst(n, t, key) + rest, key, max, windowMs, lo, hi)
            == n + Accepted(map[key := b.(count := b.count + n)], rest, key, max, windowMs, lo, hi)
  {
    hide Accepted;
    if n == 0 {
      assert Burst(n, t, key) + rest == rest;
    } else {
      var tail := Burst(n - 1, t, key) + rest;
      assert Burst(n, t, key) + rest == [Hit(t, key)] + tail;
      HitCounted(map[key := b], t, key, tail, max, windowMs, lo, hi);
      BurstAccepted(n - 1, t, key, b.(count := b.count + 1), rest, max, windowMs, lo, hi);
    }
  }

  /** A first hit, the rest of the allowance at the end of its window, a whole allowance at the start of the next. */
  function Straddle(max: nat, windowMs: int, key: string): seq<Call>
    requires 0 < max
  {
    [Hit(0, key)] + (Burst(max - 1, windowMs - 1, key) + ([Hit(windowMs, key)] + (Burst(max - 1, windowMs, key) + [])))
  }

  /** The bound is the least one, for every limit and every window. */
  lemma TwiceMaxIsReached(max: nat, windowMs: int, key: string)
    requires 0 < max && 1 < windowMs
    ensures Ordered(Straddle(max, windowMs, key))
    ensures Accepted(map[], Straddle(max, windowMs, key), key, max, windowMs, windowMs - 1, 2 * windowMs - 1) == 2 * max - 1
  {
    var lo, hi := windowMs - 1, 2 * windowMs - 1;
    NoneLeft(map[key := Bucket(max, 2 * windowMs)], key, max, windowMs, lo, hi);
    hide Accepted;
    var second := Burst(max - 1, windowMs, key) + [];
    var middle := [Hit(windowMs, key)] + second;
    HitCounted(map[], 0, key, Burst(max - 1, windowMs - 1, key) + middle, max, windowMs, lo, hi);
    BurstAccepted(max - 1, windowMs - 1, key, Bucket(1, windowMs), middle, max, windowMs, lo, hi);
    HitCounted(map[key := Bucket(max, windowMs)], windowMs, key, second, max, windowMs, lo, hi);
    BurstAccepted(max - 1, windowMs, key, Bucket(1, 2 * windowMs), [], max, windowMs, lo, hi);
  }

  lemma NoneLeft(m: Buckets, key: string, max: nat, windowMs: int, lo: int, hi: int)
    ensures Accepted(m, [], key, max, windowMs, lo, hi) == 0
  {
  }

  /** In the window of one bucket, which opens when the key has no live one, a key is accepted at most max times. */
  lemma MaxPerBucketWindow(m: Buckets, calls: seq<Call>, key: string, max: nat, windowMs: int, start: int)
    requires Ordered(calls) && (calls != [] ==> start <= calls[0].t) && 0 < windowMs
    requires key !in m || start >= m[key].resetAt
    ensures Accepted(m, calls, key, max, windowMs, start, start + windowMs) <= max
  {
    AcceptedWithinBudget(m, calls, key, max, windowMs, start, start, start + windowMs);
  }

  /** A refused caller that waits the advertised seconds is in a new window and is accepted. */
  lemma RetryAfterOutlivesWindow(m: Buckets, key: string, max: nat, windowMs: int, t: int, later: int)
    requires 0 < windowMs && 0 < max
    requires !HitVerdict(m, key, max, windowMs, t).ok
    requires later >= t + 1000 * HitVerdict(m, key, max, windowMs, t).retryAfter
    ensures later >= AfterHit(m, key, windowMs, t)[key].resetAt
    ensures HitVerdict(AfterHit(m, key, windowMs, t), key, max, windowMs, later).ok
  {
    var b := Current(m, key, windowMs, t);
    assert 1000 * CeilDiv1000(b.resetAt - t) >= b.resetAt - t;
  }

  // ---- the five limits ----

  /** A key that has used up its window. */
  predicate Exhausted(m: Buckets, key: string, max: nat, t: int) {
    key in m && t < m[key].resetAt && m[key].count >= max
  }

  /** One hit on the key: its live bucket counts one more, or a bucket of the window's length opens; nothing else live changes. */
  ghost predicate Charged(m: Buckets, n: Buckets, key: string, windowMs: int, t: int) {
    && key in n
    && (if key in m && t < m[key].resetAt then n[key] == Bucket(m[key].count + 1, m[key].resetAt)
        else n[key] == Bucket(1, t + windowMs))
    && (forall k :: k in n && k != key ==> k in m && n[k] == m[k])
    && (forall k :: k in m && k != key && t < m[k].resetAt ==> k in n && n[k] == m[k])
  }

  /** The advice is the remaining time in whole seconds, rounded up, and at least one. */
  predicate Advises(v: Verdict, leftMs: int) {
    v.retryAfter >= 1 && 1000 * v.retryAfter >= leftMs && (v.retryAfter > 1 ==> 1000 * (v.retryAfter - 1) < leftMs)
  }

  lemma HitCharges(m: Buckets, key: string, max: nat, windowMs: int, t: int)
    requires max > 0
    ensures Charged(m, AfterHit(m, key, windowMs, t), key, windowMs, t)
    ensures HitVerdict(m, key, max, windowMs, t).ok <==> !Exhausted(m, key, max, t)
    ensures Exhausted(m, key, max, t) ==> Advises(HitVerdict(m, key, max, windowMs, t), m[key].resetAt - t)
  {
  }

  /** 30 requests of an address a minute, counted by themselves. */
  lemma AddressLimit(s: Maps, key: string, t: int)
    ensures var (after, v) := IpChecked(s, key, t);
            && (v.ok <==> !Exhausted(s.ip, key, 30, t)) && (!v.ok ==> Advises(v, s.ip[key].resetAt - t))
            && Charged(s.ip, after.ip, key, 60_000, t)
            && after.owner == s.owner && after.vault == s.vault && after.token == s.token && after.adminIp == s.adminIp
  {
    HitCharges(s.ip, key, IP_MAX, IP_WINDOW_MS, t);
  }

  /**
   * In ten minutes 10 requests that name an owner, 10 that name a vault and 6 with a token's hash: a request is
   * let through exactly if none of what it names is used up, and it is charged in this order up to the first refusal.
   */
  lemma FacetLimits(s: Maps, f: Facets, t: int)
    ensures var (after, v) := FacetsChecked(s, f, t);
            var ownerOk := f.owner.Some? ==> !Exhausted(s.owner, f.owner.value, 10, t);
            var vaultOk := f.vault.Some? ==> !Exhausted(s.vault, f.vault.value, 10, t);
            var tokenOk := f.tokenHash.Some? ==> !Exhausted(s.token, f.tokenHash.value, 6, t);
            && (v.ok <==> ownerOk && vaultOk && tokenOk)
            && (!ownerOk ==> Advises(v, s.owner[f.owner.value].resetAt - t))
            && (ownerOk && !vaultOk ==> Advises(v, s.vault[f.vault.value].resetAt - t))
            && (ownerOk && vaultOk && !tokenOk ==> Advises(v, s.token[f.tokenHash.value].resetAt - t))
            && (if f.owner.Some? then Charged(s.owner, after.owner, f.owner.value, 600_000, t) else after.owner == s.owner)
            && (if f.vault.Some? && ownerOk then Charged(s.vault, after.vault, f.vault.value, 600_000, t) else after.vault == s.vault)
            && (if f.tokenHash.Some? && ownerOk && vaultOk then Charged(s.token, after.token, f.tokenHash.value, 600_000, t)
                else after.token == s.token)
            && after.ip == s.ip && after.adminIp == s.adminIp
  {
    hide AfterHit, HitVerdict, Charged, Advises;
    if f.owner.Some? { HitCharges(s.owner, f.owner.value, OWNER_MAX, FACET_WINDOW_MS, t); }
    if f.vault.Some? { HitCharges(s.vault, f.vault.value, VAULT_MAX, FACET_WINDOW_MS, t); }
    if f.tokenHash.Some? { HitCharges(s.token, f.tokenHash.value, TOKEN_MAX, FACET_WINDOW_MS, t); }
  }

  /** A map that has grown over the cap keeps only live buckets when the next hit comes; up to the cap all are kept. */
  lemma FullMapIsPruned(m: Buckets, key: string, windowMs: int, t: int)
    requires windowMs > 0
    ensures var after := AfterHit(m, key, windowMs, t);
            if |m| > 50_000 then
              && (forall k :: k in after ==> t < after[k].resetAt)
              && (forall k :: k in m && t < m[k].resetAt ==> k in after)
            else m.Keys <= after.Keys
  {
  }
}
