/**
 * The controller of the legacy-acceptance window: a one-way latch. The clock is whatever each call reads
 * and may run backwards.
 */
module Transition {
  import opened Prelude

  datatype Mode = LegacyOnly | DualAccept | SignedOnly

  datatype Latch = Latch(expired: bool, firstExpiryAt: Option<int>, fired: nat)

  datatype Status = Status(
    effective: Mode, legacyAccepting: bool, legacyWindowExpired: bool, secondsUntilLegacyClose: int)

  const OPEN := Latch(false, None, 0)

  function Observe(mode: Mode, until: Option<int>, s: Latch, t: int): Latch {
    if mode == DualAccept && until.Some? && !s.expired && t >= until.value then Latch(true, Some(t), s.fired + 1) else s
  }

  function StatusOf(mode: Mode, until: Option<int>, s: Latch, t: int): Status {
    var accepting := mode == LegacyOnly || (mode == DualAccept && until.Some? && !s.expired && t < until.value);
    Status(
      if mode == SignedOnly then SignedOnly else if mode == LegacyOnly then LegacyOnly
      else if accepting then DualAccept else SignedOnly,
      accepting,
      mode == DualAccept && s.expired,
      if mode == DualAccept && until.Some? && !s.expired then Max(0, until.value - t) else 0)
  }

  class TransitionController {
    const mode: Mode
    const until: Option<int>
    var expiredLatched: bool
    var firstExpiryAt: Option<int>
    /** How often `onFirstExpiry` was called. */
    var fired: nat

    ghost function Now(): Latch
      reads this
    {
      Latch(expiredLatched, firstExpiryAt, fired)
    }

    constructor (mode: Mode, until: Option<int>)
      ensures this.mode == mode && this.until == until && Now() == OPEN
    {
      this.mode, this.until := mode, until;
      expiredLatched, firstExpiryAt, fired := false, None, 0;
    }

    method Get(t: int) returns (r: Status)
      modifies this
      ensures Now() == Observe(mode, until, old(Now()), t)
      ensures r == StatusOf(mode, until, Now(), t)
    {
      if mode == DualAccept && until.Some? && !expiredLatched && t >= until.value {
        expiredLatched := true;
        firstExpiryAt := Some(t);
        fired := fired + 1;
      }
      var accepting := mode == LegacyOnly || (mode == DualAccept && until.Some? && !expiredLatched && t < until.value);
      var effective := if mode == SignedOnly then SignedOnly else if mode == LegacyOnly then LegacyOnly
                       else if accepting then DualAccept else SignedOnly;
      var left := if mode == DualAccept && until.Some? && !expiredLatched then Max(0, until.value - t) else 0;
      r := Status(effective, accepting, mode == DualAccept && expiredLatched, left);
    }
  }

  /** The latch after the first n readings of a clock. */
  function LatchAfter(mode: Mode, until: Option<int>, readings: seq<int>, n: nat): Latch
    requires n <= |readings|
  {
    if n == 0 then OPEN else Observe(mode, until, LatchAfter(mode, until, readings, n - 1), readings[n - 1])
  }

  ghost predicate Reached(until: int, readings: seq<int>, n: nat)
    requires n <= |readings|
  {
    exists i :: 0 <= i < n && readings[i] >= until
  }

  /**
   * In dual mode, for every sequence of readings: the latch is set exactly when some reading has reached
   * the cutoff; the observer has then fired exactly once, with the first such reading.
   */
  lemma {:induction false} LatchRemembersFirstExpiry(until: int, readings: seq<int>, n: nat)
    requires n <= |readings|
    ensures var s := LatchAfter(DualAccept, Some(until), readings, n);
            && (s.expired <==> Reached(until, readings, n))
            && s.fired == (if s.expired then 1 else 0)
            && (s.expired <==> s.firstExpiryAt.Some?)
            && (s.expired ==> exists i :: 0 <= i < n && s.firstExpiryAt == Some(readings[i]) && readings[i] >= until
                                          && !Reached(until, readings, i))
  {
    if n > 0 {
      LatchRemembersFirstExpiry(until, readings, n - 1);
      var before := LatchAfter(DualAccept, Some(until), readings, n - 1);
      if !before.expired && readings[n - 1] >= until {
        assert !Reached(until, readings, n - 1);
      }
    }
  }

  /**
   * Legacy writes are accepted at a reading exactly when no reading so far, this one included, has reached
   * the cutoff. A clock that runs backwards reopens nothing.
   */
  lemma AcceptingUntilFirstExpiry(until: int, readings: seq<int>, n: nat)
    requires n < |readings|
    ensures StatusOf(DualAccept, Some(until), LatchAfter(DualAccept, Some(until), readings, n + 1), readings[n]).legacyAccepting
            <==> !Reached(until, readings, n + 1)
  {
    LatchRemembersFirstExpiry(until, readings, n + 1);
    assert readings[n] >= until ==> Reached(until, readings, n + 1);
  }

  /** What a reading tells: the two answers about the window exclude each other, and the countdown ends in its close. */
  lemma StatusTells(until: int, s: Latch, t: int)
    ensures var r := StatusOf(DualAccept, Some(until), Observe(DualAccept, Some(until), s, t), t);
            && r.legacyAccepting == !r.legacyWindowExpired
            && (r.effective == DualAccept <==> r.legacyAccepting) && (r.effective == SignedOnly <==> r.legacyWindowExpired)
            && (r.legacyAccepting ==> r.secondsUntilLegacyClose > 0)
            && (r.legacyAccepting ==> forall later :: t <= later ==>
                  (StatusOf(DualAccept, Some(until), Observe(DualAccept, Some(until), s, later), later).legacyAccepting
                   <==> later < t + r.secondsUntilLegacyClose))
            && (r.legacyWindowExpired ==> r.secondsUntilLegacyClose == 0)
  {
  }
}
