/** The readiness domains of the server and every sequence of calls on them. */
module Readiness {
  import opened Prelude

  datatype Network = Verified | Mismatch | Unknown
  datatype Health = Ready | Degraded | NotReady

  /** What a probe of the program account says. */
  datatype ProgramProbe = ProgramOk | ProgramBad | ProgramUnknown

  datatype Domains = Domains(
    apiReady: bool, fcmReady: bool, networkVerified: bool, programReady: bool,
    pollerReady: bool, executorReady: bool, net: Network, consecutiveFailures: nat)

  const STARTUP := Domains(false, false, false, false, false, false, Unknown, 0)
  const FAILURE_THRESHOLD := 3

  datatype Call =
    | SetApi(up: bool)
    | ApplyNet(state: Network)
    | SetFcm(ready: bool)
    | SetProgram(probe: ProgramProbe)
    | SetExecutor(usable: bool)
    | RecordPollResult(healthy: bool)

  // ---- one call as a function ----

  function NetApplied(d: Domains, net: Network): Domains {
    if net == Verified then d.(net := net, networkVerified := true)
    else d.(net := net, networkVerified := false, programReady := false, pollerReady := false, executorReady := false)
  }

  function ProgramSet(d: Domains, probe: ProgramProbe): Domains {
    if probe == ProgramOk then d.(programReady := true) else d.(programReady := false, executorReady := false)
  }

  function PollRecorded(d: Domains, healthy: bool): Domains {
    if healthy then d.(consecutiveFailures := 0, pollerReady := d.pollerReady || d.networkVerified)
    else d.(consecutiveFailures := d.consecutiveFailures + 1,
            pollerReady := d.pollerReady && d.consecutiveFailures + 1 < FAILURE_THRESHOLD)
  }

  function Applied(d: Domains, c: Call): Domains {
    match c
    case SetApi(up) => d.(apiReady := up)
    case ApplyNet(net) => NetApplied(d, net)
    case SetFcm(ready) => d.(fcmReady := ready)
    case SetProgram(probe) => ProgramSet(d, probe)
    case SetExecutor(usable) => d.(executorReady := usable && d.networkVerified && d.programReady)
    case RecordPollResult(healthy) => PollRecorded(d, healthy)
  }

  function After(d: Domains, calls: seq<Call>): Domains {
    if calls == [] then d else Applied(After(d, calls[..|calls| - 1]), calls[|calls| - 1])
  }

  // ---- derived answers ----

  function EscalationReady(d: Domains): bool {
    d.fcmReady && d.networkVerified && d.pollerReady
  }

  function DeriveHealth(d: Domains, fcmWaived: bool, executorWaived: bool): Health {
    if !d.apiReady || d.net == Mismatch then NotReady
    else if d.networkVerified && d.programReady && (d.fcmReady || fcmWaived) && d.pollerReady && (d.executorReady || executorWaived)
    then Ready
    else Degraded
  }

  predicate ShouldProbe(d: Domains) {
    d.networkVerified
  }

  /** `Probed` is the program probe that stands in when there is no registration to read. */
  datatype Cycle = Reads(checked: nat, readErrors: nat) | Probed(ok: bool)

  function IsPollCycleHealthy(c: Cycle, maxRatio: real, maxAbs: int): bool {
    match c
    case Reads(checked, readErrors) =>
      checked > 0 && readErrors as real / checked as real <= maxRatio && readErrors <= maxAbs && checked - readErrors >= 1
    case Probed(ok) => ok
  }

  // ---- the object ----

  class ReadinessState {
    var apiReady: bool
    var fcmReady: bool
    var networkVerified: bool
    var programReady: bool
    var pollerReady: bool
    var executorReady: bool
    var net: Network
    var consecutiveFailures: nat

    function Now(): Domains
      reads this
    {
      Domains(apiReady, fcmReady, networkVerified, programReady, pollerReady, executorReady, net, consecutiveFailures)
    }

    constructor ()
      ensures Now() == STARTUP
    {
      apiReady, fcmReady, networkVerified, programReady, pollerReady, executorReady := false, false, false, false, false, false;
      net, consecutiveFailures := Unknown, 0;
    }

    method ApplyNet(state: Network)
      modifies this
      ensures Now() == NetApplied(old(Now()), state)
      ensures Subordinate(old(Now())) ==> Subordinate(Now())
    {
      net := state;
      if state == Verified {
        networkVerified := true;
      } else {
        networkVerified := false;
        programReady := false;
        pollerReady := false;
        executorReady := false;
      }
    }

    method SetFcm(ready: bool)
      modifies this
      ensures Now() == Applied(old(Now()), Call.SetFcm(ready))
    {
      fcmReady := ready;
    }

    method SetProgram(probe: ProgramProbe)
      modifies this
      ensures Now() == ProgramSet(old(Now()), probe)
      ensures Subordinate(old(Now())) ==> Subordinate(Now())
    {
      programReady := probe == ProgramOk;
      if !programReady {
        executorReady := false;
      }
    }

    method SetExecutor(usable: bool)
      modifies this
      ensures Now() == Applied(old(Now()), Call.SetExecutor(usable))
      ensures Subordinate(old(Now())) ==> Subordinate(Now())
    {
      executorReady := usable && networkVerified && programReady;
    }

    method RecordPollResult(ok: bool)
      modifies this
      ensures Now() == PollRecorded(old(Now()), ok)
      ensures Subordinate(old(Now())) ==> Subordinate(Now())
    {
      if ok {
        consecutiveFailures := 0;
        if networkVerified {
          pollerReady := true;
        }
      } else {
        consecutiveFailures := consecutiveFailures + 1;
        if consecutiveFailures >= FAILURE_THRESHOLD {
          pollerReady := false;
        }
      }
    }
  }

  // ---- every sequence of calls ----

  predicate Subordinate(d: Domains) {
    && (d.executorReady ==> d.networkVerified && d.programReady)
    && (d.pollerReady ==> d.networkVerified && d.consecutiveFailures < 3)
    && (d.networkVerified <==> d.net == Verified)
  }

  /** Over every sequence of calls the executor hangs on network and program, the poller on network and fewer than 3 failures. */
  lemma {:induction false} AlwaysSubordinate(calls: seq<Call>)
    ensures Subordinate(After(STARTUP, calls))
  {
    hide Applied, Subordinate;
    if calls == [] {
      StartsSubordinate();
    } else {
      AlwaysSubordinate(calls[..|calls| - 1]);
      CallKeepsSubordinate(After(STARTUP, calls[..|calls| - 1]), calls[|calls| - 1]);
    }
  }

  lemma StartsSubordinate()
    ensures Subordinate(STARTUP)
  {
  }

  lemma CallKeepsSubordinate(d: Domains, c: Call)
    requires Subordinate(d)
    ensures Subordinate(Applied(d, c))
  {
  }

  predicate KeepsExecutor(c: Call) {
    !c.SetExecutor?
  }

  function WithoutExecutor(calls: seq<Call>): seq<Call> {
    Filter(KeepsExecutor, calls)
  }

  /** Equal in every domain but the executor's. */
  predicate Agree(d: Domains, e: Domains) {
    && d.apiReady == e.apiReady && d.fcmReady == e.fcmReady && d.networkVerified == e.networkVerified
    && d.programReady == e.programReady && d.pollerReady == e.pollerReady
    && d.net == e.net && d.consecutiveFailures == e.consecutiveFailures
  }

  lemma CallKeepsAgreement(d: Domains, e: Domains, c: Call)
    requires Agree(d, e)
    ensures Agree(Applied(d, c), Applied(e, c))
    ensures c.SetExecutor? ==> Agree(d, Applied(e, c))
  {
    match c {
      case ApplyNet(net) => NetKeepsAgreement(d, e, net);
      case RecordPollResult(healthy) => PollKeepsAgreement(d, e, healthy);
      case _ =>
    }
  }

  lemma NetKeepsAgreement(d: Domains, e: Domains, net: Network)
    requires Agree(d, e)
    ensures Agree(NetApplied(d, net), NetApplied(e, net))
  {
  }

  lemma PollKeepsAgreement(d: Domains, e: Domains, healthy: bool)
    requires Agree(d, e)
    ensures Agree(PollRecorded(d, healthy), PollRecorded(e, healthy))
  {
  }

  /** Whatever the executor probes report, taking them out changes no other domain, and so never escalation. */
  lemma {:induction false} EscalationIgnoresExecutor(d: Domains, calls: seq<Call>)
    ensures Agree(After(d, WithoutExecutor(calls)), After(d, calls))
    ensures EscalationReady(After(d, WithoutExecutor(calls))) == EscalationReady(After(d, calls))
  {
    hide Applied;
    if calls != [] {
      var init, last := calls[..|calls| - 1], calls[|calls| - 1];
      var rest := WithoutExecutor(init);
      EscalationIgnoresExecutor(d, init);
      assert calls == init + [last];
      FilterAppend(KeepsExecutor, init, last);
      assert (rest + [last])[..|rest|] == rest;
      CallKeepsAgreement(After(d, rest), After(d, init), last);
    }
  }

  /** The calls that speak about the program: its probes, and a network that is not verified. */
  predicate SpeaksOfProgram(c: Call) {
    c.SetProgram? || (c.ApplyNet? && c.state != Verified)
  }

  predicate LastWordOk(calls: seq<Call>) {
    exists i :: 0 <= i < |calls| && calls[i] == SetProgram(ProgramOk) && forall j :: i < j < |calls| ==> !SpeaksOfProgram(calls[j])
  }

  /** One call more: it has the last word if it speaks of the program. */
  lemma LastWordNext(calls: seq<Call>, c: Call)
    ensures LastWordOk(calls + [c]) <==> if SpeaksOfProgram(c) then c == SetProgram(ProgramOk) else LastWordOk(calls)
  {
    var all := calls + [c];
    if SpeaksOfProgram(c) {
      assert all[|calls|] == c;
    } else if i :| 0 <= i < |calls| && calls[i] == SetProgram(ProgramOk) && forall j :: i < j < |calls| ==> !SpeaksOfProgram(calls[j]) {
      assert all[i] == SetProgram(ProgramOk);
      assert forall j :: i < j < |calls| ==> all[j] == calls[j];
    }
    if i :| 0 <= i < |all| && all[i] == SetProgram(ProgramOk) && forall j :: i < j < |all| ==> !SpeaksOfProgram(all[j]) {
      if i < |calls| {
        assert calls[i] == all[i];
        assert forall j :: i < j < |calls| ==> calls[j] == all[j];
      }
    }
  }

  lemma CallSpeaks(d: Domains, c: Call)
    ensures Applied(d, c).programReady == if SpeaksOfProgram(c) then c == SetProgram(ProgramOk) else d.programReady
  {
  }

  /**
   * The program counts as ready exactly when the last call that speaks about it was a positive probe,
   * whether or not the network was verified by then.
   */
  lemma {:induction false} ProgramReadyIsLastWord(calls: seq<Call>)
    ensures After(STARTUP, calls).programReady <==> LastWordOk(calls)
  {
    hide Applied, SpeaksOfProgram;
    if calls != [] {
      var init, last := calls[..|calls| - 1], calls[|calls| - 1];
      assert calls == init + [last];
      ProgramReadyIsLastWord(init);
      LastWordNext(init, last);
      CallSpeaks(After(STARTUP, init), last);
    }
  }

  /** So a program can be ready on a network that is not verified: a late probe after the loss is enough. */
  lemma ProgramOutlivesNetwork()
    ensures var d := After(STARTUP, [ApplyNet(Unknown), SetProgram(ProgramOk)]);
            d.programReady && !d.networkVerified
  {
    var calls := [ApplyNet(Unknown), SetProgram(ProgramOk)];
    assert calls[..1] == [ApplyNet(Unknown)];
    assert [ApplyNet(Unknown)][..0] == [];
  }

  // ---- losing and regaining the poller ----

  /** From any state a verified network lets the next cycle probe, and one healthy cycle restores the poller. */
  lemma OneHealthyPollRestores(d: Domains)
    ensures ShouldProbe(Applied(d, ApplyNet(Verified)))
    ensures After(d, [ApplyNet(Verified), RecordPollResult(true)]).pollerReady
  {
    var calls := [ApplyNet(Verified), RecordPollResult(true)];
    assert calls[..1] == [ApplyNet(Verified)];
    assert [ApplyNet(Verified)][..0] == [];
  }

  predicate LosesNetwork(c: Call) {
    c.ApplyNet? && c.state != Verified
  }

  function FailuresIn(calls: seq<Call>): nat {
    if calls == [] then 0
    else FailuresIn(calls[..|calls| - 1]) + if calls[|calls| - 1] == RecordPollResult(false) then 1 else 0
  }

  predicate CountsFailures(d: Domains, failures: nat) {
    && d.networkVerified && d.consecutiveFailures == failures
    && (d.pollerReady <==> failures < 3)
  }

  /**
   * After a healthy cycle on a verified network, and while the network stays verified and no further cycle is
   * healthy, the poller is ready exactly as long as fewer than 3 cycles have failed.
   */
  lemma {:induction false} ThreeFailuresDemote(d: Domains, calls: seq<Call>)
    requires d.pollerReady && d.networkVerified && d.consecutiveFailures == 0
    requires forall i :: 0 <= i < |calls| ==> !LosesNetwork(calls[i]) && calls[i] != RecordPollResult(true)
    ensures CountsFailures(After(d, calls), FailuresIn(calls))
  {
    hide Applied, LosesNetwork, CountsFailures;
    if calls == [] {
      StartsCounting(d);
    } else {
      var n := |calls| - 1;
      ThreeFailuresDemote(d, calls[..n]);
      CallCountsFailure(After(d, calls[..n]), calls[n], FailuresIn(calls[..n]));
    }
  }

  lemma StartsCounting(d: Domains)
    requires d.pollerReady && d.networkVerified && d.consecutiveFailures == 0
    ensures CountsFailures(d, 0)
  {
  }

  lemma CallCountsFailure(d: Domains, c: Call, failures: nat)
    requires CountsFailures(d, failures) && !LosesNetwork(c) && c != RecordPollResult(true)
    ensures CountsFailures(Applied(d, c), failures + if c == RecordPollResult(false) then 1 else 0)
  {
  }

  /** READY over any sequence of calls means every mandatory domain is up; no waiver covers network, program or poller. */
  lemma ReadyIsEarned(calls: seq<Call>, fcmWaived: bool, executorWaived: bool)
    ensures var d := After(STARTUP, calls);
            && (DeriveHealth(d, fcmWaived, executorWaived) == Ready ==>
                  && d.net == Verified && LastWordOk(calls) && d.consecutiveFailures < 3
                  && (d.fcmReady || fcmWaived) && (d.executorReady || executorWaived) && d.apiReady && d.pollerReady)
            && (d.executorReady && d.apiReady && d.pollerReady && d.fcmReady ==> DeriveHealth(d, fcmWaived, executorWaived) == Ready)
            && (EscalationReady(d) && !d.executorReady && d.apiReady ==>
                  DeriveHealth(d, fcmWaived, executorWaived) == if d.programReady && executorWaived then Ready else Degraded)
  {
    AlwaysSubordinate(calls);
    ProgramReadyIsLastWord(calls);
  }

  // ---- what brings the other domains up ----

  /** The call takes the executor down. */
  predicate TakesExecutor(c: Call) {
    c == SetExecutor(false) || LosesNetwork(c) || (c.SetProgram? && c.probe != ProgramOk)
  }

  /** The network was verified, and has not been lost since. */
  predicate NetworkLastWord(calls: seq<Call>) {
    exists i :: 0 <= i < |calls| && calls[i] == ApplyNet(Verified) && forall j :: i < j < |calls| ==> !LosesNetwork(calls[j])
  }

  /** A usable executor was reported on a verified network with a ready program, and nothing has taken it down since. */
  predicate ExecutorLastWord(calls: seq<Call>) {
    exists i :: 0 <= i < |calls| && calls[i] == SetExecutor(true) && NetworkLastWord(calls[..i]) && LastWordOk(calls[..i])
                && forall j :: i < j < |calls| ==> !TakesExecutor(calls[j])
  }

  lemma NetworkLastWordNext(calls: seq<Call>, c: Call)
    ensures NetworkLastWord(calls + [c]) <==> if c.ApplyNet? then c.state == Verified else NetworkLastWord(calls)
  {
    var all := calls + [c];
    if c == ApplyNet(Verified) {
      assert all[|calls|] == c;
    } else if i :| 0 <= i < |calls| && calls[i] == ApplyNet(Verified) && forall j :: i < j < |calls| ==> !LosesNetwork(calls[j]) {
      assert all[i] == calls[i];
      assert forall j :: i < j < |calls| ==> all[j] == calls[j];
    }
    if i :| 0 <= i < |all| && all[i] == ApplyNet(Verified) && forall j :: i < j < |all| ==> !LosesNetwork(all[j]) {
      if i < |calls| {
        assert calls[i] == all[i] && !LosesNetwork(all[|calls|]);
        assert forall j :: i < j < |calls| ==> calls[j] == all[j];
      }
    }
  }

  lemma ExecutorLastWordNext(calls: seq<Call>, c: Call)
    ensures ExecutorLastWord(calls + [c]) <==>
              !TakesExecutor(c) && (ExecutorLastWord(calls) || (c == SetExecutor(true) && NetworkLastWord(calls) && LastWordOk(calls)))
  {
    hide NetworkLastWord, LastWordOk, TakesExecutor;
    var all := calls + [c];
    assert all[..|calls|] == calls;
    assert forall i :: 0 <= i < |calls| ==> all[..i] == calls[..i] && all[i] == calls[i];
    NoneTaken();
    if ExecutorLastWord(calls) && !TakesExecutor(c) {
      var i :| 0 <= i < |calls| && calls[i] == SetExecutor(true) && NetworkLastWord(calls[..i]) && LastWordOk(calls[..i])
               && forall j :: i < j < |calls| ==> !TakesExecutor(calls[j]);
      assert all[i] == SetExecutor(true) && forall j :: i < j < |all| ==> !TakesExecutor(all[j]);
    }
    if c == SetExecutor(true) && NetworkLastWord(calls) && LastWordOk(calls) {
      assert all[|calls|] == c;
    }
    if i :| 0 <= i < |all| && all[i] == SetExecutor(true) && NetworkLastWord(all[..i]) && LastWordOk(all[..i])
            && forall j :: i < j < |all| ==> !TakesExecutor(all[j]) {
      if i < |calls| {
        assert !TakesExecutor(all[|calls|]);
      }
    }
  }

  lemma NoneTaken()
    ensures !TakesExecutor(SetExecutor(true))
  {
  }

  /** The executor is ready exactly when a usable one was reported while network and program were up, and all have been since. */
  lemma {:induction false} ExecutorReadyIsLastWord(calls: seq<Call>)
    ensures After(STARTUP, calls).networkVerified <==> NetworkLastWord(calls)
    ensures After(STARTUP, calls).executorReady <==> ExecutorLastWord(calls)
  {
    hide NetworkLastWord, ExecutorLastWord, LastWordOk;
    if calls == [] {
      NothingSaid();
    } else {
      var init, last := calls[..|calls| - 1], calls[|calls| - 1];
      assert calls == init + [last];
      ExecutorReadyIsLastWord(init);
      ProgramReadyIsLastWord(init);
      AlwaysSubordinate(init);
      NetworkLastWordNext(init, last);
      ExecutorLastWordNext(init, last);
    }
  }

  lemma NothingSaid()
    ensures !NetworkLastWord([]) && !ExecutorLastWord([])
  {
  }

  /** Escalation comes up with the last of its three domains, and goes down with any of them. */
  lemma EscalationHangsOnThree(d: Domains)
    ensures EscalationReady(After(d, [ApplyNet(Verified), RecordPollResult(true), SetFcm(true)]))
    ensures EscalationReady(After(d, [SetFcm(true), ApplyNet(Verified), RecordPollResult(true)]))
    ensures !EscalationReady(Applied(d, SetFcm(false)))
    ensures !EscalationReady(Applied(d, ApplyNet(Unknown))) && !EscalationReady(Applied(d, ApplyNet(Mismatch)))
    ensures d.consecutiveFailures >= 2 ==> !EscalationReady(Applied(d, RecordPollResult(false)))
  {
    ThreeCalls(d, ApplyNet(Verified), RecordPollResult(true), SetFcm(true));
    ThreeCalls(d, SetFcm(true), ApplyNet(Verified), RecordPollResult(true));
  }

  lemma ThreeCalls(d: Domains, a: Call, b: Call, c: Call)
    ensures After(d, [a, b, c]) == Applied(Applied(Applied(d, a), b), c)
  {
    assert [a, b, c][..2] == [a, b] && [a, b][..1] == [a] && [a][..0] == [];
    hide Applied;
    assert After(d, [a, b]) == Applied(After(d, [a]), b);
  }

  lemma CallKeepsMismatch(d: Domains, c: Call)
    requires d.net == Mismatch && !c.ApplyNet?
    ensures Applied(d, c).net == Mismatch
  {
  }

  lemma MismatchMeansNotReady(d: Domains, fcmWaived: bool, executorWaived: bool)
    requires d.net == Mismatch
    ensures DeriveHealth(d, fcmWaived, executorWaived) == NotReady
  {
  }

  /** From a mismatch until the network is classified anew, nothing makes the server healthier than NOT_READY. */
  lemma {:induction false} MismatchIsNotReady(d: Domains, calls: seq<Call>, fcmWaived: bool, executorWaived: bool)
    requires d.net == Mismatch && forall i :: 0 <= i < |calls| ==> !calls[i].ApplyNet?
    ensures After(d, calls).net == Mismatch && DeriveHealth(After(d, calls), fcmWaived, executorWaived) == NotReady
  {
    hide Applied, DeriveHealth;
    if calls != [] {
      var n := |calls| - 1;
      MismatchIsNotReady(d, calls[..n], fcmWaived, executorWaived);
      CallKeepsMismatch(After(d, calls[..n]), calls[n]);
    }
    MismatchMeansNotReady(After(d, calls), fcmWaived, executorWaived);
  }
}
