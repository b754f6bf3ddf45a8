/**
 * The watcher's step for one registration. Everything between two awaits happens at one instant; the
 * network flag, the item's liveness and the executor's readiness may be anything at each instant.
 */
module Watcher {
  import opened Prelude
  import opened Fcm
  import opened Escalation
  import S = Store

  datatype Flags = Flags(networkVerified: bool, live: bool, executorReady: bool)

  /** What `readVaultState` yields. */
  datatype VaultRead = ReadThrows | Absent | Present(active: bool, executed: bool, interval: int, heartbeat: Option<int>)

  /** `at(n)` is what the flags are after the n-th await; the rest is what each awaited call answers. */
  datatype Script = Script(at: nat -> Flags, read: VaultRead, probeOk: bool, crankAwaits: nat, send: SendScript)

  datatype Note = Alert(stage: nat) | Complete

  datatype Action =
    | NetUnverified | ReadError | TimedOut | ProgramUnready | NoHeartbeat
    | DeregisteredMissing | DeregisteredInactive | DeregisteredUnregistered
    | Normal | NoChange | Sent(stage: nat) | SendUnsettled(note: Note)

  datatype Cause = Gone | Finished | Told | DeadToken

  /** The effects of one step and the awaited answers they rest on. */
  datatype Event =
    | ReadDone(at: nat)
    | ProbeDone(at: nat, ok: bool)
    | CrankDone(from: nat, at: nat)
    | Requested(at: nat, note: Note)
    | Replied(at: nat, note: Note, result: Result)
    | Dropped(at: nat, cause: Cause)
    | Stored(at: nat, row: Notified)

  predicate IsReadFailure(a: Action) {
    a == NetUnverified || a == ReadError || a == TimedOut || a == ProgramUnready || a == NoHeartbeat
  }

  predicate Both(w: Script, at: nat) {
    w.at(at).networkVerified && w.at(at).live
  }

  function RowOf(reg: S.Row): Notified {
    Notified(reg.lastStage, reg.lastNotifiedAt)
  }

  function PlanOf(reg: S.Row, read: VaultRead): Plan
    requires read.Present? && read.heartbeat.Some?
  {
    Plan(read.heartbeat.value, read.interval, Stages(reg.stage1, reg.stage2, reg.stage3))
  }

  /** An active vault with a readable heartbeat: its deadline is known. */
  predicate Watched(read: VaultRead) {
    read.Present? && read.active && !read.executed && read.heartbeat.Some?
  }

  predicate OwesCompletion(reg: S.Row, read: VaultRead, waived: bool) {
    read.Present? && read.executed && reg.lastStage == 4 && !waived
  }

  /** A note that the read and the row call for. */
  predicate CalledFor(reg: S.Row, read: VaultRead, now: int, waived: bool, note: Note) {
    match note
    case Complete => OwesCompletion(reg, read, waived)
    case Alert(k) => Watched(read) && 1 <= k <= 4 && k == StageAt(PlanOf(reg, read), now) && Due(k, RowOf(reg), now)
  }

  predicate IsWrite(e: Event) {
    e.Dropped? || e.Stored?
  }

  /** What follows a reply that settles a note, even when the flags have flipped while it was pending. */
  predicate Recorded(e: Event, after: Event, now: int)
    requires e.Replied?
  {
    match e.note
    case Complete => after == Dropped(e.at, Told)
    case Alert(k) => if Unregistered(e.result) then after == Dropped(e.at, DeadToken) else after == Stored(e.at, Notified(k, now))
  }

  /** The rules for event i of a step. */
  predicate EventOk(w: Script, reg: S.Row, now: int, waived: bool, trace: seq<Event>, i: nat)
    requires i < |trace|
  {
    && (IsWrite(trace[i]) ==> i == |trace| - 1)
    && match trace[i]
       case ReadDone(at) => i == 0 && at == 1 && !w.read.ReadThrows?
       case ProbeDone(at, ok) => i == 1 && at == 2 && ok == w.probeOk && w.read == Absent
       case CrankDone(from, at) =>
         i == 1 && from < at && Both(w, from) && w.at(from).executorReady
         && Watched(w.read) && StageAt(PlanOf(reg, w.read), now) == 4
       case Requested(at, note) =>
         i >= 1 && trace[i - 1].at < at && Both(w, at) && CalledFor(reg, w.read, now, waived, note)
       case Replied(at, note, result) =>
         && i >= 1 && trace[i - 1].Requested? && trace[i - 1].note == note && trace[i - 1].at < at
         && (result.Delivered? || Unregistered(result) ==> i + 1 < |trace| && Recorded(trace[i], trace[i + 1], now))
       case Dropped(at, Gone) =>
         Both(w, at) && w.read == Absent && i == 2 && trace[1] == ProbeDone(at, true) && trace[0].ReadDone? && trace[0].at < at
       case Dropped(at, Finished) =>
         Both(w, at) && w.read.Present? && (!w.read.active || w.read.executed) && !OwesCompletion(reg, w.read, waived)
       case Dropped(at, Told) =>
         i >= 1 && trace[i - 1].Replied? && trace[i - 1].note == Complete
         && (trace[i - 1].result.Delivered? || Unregistered(trace[i - 1].result))
       case Dropped(at, DeadToken) =>
         i >= 1 && trace[i - 1].Replied? && trace[i - 1].note.Alert? && Unregistered(trace[i - 1].result)
       case Stored(at, row) =>
         if row == CLEARED then
           Both(w, at) && reg.lastStage != 0 && Watched(w.read) && StageAt(PlanOf(reg, w.read), now) == 0
         else
           i >= 1 && row.lastStage >= 1 && row.lastNotifiedAt == now
           && trace[i - 1] == Replied(at, Alert(row.lastStage), Delivered)
  }

  predicate Sound(w: Script, reg: S.Row, now: int, waived: bool, trace: seq<Event>) {
    forall i :: 0 <= i < |trace| ==> EventOk(w, reg, now, waived, trace, i)
  }

  /** The row after the step, if it is still there; a write is always the last event. */
  function RowAfter(reg: S.Row, trace: seq<Event>): Option<Notified> {
    if trace == [] || !IsWrite(trace[|trace| - 1]) then Some(RowOf(reg))
    else if trace[|trace| - 1].Dropped? then None
    else Some(trace[|trace| - 1].row)
  }

  /** The stage whose alert this step delivered. */
  function DeliveredIn(trace: seq<Event>): Option<nat> {
    if |trace| >= 2 && trace[|trace| - 2].Replied? && trace[|trace| - 2].result.Delivered? && trace[|trace| - 2].note.Alert?
    then Some(trace[|trace| - 2].note.stage)
    else None
  }

  /** Nothing goes wrong: the flags hold throughout, the probe answers, and a push that leaves is delivered. */
  ghost predicate Quiet(w: Script, t: Transport) {
    && Steady(w) && w.probeOk
    && SendResult(t, w.send, true).Delivered?
  }

  /** Whatever the flags do: the trace obeys the rules and the action tells what happened to the row. */
  predicate Safe(w: Script, reg: S.Row, now: int, waived: bool, action: Action, trace: seq<Event>) {
    && Sound(w, reg, now, waived, trace)
    && DeliveredIn(trace) == (if action.Sent? then Some(action.stage) else None)
    && (RowAfter(reg, trace) == None <==>
        action == DeregisteredMissing || action == DeregisteredInactive || action == DeregisteredUnregistered)
    && (IsReadFailure(action) ==> RowAfter(reg, trace) == Some(RowOf(reg)))
    && (Stalled(w) ==> IsReadFailure(action))
    && (!IsReadFailure(action) ==> trace != [] && trace[0] == ReadDone(1) && Both(w, 1))
  }

  /** The vault could not be read while both flags were up, or its absence was not confirmed while they were. */
  predicate Stalled(w: Script) {
    || !w.at(0).networkVerified || w.read.ReadThrows? || !Both(w, 1)
    || (w.read.Absent? && (!Both(w, 2) || !w.probeOk))
  }

  /** The flags hold throughout. */
  ghost predicate Steady(w: Script) {
    forall n: nat :: w.at(n).networkVerified && w.at(n).live
  }

  /** When nothing goes wrong: gone and finished vaults are dropped, and exactly the alert that is called for is delivered. */
  ghost predicate Prompt(reg: S.Row, read: VaultRead, now: int, waived: bool, action: Action, trace: seq<Event>) {
    && (RowAfter(reg, trace) == None <==> read == Absent || (read.Present? && (!read.active || read.executed)))
    && (forall k: nat :: DeliveredIn(trace) == Some(k) <==> CalledFor(reg, read, now, waived, Alert(k)))
    && (IsReadFailure(action) <==> read.ReadThrows? || (read.Present? && read.active && !read.executed && read.heartbeat.None?))
    && (OwesCompletion(reg, read, waived) <==> |trace| > 2 && trace[2].Replied? && trace[2].note == Complete)
    && (Watched(read) && StageAt(PlanOf(reg, read), now) == 0 ==>
          RowAfter(reg, trace) == Some(if reg.lastStage != 0 then CLEARED else RowOf(reg)))
  }

  predicate Cranked(trace: seq<Event>) {
    |trace| > 1 && trace[1].CrankDone?
  }

  /** Once the grace is over the distribution is driven, exactly if the executor is ready after the read. */
  predicate Driven(w: Script, reg: S.Row, now: int, trace: seq<Event>) {
    Cranked(trace) <==> !Stalled(w) && Watched(w.read) && StageAt(PlanOf(reg, w.read), now) == 4 && w.at(1).executorReady
  }

  /** A due alert that meets a dead token drops the row. */
  ghost predicate DropsDeadToken(w: Script, reg: S.Row, now: int, waived: bool, t: Transport, action: Action) {
    Steady(w) && Unregistered(SendResult(t, w.send, true)) && (exists k: nat :: CalledFor(reg, w.read, now, waived, Alert(k))) ==>
      action == DeregisteredUnregistered
  }

  /** `processRegistration`, with the trace of what it did. */
  method ProcessRegistration(w: Script, reg: S.Row, now: int, fcmWaived: bool, push: PushTransport)
      returns (action: Action, trace: seq<Event>)
    modifies push
    ensures Safe(w, reg, now, fcmWaived, action, trace)
    ensures Quiet(w, old(push.Now())) ==> Prompt(reg, w.read, now, fcmWaived, action, trace)
    ensures Driven(w, reg, now, trace) && DropsDeadToken(w, reg, now, fcmWaived, old(push.Now()), action)
  {
    trace := [];
    if !w.at(0).networkVerified { return NetUnverified, trace; }
    if w.read.ReadThrows? { return ReadError, trace; }
    trace := [ReadDone(1)];
    if !w.at(1).live { return TimedOut, trace; }
    if !w.at(1).networkVerified { return NetUnverified, trace; }

    if w.read.Absent? {
      trace := trace + [ProbeDone(2, w.probeOk)];
      if !w.at(2).live { return TimedOut, trace; }
      if !w.at(2).networkVerified { return NetUnverified, trace; }
      if !w.probeOk { return ProgramUnready, trace; }
      trace := trace + [Dropped(2, Gone)];
      return DeregisteredMissing, trace;
    }
    if !w.read.active || w.read.executed {
      action, trace := Retire(w, reg, now, fcmWaived, push);
    } else if w.read.heartbeat.None? {
      action := NoHeartbeat;
    } else {
      action, trace := Escalate(w, reg, now, fcmWaived, push);
    }
  }

  /** The branch of an inactive or executed vault. */
  method Retire(w: Script, reg: S.Row, now: int, fcmWaived: bool, push: PushTransport)
      returns (action: Action, trace: seq<Event>)
    requires !Stalled(w) && w.read.Present? && (!w.read.active || w.read.executed)
    modifies push
    ensures Safe(w, reg, now, fcmWaived, action, trace)
    ensures Quiet(w, old(push.Now())) ==> Prompt(reg, w.read, now, fcmWaived, action, trace)
    ensures Driven(w, reg, now, trace) && DropsDeadToken(w, reg, now, fcmWaived, old(push.Now()), action)
  {
    trace := [ReadDone(1)];
    if w.read.executed && reg.lastStage == 4 && !fcmWaived {
      var result, sent := Push(w, 1, Complete, push);
      trace := trace + sent;
      if result.Suppressed? { return NetUnverified, trace; }
      if result.Delivered? || Unregistered(result) {
        trace := trace + [Dropped(3, Told)];
        return DeregisteredInactive, trace;
      }
      return SendUnsettled(Complete), trace;
    }
    if !w.at(1).networkVerified { return NetUnverified, trace; }
    trace := trace + [Dropped(1, Finished)];
    action := DeregisteredInactive;
  }

  /** The branch of an active vault whose deadline is known. */
  method Escalate(w: Script, reg: S.Row, now: int, fcmWaived: bool, push: PushTransport)
      returns (action: Action, trace: seq<Event>)
    requires !Stalled(w) && Watched(w.read)
    modifies push
    ensures Safe(w, reg, now, fcmWaived, action, trace)
    ensures Quiet(w, old(push.Now())) ==> Prompt(reg, w.read, now, fcmWaived, action, trace)
    ensures Driven(w, reg, now, trace) && DropsDeadToken(w, reg, now, fcmWaived, old(push.Now()), action)
  {
    hide Sound, SendResult;
    FirstEvents(w, reg, now, fcmWaived, 2 + w.crankAwaits);
    var t: nat := 1;
    trace := [ReadDone(1)];
    var stages := Stages(reg.stage1, reg.stage2, reg.stage3);
    var stage := ComputeStage(w.read.heartbeat.value, w.read.interval, stages, now).stage;
    if stage == 0 {
      if reg.lastStage != 0 {
        trace := trace + [Stored(t, CLEARED)];
        assert trace == [ReadDone(1), Stored(1, CLEARED)];
      }
      return Normal, trace;
    }
    if stage == 4 && w.at(t).executorReady {
      t := t + 1 + w.crankAwaits;
      trace := trace + [CrankDone(1, t)];
      assert trace == [ReadDone(1), CrankDone(1, t)];
    }

    var escalated := stage > reg.lastStage;
    var recurDue := stage == reg.lastStage && 1 <= stage <= 3 && now - reg.lastNotifiedAt >= RecurInterval(stage);
    var stage4Once := stage == 4 && reg.lastStage != 4;
    if !escalated && !recurDue && !stage4Once { return NoChange, trace; }

    action, trace := SendAlert(w, reg, now, fcmWaived, stage, t, trace, push);
    NoCompletion(w, reg, now, fcmWaived, trace);
  }

  /** The steps before an alert: the read, and a crank when one was driven. */
  predicate BeforeAlert(w: Script, reg: S.Row, now: int, waived: bool, t: nat, trace: seq<Event>) {
    && Sound(w, reg, now, waived, trace)
    && 1 <= |trace| <= 2 && trace[0] == ReadDone(1) && trace[|trace| - 1].at == t
    && (|trace| == 2 ==> trace[1].CrankDone?)
  }

  lemma EarlierEventsStay(w: Script, reg: S.Row, now: int, waived: bool, t: nat, before: seq<Event>)
    requires BeforeAlert(w, reg, now, waived, t, before)
    ensures forall after: seq<Event>, i: nat :: i < |before| < |after| && before <= after ==> EventOk(w, reg, now, waived, after, i)
  {
    forall after: seq<Event>, i: nat | i < |before| < |after| && before <= after ensures EventOk(w, reg, now, waived, after, i) {
      assert EventOk(w, reg, now, waived, before, i);
      assert after[i] == before[i];
    }
  }

  /** A watched vault owes no completion, so none is ever answered. */
  lemma NoCompletion(w: Script, reg: S.Row, now: int, waived: bool, trace: seq<Event>)
    requires Sound(w, reg, now, waived, trace) && Watched(w.read)
    ensures forall i :: 0 <= i < |trace| && trace[i].Replied? ==> trace[i].note != Complete
  {
    hide Due, StageAt;
    forall i | 0 <= i < |trace| && trace[i].Replied? ensures trace[i].note != Complete {
      assert EventOk(w, reg, now, waived, trace, i);
      assert EventOk(w, reg, now, waived, trace, i - 1);
    }
  }

  /** What may come before an alert, or instead of one. */
  lemma FirstEvents(w: Script, reg: S.Row, now: int, waived: bool, t: nat)
    requires !Stalled(w) && Watched(w.read) && t > 1
    ensures Sound(w, reg, now, waived, [ReadDone(1)])
    ensures StageAt(PlanOf(reg, w.read), now) == 4 && w.at(1).executorReady ==>
              Sound(w, reg, now, waived, [ReadDone(1), CrankDone(1, t)])
    ensures StageAt(PlanOf(reg, w.read), now) == 0 && reg.lastStage != 0 ==>
              Sound(w, reg, now, waived, [ReadDone(1), Stored(1, CLEARED)])
  {
    hide Due, StageAt;
  }

  method SendAlert(w: Script, reg: S.Row, now: int, fcmWaived: bool, stage: nat, t: nat, before: seq<Event>, push: PushTransport)
      returns (action: Action, trace: seq<Event>)
    requires BeforeAlert(w, reg, now, fcmWaived, t, before)
    requires !Stalled(w) && CalledFor(reg, w.read, now, fcmWaived, Alert(stage))
    modifies push
    ensures Safe(w, reg, now, fcmWaived, action, trace)
    ensures Quiet(w, old(push.Now())) ==> action == Sent(stage)
    ensures Cranked(trace) <==> |before| == 2
    ensures Steady(w) && Unregistered(SendResult(old(push.Now()), w.send, true)) ==> action == DeregisteredUnregistered
  {
    hide Sound, SendResult;
    AlertIsSound(w, reg, now, fcmWaived, stage, t, before);
    trace := before;
    if !w.at(t).live { return TimedOut, trace; }
    if !w.at(t).networkVerified { return NetUnverified, trace; }
    var result, sent := Push(w, t, Alert(stage), push);
    if result.Suppressed? { return NetUnverified, trace; }
    trace := trace + sent;
    assert sent == [] ==> trace == before;
    assert sent != [] ==> trace == before + Asked(stage, t, result);
    if Unregistered(result) {
      trace := trace + [Dropped(t + 2, DeadToken)];
      return DeregisteredUnregistered, trace;
    }
    if result.Delivered? {
      trace := trace + [Stored(t + 2, Notified(stage, now))];
      return Sent(stage), trace;
    }
    action := SendUnsettled(Alert(stage));
  }

  function Asked(stage: nat, t: nat, result: Result): seq<Event> {
    [Requested(t + 1, Alert(stage)), Replied(t + 2, Alert(stage), result)]
  }

  /** An alert that is requested under the guard and recorded when it is settled keeps the rules. */
  lemma AlertIsSound(w: Script, reg: S.Row, now: int, waived: bool, stage: nat, t: nat, before: seq<Event>)
    requires BeforeAlert(w, reg, now, waived, t, before)
    requires CalledFor(reg, w.read, now, waived, Alert(stage))
    ensures Both(w, t + 1) ==> forall r: Result :: var asked := before + Asked(stage, t, r);
              && (!r.Delivered? && !Unregistered(r) ==> Sound(w, reg, now, waived, asked))
              && (Unregistered(r) ==> Sound(w, reg, now, waived, asked + [Dropped(t + 2, DeadToken)]))
              && (r.Delivered? ==> Sound(w, reg, now, waived, asked + [Stored(t + 2, Notified(stage, now))]))
  {
    assert stage != 0;
    hide Due, StageAt, CalledFor;
    EarlierEventsStay(w, reg, now, waived, t, before);
  }

  /** `sendPush` with the guard that reads both flags once the token has arrived. */
  method Push(w: Script, t: nat, note: Note, push: PushTransport) returns (result: Result, sent: seq<Event>)
    modifies push
    ensures result == SendResult(old(push.Now()), w.send, Both(w, t + 1))
    ensures sent == [] || (sent == [Requested(t + 1, note), Replied(t + 2, note, result)] && Both(w, t + 1))
    ensures result.Delivered? || Unregistered(result) ==> sent != []
    ensures result.Suppressed? ==> sent == []
  {
    var requested;
    DeliveryNeedsTheGuard(push.Now(), w.send, Both(w, t + 1));
    hide SendResult, Requests;
    result, requested := push.SendPush(w.send, Both(w, t + 1));
    sent := if requested then [Requested(t + 1, note), Replied(t + 2, note, result)] else [];
  }

  // ---- from steps to runs ----

  /** `DeliveredIn` misses nothing: a delivered alert anywhere in a trace is the one it reports. */
  lemma DeliveryIsReported(w: Script, reg: S.Row, now: int, waived: bool, trace: seq<Event>, i: nat)
    requires Sound(w, reg, now, waived, trace) && i < |trace|
    requires trace[i].Replied? && trace[i].note.Alert? && trace[i].result.Delivered?
    ensures DeliveredIn(trace) == Some(trace[i].note.stage)
    ensures RowAfter(reg, trace) == Some(Notified(trace[i].note.stage, now))
  {
    assert EventOk(w, reg, now, waived, trace, i);
    assert EventOk(w, reg, now, waived, trace, i + 1);
  }

  /** No request leaves, no missing vault is dropped, at an instant when either flag is down. */
  lemma NothingLeavesUnguarded(w: Script, reg: S.Row, now: int, waived: bool, trace: seq<Event>, i: nat)
    requires Sound(w, reg, now, waived, trace) && i < |trace|
    requires trace[i].Requested? || (trace[i].Dropped? && trace[i].cause == Gone)
    ensures Both(w, trace[i].at)
    ensures trace[i].Dropped? ==>
              exists j :: 0 <= j < i && trace[j] == ProbeDone(trace[i].at, true)
                          && exists k :: 0 <= k < j && trace[k].ReadDone? && trace[k].at < trace[j].at
  {
    assert EventOk(w, reg, now, waived, trace, i);
    if trace[i].Dropped? {
      assert trace[1] == ProbeDone(trace[i].at, true) && trace[0].ReadDone?;
    }
  }

  /** On a row that it leaves in place, a step of the watcher is a step of the escalation run. */
  lemma StepIsNotifyStep(w: Script, reg: S.Row, now: int, waived: bool, trace: seq<Event>, p: Plan)
    requires Sound(w, reg, now, waived, trace)
    requires Watched(w.read) ==> PlanOf(reg, w.read) == p
    ensures RowAfter(reg, trace).Some? ==> NotifyStep(p, RowOf(reg), now, RowAfter(reg, trace).value, DeliveredIn(trace))
    ensures RowAfter(reg, trace).None? ==> DeliveredIn(trace) == None
  {
    hide Due, StageAt;
    var n := |trace|;
    if n >= 1 { assert EventOk(w, reg, now, waived, trace, n - 1); }
    if n >= 2 { assert EventOk(w, reg, now, waived, trace, n - 2); }
    if n >= 3 { assert EventOk(w, reg, now, waived, trace, n - 3); }
  }

  /** One tick's visit to a registration. */
  datatype Visit = Visit(w: Script, reg: S.Row, now: int, trace: seq<Event>)

  /** Visits that do not overlap, on one registration and one heartbeat, from a cleared row. */
  ghost predicate IsWatch(p: Plan, waived: bool, visits: seq<Visit>) {
    && (visits != [] ==> RowOf(visits[0].reg) == CLEARED)
    && (forall i, j :: 0 <= i <= j < |visits| ==> visits[i].now <= visits[j].now)
    && (forall i :: 0 <= i < |visits| ==> Sound(visits[i].w, visits[i].reg, visits[i].now, waived, visits[i].trace))
    && (forall i :: 0 <= i < |visits| && Watched(visits[i].w.read) ==> PlanOf(visits[i].reg, visits[i].w.read) == p)
    && (forall i, j :: 0 <= i && j == i + 1 && j < |visits| ==>
          RowAfter(visits[i].reg, visits[i].trace) == Some(RowOf(visits[j].reg)))
  }

  function TicksOf(visits: seq<Visit>): seq<Tick> {
    seq(|visits|, i requires 0 <= i < |visits| => Tick(visits[i].now, DeliveredIn(visits[i].trace)))
  }

  function RowsOf(visits: seq<Visit>): seq<Notified> {
    seq(|visits| + 1, i requires 0 <= i <= |visits| =>
      if i < |visits| then RowOf(visits[i].reg)
      else if visits == [] then CLEARED
      else
        var last := visits[|visits| - 1];
        if RowAfter(last.reg, last.trace).Some? then RowAfter(last.reg, last.trace).value else RowOf(last.reg))
  }

  lemma WatchIsRun(p: Plan, waived: bool, visits: seq<Visit>)
    requires IsWatch(p, waived, visits)
    ensures IsRun(p, TicksOf(visits), RowsOf(visits))
  {
    hide Sound, RowAfter, DeliveredIn, NotifyStep;
    var ticks, rows := TicksOf(visits), RowsOf(visits);
    forall i | 0 <= i < |ticks| ensures NotifyStep(p, rows[i], ticks[i].now, rows[i + 1], ticks[i].delivered) {
      var v := visits[i];
      StepIsNotifyStep(v.w, v.reg, v.now, waived, v.trace, p);
      UntouchedIsStep(p, RowOf(v.reg), v.now);
    }
  }

  lemma UntouchedIsStep(p: Plan, row: Notified, now: int)
    ensures NotifyStep(p, row, now, row, None)
  {
  }

  /**
   * Main result: over every sequence of visits, whatever the reads, flags, probes and the provider do, the
   * owner gets stage k at most `Room` times, stage 4 at most once, and never an earlier stage after a later one.
   */
  lemma WatchIsBounded(p: Plan, waived: bool, visits: seq<Visit>)
    requires Positive(p) && IsWatch(p, waived, visits)
    ensures forall k: nat :: 1 <= k <= 3 ==> Deliveries(TicksOf(visits), k) <= Room(p, k)
    ensures Deliveries(TicksOf(visits), 1) <= 1 + (p.stages.stage1 - 1) / 28_800
    ensures Deliveries(TicksOf(visits), 2) <= 1 + (p.stages.stage2 - 1) / 14_400
    ensures Deliveries(TicksOf(visits), 3) <= 1 + (p.stages.stage3 - 1) / 3_600
    ensures Deliveries(TicksOf(visits), 4) <= 1
    ensures forall i, j :: 0 <= i <= j < |visits| && DeliveredIn(visits[i].trace).Some? && DeliveredIn(visits[j].trace).Some?
              ==> DeliveredIn(visits[i].trace).value <= DeliveredIn(visits[j].trace).value
  {
    hide DeliveredIn, Sound, Room;
    WatchIsRun(p, waived, visits);
    var ticks, rows := TicksOf(visits), RowsOf(visits);
    AlertsAreBounded(p, ticks, rows);
    forall i, j | 0 <= i <= j < |visits| && DeliveredIn(visits[i].trace).Some? && DeliveredIn(visits[j].trace).Some?
      ensures DeliveredIn(visits[i].trace).value <= DeliveredIn(visits[j].trace).value
    {
      AlertsNeverStepBack(p, ticks, rows, i, j);
    }
  }
}
