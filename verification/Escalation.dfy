/** The escalation clock of one vault, and what a row lets through over whole runs of ticks. Times are seconds. */
module Escalation {
  import opened Prelude

  /** Seconds overdue before stage 2, stage 3 and execution begin add up from these three lengths. */
  datatype Stages = Stages(stage1: int, stage2: int, stage3: int)

  datatype Clock = Clock(stage: nat, secondsOverdue: int, secondsToExecution: int)

  /** What a row remembers of the last alert. */
  datatype Notified = Notified(lastStage: int, lastNotifiedAt: int)

  const CLEARED := Notified(0, 0)

  function ComputeStage(lastHeartbeat: int, interval: int, s: Stages, now: int): Clock {
    var overdue := Max(0, now - (lastHeartbeat + interval));
    var grace := s.stage1 + s.stage2 + s.stage3;
    var stage := if overdue <= 0 then 0
                 else if overdue < s.stage1 then 1
                 else if overdue < s.stage1 + s.stage2 then 2
                 else if overdue < grace then 3
                 else 4;
    Clock(stage, overdue, Max(0, grace - overdue))
  }

  /** STAGE_RECUR_INTERVAL, with the fallback that the poller adds. */
  function RecurInterval(stage: int): int {
    if stage == 1 then 28_800 else if stage == 2 then 14_400 else 3_600
  }

  /** Whether an alert for `stage` is due on a row. */
  predicate Due(stage: nat, r: Notified, now: int) {
    || stage > r.lastStage
    || (stage == r.lastStage && 1 <= stage <= 3 && now - r.lastNotifiedAt >= RecurInterval(stage))
    || (stage == 4 && r.lastStage != 4)
  }

  // ---- runs of ticks over one heartbeat ----

  datatype Plan = Plan(lastHeartbeat: int, interval: int, stages: Stages)

  predicate Positive(p: Plan) {
    p.stages.stage1 > 0 && p.stages.stage2 > 0 && p.stages.stage3 > 0
  }

  function StageAt(p: Plan, now: int): nat {
    ComputeStage(p.lastHeartbeat, p.interval, p.stages, now).stage
  }

  /**
   * What one tick may do to a row that it leaves in place: record a delivered alert that was due, clear
   * the row when the owner is on time, or nothing at all.
   */
  predicate NotifyStep(p: Plan, before: Notified, now: int, after: Notified, delivered: Option<nat>) {
    var stage := StageAt(p, now);
    match delivered
    case Some(k) => k == stage && stage != 0 && Due(stage, before, now) && after == Notified(stage, now)
    case None => after == before || (stage == 0 && after == CLEARED)
  }

  datatype Tick = Tick(now: int, delivered: Option<nat>)

  /** Ticks one after another with a clock that does not run backwards, from a cleared row. */
  ghost predicate IsRun(p: Plan, ticks: seq<Tick>, rows: seq<Notified>) {
    && |rows| == |ticks| + 1 && rows[0] == CLEARED
    && (forall i, j :: 0 <= i <= j < |ticks| ==> ticks[i].now <= ticks[j].now)
    && (forall i :: 0 <= i < |ticks| ==> NotifyStep(p, rows[i], ticks[i].now, rows[i + 1], ticks[i].delivered))
  }

  /** How many alerts of stage k were delivered. */
  function Deliveries(ticks: seq<Tick>, k: nat): nat {
    if ticks == [] then 0
    else Deliveries(ticks[..|ticks| - 1], k) + if ticks[|ticks| - 1].delivered == Some(k) then 1 else 0
  }

  /** The first instant of stage k, and how many seconds it lasts. */
  function Opens(p: Plan, k: nat): int {
    p.lastHeartbeat + p.interval
    + if k <= 1 then 1 else if k == 2 then p.stages.stage1 else p.stages.stage1 + p.stages.stage2
  }

  function Lasts(p: Plan, k: nat): int {
    if k == 1 then p.stages.stage1 - 1 else if k == 2 then p.stages.stage2 else p.stages.stage3
  }

  /** The most alerts that stage k leaves room for. */
  function Room(p: Plan, k: nat): int {
    if Lasts(p, k) <= 0 then 0 else 1 + (Lasts(p, k) - 1) / RecurInterval(k)
  }

  /** A stage is exactly a span of instants. */
  lemma StageIsSpan(p: Plan, k: nat, now: int)
    requires Positive(p) && 1 <= k <= 3
    ensures StageAt(p, now) == k <==> Opens(p, k) <= now < Opens(p, k) + Lasts(p, k)
  {
  }

  /** A clock that does not run backwards never lowers the stage. */
  lemma StageNeverFalls(p: Plan, a: int, b: int)
    requires Positive(p) && a <= b
    ensures StageAt(p, a) <= StageAt(p, b) <= 4
  {
  }

  /** A heartbeat that is on time puts the vault back to stage 0, wherever it was. */
  lemma HeartbeatResets(p: Plan, heartbeat: int, now: int)
    ensures StageAt(p.(lastHeartbeat := heartbeat), now) == 0 <==> now <= heartbeat + p.interval
  {
  }

  /** What a row and the number of alerts of stage k know about each other. */
  ghost predicate Accounted(p: Plan, row: Notified, sent: nat, k: nat) {
    && (row.lastStage < k ==> sent == 0)
    && (row.lastStage == k ==> sent >= 1 && StageAt(p, row.lastNotifiedAt) == k)
    && (row.lastStage == k && k <= 3 ==> (sent - 1) * RecurInterval(k) <= row.lastNotifiedAt - Opens(p, k))
    && (row.lastStage >= k && k <= 3 ==> 1 <= k && sent <= Room(p, k))
    && (k == 4 ==> sent <= 1)
  }

  /** One more alert in a stage that has room for it. */
  lemma OneMoreFits(p: Plan, k: nat, sent: nat, previous: int, now: int)
    requires Positive(p) && 1 <= k <= 3 && StageAt(p, now) == k
    requires sent == 0 || (now - previous >= RecurInterval(k) && (sent - 1) * RecurInterval(k) <= previous - Opens(p, k))
    ensures sent * RecurInterval(k) <= now - Opens(p, k)
    ensures sent + 1 <= Room(p, k)
  {
    StageIsSpan(p, k, now);
    var r := RecurInterval(k);
    assert sent > 0 ==> sent * r == (sent - 1) * r + r;
    assert sent * r <= Lasts(p, k) - 1;
    DivBound(sent, Lasts(p, k) - 1, r);
  }

  lemma DivBound(n: int, total: int, r: int)
    requires r > 0 && n * r <= total
    ensures n <= total / r
  {
    var d := total / r + 1 - n;
    assert d * r == (total / r) * r + r - n * r > 0;
    assert d > 0;
  }

  lemma {:induction false} RunAccounted(p: Plan, ticks: seq<Tick>, rows: seq<Notified>, k: nat)
    requires Positive(p) && IsRun(p, ticks, rows) && 1 <= k <= 4
    ensures Accounted(p, rows[|ticks|], Deliveries(ticks, k), k)
    ensures 0 <= rows[|ticks|].lastStage <= 4
    ensures ticks != [] ==> rows[|ticks|].lastStage <= StageAt(p, ticks[|ticks| - 1].now)
  {
    if ticks != [] {
      var n := |ticks| - 1;
      var before, tick, after := rows[n], ticks[n], rows[n + 1];
      RunAccounted(p, ticks[..n], rows[..n + 1], k);
      assert NotifyStep(p, before, tick.now, after, tick.delivered);
      if n > 0 {
        StageNeverFalls(p, ticks[n - 1].now, tick.now);
      }
      if tick.delivered == Some(k) && k <= 3 {
        OneMoreFits(p, k, Deliveries(ticks[..n], k), before.lastNotifiedAt, tick.now);
      }
    }
  }

  /**
   * Main result: over every run of ticks on one heartbeat, from a cleared row, stage k in 1..3 is delivered
   * at most `Room` times, which is never more than 1 + (length - 1) / recur interval, and stage 4 at most once.
   */
  lemma AlertsAreBounded(p: Plan, ticks: seq<Tick>, rows: seq<Notified>)
    requires Positive(p) && IsRun(p, ticks, rows)
    ensures Deliveries(ticks, 1) <= Room(p, 1) <= 1 + (p.stages.stage1 - 1) / 28_800
    ensures Deliveries(ticks, 2) <= Room(p, 2) <= 1 + (p.stages.stage2 - 1) / 14_400
    ensures Deliveries(ticks, 3) <= Room(p, 3) <= 1 + (p.stages.stage3 - 1) / 3_600
    ensures Deliveries(ticks, 4) <= 1
  {
    forall k: nat | 1 <= k <= 4 ensures Accounted(p, rows[|ticks|], Deliveries(ticks, k), k) {
      RunAccounted(p, ticks, rows, k);
    }
  }

  /** The alerts of a run never step back to an earlier stage. */
  lemma {:induction false} AlertsNeverStepBack(p: Plan, ticks: seq<Tick>, rows: seq<Notified>, i: nat, j: nat)
    requires Positive(p) && IsRun(p, ticks, rows) && i <= j < |ticks|
    requires ticks[i].delivered.Some? && ticks[j].delivered.Some?
    ensures 1 <= ticks[i].delivered.value <= ticks[j].delivered.value <= 4
  {
    assert NotifyStep(p, rows[i], ticks[i].now, rows[i + 1], ticks[i].delivered);
    assert NotifyStep(p, rows[j], ticks[j].now, rows[j + 1], ticks[j].delivered);
    StageNeverFalls(p, ticks[i].now, ticks[j].now);
  }

  // ---- the bound is the least one ----

  /** Ticks exactly one recur interval apart, from the first instant of stage k. */
  function Drumbeat(p: Plan, k: nat, n: nat): seq<Tick> {
    seq(n, i => Tick(Opens(p, k) + i * RecurInterval(k), Some(k)))
  }

  function DrumbeatRows(p: Plan, k: nat, n: nat): seq<Notified> {
    seq(n + 1, i => if i == 0 then CLEARED else Notified(k, Opens(p, k) + (i - 1) * RecurInterval(k)))
  }

  lemma {:induction false} DrumbeatCounts(p: Plan, k: nat, n: nat)
    ensures Deliveries(Drumbeat(p, k, n), k) == n
  {
    if n > 0 {
      DrumbeatCounts(p, k, n - 1);
      assert Drumbeat(p, k, n)[..n - 1] == Drumbeat(p, k, n - 1);
    }
  }

  /** Every plan has a run that delivers stage k exactly `Room` times. */
  lemma AlertBoundIsReached(p: Plan, k: nat)
    requires Positive(p) && 1 <= k <= 3
    ensures Room(p, k) == if Lasts(p, k) <= 0 then 0
                          else 1 + (Lasts(p, k) - 1) / (if k == 1 then 28_800 else if k == 2 then 14_400 else 3_600)
    ensures Room(p, k) >= 0
    ensures IsRun(p, Drumbeat(p, k, Room(p, k)), DrumbeatRows(p, k, Room(p, k)))
    ensures Deliveries(Drumbeat(p, k, Room(p, k)), k) == Room(p, k)
  {
    var n, r := Room(p, k), RecurInterval(k);
    var ticks, rows := Drumbeat(p, k, n), DrumbeatRows(p, k, n);
    DrumbeatCounts(p, k, n);
    forall i | 0 <= i < n ensures NotifyStep(p, rows[i], ticks[i].now, rows[i + 1], ticks[i].delivered) {
      DivFloor(i, Lasts(p, k) - 1, r);
      StageIsSpan(p, k, ticks[i].now);
      assert i > 0 ==> i * r == (i - 1) * r + r;
    }
    forall i, j | 0 <= i <= j < n ensures ticks[i].now <= ticks[j].now {
      assert (j - i) * r >= 0;
      assert j * r == i * r + (j - i) * r;
    }
  }

  lemma DivFloor(i: int, total: int, r: int)
    requires r > 0 && 0 <= i <= total / r
    ensures 0 <= i * r <= total
  {
    assert (total / r) * r <= total;
    assert (total / r - i) * r >= 0;
    assert (total / r) * r == i * r + (total / r - i) * r;
  }

  /** The countdown is the time to the last stage: it is reached when it has run out, and not before. */
  lemma CountdownEndsInExecution(p: Plan, now: int, later: int)
    requires Positive(p) && StageAt(p, now) != 0 && now <= later
    ensures var left := ComputeStage(p.lastHeartbeat, p.interval, p.stages, now).secondsToExecution;
            StageAt(p, later) == 4 <==> later >= now + left
    ensures ComputeStage(p.lastHeartbeat, p.interval, p.stages, now).secondsOverdue == now - (p.lastHeartbeat + p.interval)
  {
  }
}
