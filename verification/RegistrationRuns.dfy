/**
 * Whole runs of the registration authority: signed and legacy requests, the poller's row updates and
 * the nonce prune, in any order, under a clock that does not run backwards, with database faults anywhere.
 * One request's authorisation and its transaction are one instant.
 */
module RegistrationRuns {
  import opened Prelude
  import opened AuthMessage
  import opened Store
  import opened Auth

  datatype Op =
    | PostRegister(body: Body, ownership: Ownership)
    | PostDeregister(body: Body, ownership: Ownership)
    | LegacyUpsert(command: LegacyCommand)
    | LegacyRemove(vault: Pubkey, pin: Option<Pubkey>)
    | LegacyRemoveByOwner(owner: Pubkey)
    | PollerDrop(vault: Pubkey)
    | PollerNotify(vault: Pubkey, lastStage: int, lastNotifiedAt: int)
    | PruneOldNonces

  datatype Event = Event(now: int, op: Op, broken: bool)

  /** The deployment; `retain` is how long the prune keeps a nonce, twice the signature window in the server. */
  datatype Config = Config(x: Expected, k: Crypto, retain: int)

  const SERVER_RETAIN := 2 * SIG_WINDOW_SEC

  function RowOf(db: Db, vault: Pubkey): Option<Row> {
    if vault in db.rows then Some(db.rows[vault]) else None
  }

  function AfterRegister(c: Config, db: Db, e: Event): (Db, Reply)
    requires e.op.PostRegister?
  {
    match AuthorizeRegister(e.op.body, c.x, c.k, e.op.ownership, e.now)
    case Granted(command) => Transact(e.broken, db, SignedRegister(db, command))
    case Denied(code) => (db, Reply(false, code, 0))
  }

  function AfterDeregister(c: Config, db: Db, e: Event): (Db, Reply)
    requires e.op.PostDeregister?
  {
    var row := RowOf(db, TextOf(Get(e.op.body, "vault")));
    match AuthorizeDeregister(e.op.body, c.x, c.k, row, e.op.ownership, e.now)
    case Granted(command) => Transact(e.broken, db, SignedDeregister(db, command))
    case Denied(code) => (db, Reply(false, code, 0))
  }

  function Step(c: Config, db: Db, e: Event): (Db, Reply) {
    match e.op
    case PostRegister(_, _) => AfterRegister(c, db, e)
    case PostDeregister(_, _) => AfterDeregister(c, db, e)
    case LegacyUpsert(command) => Transact(e.broken, db, LegacyRegister(db, command))
    case LegacyRemove(vault, pin) => Transact(e.broken, db, LegacyDelete(db, vault, pin))
    case LegacyRemoveByOwner(owner) => Transact(e.broken, db, LegacyDeleteByOwner(db, owner))
    case PollerDrop(vault) => Transact(e.broken, db, (PollerDelete(db, vault), Reply(true, Removed, 0)))
    case PollerNotify(vault, stage, at) =>
      Transact(e.broken, db, (UpdateNotifyState(db, vault, stage, at), Reply(true, Updated, 0)))
    case PruneOldNonces => Transact(e.broken, db, (PruneNonces(db, e.now - c.retain), Reply(true, Ok, 0)))
  }

  /** The database before event i of the run. */
  function At(c: Config, db: Db, run: seq<Event>, i: nat): Db
    requires i <= |run|
  {
    if i == 0 then db else Step(c, At(c, db, run, i - 1), run[i - 1]).0
  }

  lemma AtNext(c: Config, db: Db, run: seq<Event>, i: nat)
    requires i < |run|
    ensures At(c, db, run, i + 1) == Step(c, At(c, db, run, i), run[i]).0
  {
  }

  function ReplyAt(c: Config, db: Db, run: seq<Event>, i: nat): Reply
    requires i < |run|
  {
    Step(c, At(c, db, run, i), run[i]).1
  }

  ghost predicate ClockOrdered(run: seq<Event>) {
    forall i, j :: 0 <= i < j < |run| ==> run[i].now <= run[j].now
  }

  // ---- single use ----

  /** What identifies a signed request to the replay protection. */
  datatype Envelope = Envelope(owner: Pubkey, nonce: string, timestamp: int)

  function EnvelopeOf(op: Op): Option<Envelope> {
    if op.PostRegister? || op.PostDeregister? then
      Some(Envelope(TextOf(Get(op.body, "owner")), TextOf(Get(op.body, "nonce")), NumberOf(Get(op.body, "timestamp"))))
    else None
  }

  /** The nonce is on record with a claim time from which it outlives its freshness. */
  ghost predicate Remembered(db: Db, env: Envelope, claimedAt: int) {
    (env.owner, env.nonce) in db.nonces && db.nonces[(env.owner, env.nonce)] == claimedAt
  }

  /** A signed request that claims its nonce is fresh at that instant. */
  lemma EffectClaimsNonce(c: Config, db: Db, e: Event)
    requires EnvelopeOf(e.op).Some? && Claims(c, db, e)
    ensures var env := EnvelopeOf(e.op).value;
            && (env.owner, env.nonce) !in db.nonces
            && Remembered(Step(c, db, e).0, env, e.now)
            && -600 <= e.now - env.timestamp <= 600
  {
    hide AuthorizeRegister, AuthorizeDeregister;
    if e.op.PostRegister? {
      RegisterCommandOfBody(c, e);
    } else {
      DeregisterCommandOfBody(c, db, e);
    }
  }

  /** The step adds the envelope's nonce to the table. */
  predicate Claims(c: Config, db: Db, e: Event)
    requires EnvelopeOf(e.op).Some?
  {
    var env := EnvelopeOf(e.op).value;
    (env.owner, env.nonce) !in db.nonces && (env.owner, env.nonce) in Step(c, db, e).0.nonces
  }

  /** A signed request changes the rows only if it claims its nonce. */
  lemma NoClaimNoChange(c: Config, db: Db, e: Event)
    requires EnvelopeOf(e.op).Some? && !Claims(c, db, e)
    ensures Step(c, db, e).0 == db
  {
    hide AuthorizeRegister, AuthorizeDeregister;
    if e.op.PostRegister? {
      RegisterCommandOfBody(c, e);
    } else {
      DeregisterCommandOfBody(c, db, e);
    }
  }

  /** A granted command carries the envelope of its request. */
  lemma RegisterCommandOfBody(c: Config, e: Event)
    requires e.op.PostRegister?
    ensures var a := AuthorizeRegister(e.op.body, c.x, c.k, e.op.ownership, e.now); var env := EnvelopeOf(e.op).value;
            a.Granted? ==>
              && (a.command.owner, a.command.nonce) == (env.owner, env.nonce) && a.command.nonceUsedAt == e.now
              && -SIG_WINDOW_SEC <= e.now - env.timestamp <= SIG_WINDOW_SEC
  {
  }

  lemma DeregisterCommandOfBody(c: Config, db: Db, e: Event)
    requires e.op.PostDeregister?
    ensures var a := AuthorizeDeregister(e.op.body, c.x, c.k, RowOf(db, TextOf(Get(e.op.body, "vault"))), e.op.ownership, e.now);
            var env := EnvelopeOf(e.op).value;
            a.Granted? ==>
              && (a.command.owner, a.command.nonce) == (env.owner, env.nonce) && a.command.nonceUsedAt == e.now
              && -SIG_WINDOW_SEC <= e.now - env.timestamp <= SIG_WINDOW_SEC
  {
  }

  /** The server's prune forgets no claim whose envelope is still fresh. */
  lemma PruneSparesFresh(db: Db, now: int, env: Envelope, claimedAt: int)
    requires Remembered(db, env, claimedAt)
    requires -SIG_WINDOW_SEC <= claimedAt - env.timestamp <= SIG_WINDOW_SEC
    ensures Remembered(PruneNonces(db, now - SERVER_RETAIN), env, claimedAt) || now - env.timestamp > SIG_WINDOW_SEC
  {
  }

  lemma StepRemembers(c: Config, db: Db, e: Event, env: Envelope, claimedAt: int)
    requires Remembered(db, env, claimedAt) && e.now - c.retain <= claimedAt
    ensures Remembered(Step(c, db, e).0, env, claimedAt)
  {
  }

  lemma {:induction false} RunRemembers(c: Config, db: Db, run: seq<Event>, i: nat, j: nat, env: Envelope, claimedAt: int)
    requires i <= j <= |run| && ClockOrdered(run)
    requires Remembered(At(c, db, run, i), env, claimedAt)
    requires j > i ==> run[j - 1].now - c.retain <= claimedAt
    ensures Remembered(At(c, db, run, j), env, claimedAt)
  {
    if i < j {
      if i < j - 1 {
        assert run[j - 2].now <= run[j - 1].now;
      }
      RunRemembers(c, db, run, i, j - 1, env, claimedAt);
      StepRemembers(c, At(c, db, run, j - 1), run[j - 1], env, claimedAt);
    }
  }

  /**
   * Main result: over every run, a signed envelope changes the database at most once, even if the row was
   * deregistered or dropped in between, provided the prune keeps nonces for twice the signature window.
   */
  lemma EnvelopeSingleUse(c: Config, db: Db, run: seq<Event>, i: nat, j: nat)
    requires i < j < |run| && ClockOrdered(run) && c.retain >= 1200
    requires EnvelopeOf(run[i].op).Some? && EnvelopeOf(run[j].op) == EnvelopeOf(run[i].op)
    requires Claims(c, At(c, db, run, i), run[i])
    ensures Step(c, At(c, db, run, j), run[j]).0 == At(c, db, run, j)
  {
    hide Step, AuthorizeRegister, AuthorizeDeregister;
    var env := EnvelopeOf(run[i].op).value;
    EffectClaimsNonce(c, At(c, db, run, i), run[i]);
    if Claims(c, At(c, db, run, j), run[j]) {
      EffectClaimsNonce(c, At(c, db, run, j), run[j]);
      assert run[j].now <= env.timestamp + SIG_WINDOW_SEC <= run[i].now + SERVER_RETAIN;
      assert run[j - 1].now <= run[j].now;
      RunRemembers(c, db, run, i + 1, j, env, run[i].now);
      assert false;
    }
    NoClaimNoChange(c, At(c, db, run, j), run[j]);
  }

  /**
   * The margin is exact: with any shorter retention, every registration that is accepted at the early edge
   * of its window is accepted again, from the same body, after a drop of the row and a prune.
   */
  lemma ShorterRetentionReplays(c: Config, b: Body, now: int)
    requires c.retain < 1200
    requires AuthorizeRegister(b, c.x, c.k, Owned, now).Granted?
    requires AuthorizeRegister(b, c.x, c.k, Owned, now).command.signedAt == now + 600
    ensures var vault := TextOf(Get(b, "vault"));
            var late := now + SERVER_RETAIN;
            var run := [Event(now, PostRegister(b, Owned), false), Event(late, PollerDrop(vault), false),
                        Event(late, PruneOldNonces, false), Event(late, PostRegister(b, Owned), false)];
            var empty := Db(map[], map[]);
            && ClockOrdered(run)
            && ReplyAt(c, empty, run, 0).code == Created
            && ReplyAt(c, empty, run, 3).code == Created
  {
    var late := now + SERVER_RETAIN;
    var empty := Db(map[], map[]);
    var command := AuthorizeRegister(b, c.x, c.k, Owned, now).command;
    var run := [Event(now, PostRegister(b, Owned), false), Event(late, PollerDrop(command.vault), false),
                Event(late, PruneOldNonces, false), Event(late, PostRegister(b, Owned), false)];
    GrantDependsOnFreshness(b, c.x, c.k, now, late);
    GrantedAgain(b, c.x, c.k, now, late);
    hide At, Step, AuthorizeRegister, SignedRegister;
    AtThree(c, empty, run);
    GrantedStep(c, empty, b, now);
    var db1 := Step(c, empty, run[0]).0;
    DropAndPruneForget(c, db1, command.vault, late);
    FirstRegisters(empty, command);
    var db3 := At(c, empty, run, 3);
    GrantedStep(c, db3, b, late);
    FirstRegisters(db3, command.(nonceUsedAt := late));
  }

  lemma AtThree(c: Config, db: Db, run: seq<Event>)
    requires |run| >= 3
    ensures At(c, db, run, 0) == db
    ensures At(c, db, run, 3) == Step(c, Step(c, Step(c, db, run[0]).0, run[1]).0, run[2]).0
  {
    hide Step;
    AtNext(c, db, run, 0);
    AtNext(c, db, run, 1);
    AtNext(c, db, run, 2);
  }

  lemma GrantedStep(c: Config, db: Db, b: Body, now: int)
    requires AuthorizeRegister(b, c.x, c.k, Owned, now).Granted?
    ensures Step(c, db, Event(now, PostRegister(b, Owned), false)) == SignedRegister(db, AuthorizeRegister(b, c.x, c.k, Owned, now).command)
  {
    hide AuthorizeRegister, SignedRegister;
  }

  lemma DropAndPruneForget(c: Config, db: Db, vault: Pubkey, late: int)
    ensures var dropped := Step(c, db, Event(late, PollerDrop(vault), false)).0;
            Step(c, dropped, Event(late, PruneOldNonces, false)).0 == PruneNonces(PollerDelete(db, vault), late - c.retain)
  {
  }

  lemma FirstRegisters(db: Db, c: RegisterCommand)
    requires (c.owner, c.nonce) !in db.nonces && c.vault !in db.rows
    ensures SignedRegister(db, c).1.code == Created
    ensures var after := SignedRegister(db, c).0;
            && after.nonces == db.nonces[(c.owner, c.nonce) := c.nonceUsedAt] && after.rows.Keys == db.rows.Keys + {c.vault}
  {
  }

  // ---- rows ----

  predicate IsLegacyOp(op: Op) {
    op.LegacyUpsert? || op.LegacyRemove? || op.LegacyRemoveByOwner?
  }

  /** What one step may do to a signed row. */
  ghost predicate KeepsSigned(before: Row, after: Option<Row>, e: Event) {
    match e.op
    case PollerDrop(_) => after.None? || after == Some(before)
    case PostDeregister(body, _) =>
      after == Some(before) || (after.None? && TextOf(Get(body, "owner")) == before.owner)
    case PollerNotify(_, stage, at) =>
      after == Some(before) || after == Some(before.(lastStage := stage, lastNotifiedAt := at))
    case PostRegister(_, _) =>
      || after == Some(before)
      || (after.Some? && IsSignedRow(after.value) && after.value.owner == before.owner
          && after.value.revision > before.revision
          && after.value.createdAt == before.createdAt
          && after.value.lastStage == before.lastStage && after.value.lastNotifiedAt == before.lastNotifiedAt)
    case _ => after == Some(before)
  }

  /**
   * A signed row survives every legacy write and prune unchanged; a signed registration of its owner may
   * replace it with a strictly larger revision; only its owner's signature or the poller removes it.
   */
  lemma StepKeepsSigned(c: Config, db: Db, e: Event, vault: Pubkey)
    requires vault in db.rows && IsSignedRow(db.rows[vault])
    ensures KeepsSigned(db.rows[vault], RowOf(Step(c, db, e).0, vault), e)
  {
    hide AuthorizeRegister;
  }

  lemma RegisterKeepsConsistent(c: Config, db: Db, e: Event)
    requires e.op.PostRegister? && AllConsistent(c.k.hash, db)
    ensures AllConsistent(c.k.hash, AfterRegister(c, db, e).0)
  {
    hide AuthorizeRegister, SignedRegister, AllConsistent, RegisterMessageV2, ParseRegister;
    var answer := AuthorizeRegister(e.op.body, c.x, c.k, e.op.ownership, e.now);
    if answer.Granted? {
      GrantedRegisterIsSigned(e.op.body, c.x, c.k, e.op.ownership, e.now);
      SignedRegisterKeepsConsistent(c.k.hash, db, answer.command);
    }
  }

  lemma SignedRegisterKeepsConsistent(hash: string -> string, db: Db, c: RegisterCommand)
    requires AllConsistent(hash, db) && c.deviceTokenHash == hash(c.deviceToken) && c.revision > 0
    ensures AllConsistent(hash, SignedRegister(db, c).0)
  {
  }

  /** Every row a run can reach is consistently signed or consistently legacy. */
  lemma StepKeepsConsistent(c: Config, db: Db, e: Event)
    requires AllConsistent(c.k.hash, db)
    ensures AllConsistent(c.k.hash, Step(c, db, e).0)
  {
    hide AuthorizeRegister, AuthorizeDeregister, AfterRegister;
    if e.op.PostRegister? {
      RegisterKeepsConsistent(c, db, e);
    }
  }

  lemma {:induction false} RunKeepsConsistent(c: Config, db: Db, run: seq<Event>, i: nat)
    requires i <= |run| && AllConsistent(c.k.hash, db)
    ensures AllConsistent(c.k.hash, At(c, db, run, i))
  {
    if i > 0 {
      RunKeepsConsistent(c, db, run, i - 1);
      StepKeepsConsistent(c, At(c, db, run, i - 1), run[i - 1]);
    }
  }

  /** The operator's count of anomalous rows therefore stays zero. */
  lemma NoAnomalyEver(c: Config, db: Db, run: seq<Event>, i: nat)
    requires i <= |run| && AllConsistent(c.k.hash, db)
    ensures Counts(At(c, db, run, i)).3 == 0
  {
    RunKeepsConsistent(c, db, run, i);
    AnomaliesCounted(At(c, db, run, i));
  }

  /** The vault has a row before every event from i to j. */
  ghost predicate PresentThroughout(c: Config, db: Db, run: seq<Event>, vault: Pubkey, i: nat, j: nat)
    requires i <= j <= |run|
  {
    forall n :: i <= n <= j ==> vault in At(c, db, run, n).rows
  }

  /** Successful signed registrations of the vault among events i to j - 1. */
  function Registrations(c: Config, db: Db, run: seq<Event>, vault: Pubkey, i: nat, j: nat): nat
    requires i <= j <= |run|
  {
    if i == j then 0
    else
      Registrations(c, db, run, vault, i, j - 1)
      + (if run[j - 1].op.PostRegister? && TextOf(Get(run[j - 1].op.body, "vault")) == vault
            && ReplyAt(c, db, run, j - 1).ok then 1 else 0)
  }

  /**
   * Main result: as long as a signed row is not removed it stays signed and keeps its owner, and its
   * revision grows by at least one with every registration that succeeds.
   */
  lemma {:induction false} SignedRowOverRun(c: Config, db: Db, run: seq<Event>, vault: Pubkey, i: nat, j: nat)
    requires i <= j <= |run| && PresentThroughout(c, db, run, vault, i, j)
    requires IsSignedRow(At(c, db, run, i).rows[vault])
    ensures var before := At(c, db, run, i).rows[vault];
            var after := At(c, db, run, j).rows[vault];
            && IsSignedRow(after) && after.owner == before.owner
            && after.revision >= before.revision + Registrations(c, db, run, vault, i, j)
  {
    hide Step, IsSignedRow;
    if i < j {
      SignedRowOverRun(c, db, run, vault, i, j - 1);
      var s := At(c, db, run, j - 1);
      assert vault in s.rows && vault in At(c, db, run, j).rows;
      SignedStep(c, s, run[j - 1], vault);
    }
  }

  lemma SignedStep(c: Config, db: Db, e: Event, vault: Pubkey)
    requires vault in db.rows && IsSignedRow(db.rows[vault]) && vault in Step(c, db, e).0.rows
    ensures var after := Step(c, db, e).0.rows[vault];
            && IsSignedRow(after) && after.owner == db.rows[vault].owner
            && after.revision >= db.rows[vault].revision
            && (e.op.PostRegister? && TextOf(Get(e.op.body, "vault")) == vault && Step(c, db, e).1.ok ==>
                  after.revision > db.rows[vault].revision)
  {
    StepKeepsSigned(c, db, e, vault);
  }

  /** Through any run of legacy writes, whatever they name, a signed row does not change at all. */
  lemma {:induction false} LegacyRunsLeaveSignedRows(c: Config, db: Db, run: seq<Event>, vault: Pubkey, i: nat)
    requires i <= |run| && forall n :: 0 <= n < |run| ==> IsLegacyOp(run[n].op)
    requires vault in db.rows && IsSignedRow(db.rows[vault])
    ensures RowOf(At(c, db, run, i), vault) == Some(db.rows[vault])
  {
    if i > 0 {
      LegacyRunsLeaveSignedRows(c, db, run, vault, i - 1);
      StepKeepsSigned(c, At(c, db, run, i - 1), run[i - 1], vault);
    }
  }

  /**
   * A removal resets the revision: after the owner's own deregistration a registration with a lower
   * revision than before is accepted, so from then on only the nonces stand against an old envelope.
   */
  lemma DeregistrationResetsRevision(c: RegisterCommand, d: DeregisterCommand, lower: RegisterCommand, db: Db)
    requires c.vault !in db.rows && d.vault == c.vault == lower.vault && d.owner == c.owner == lower.owner
    requires lower.revision < c.revision
    requires c.nonce != d.nonce && lower.nonce != d.nonce && lower.nonce != c.nonce
    requires (c.owner, c.nonce) !in db.nonces && (c.owner, d.nonce) !in db.nonces && (c.owner, lower.nonce) !in db.nonces
    ensures SignedRegister(SignedRegister(db, c).0, lower).1.code == StaleRevision
    ensures SignedRegister(SignedDeregister(SignedRegister(db, c).0, d).0, lower).1.code == Created
  {
  }
}
