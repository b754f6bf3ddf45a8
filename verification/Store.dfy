/**
 * The registration tables and the transactions on them. A transaction either takes effect as a whole
 * or, when the database throws, not at all. Times are Unix seconds.
 */
module Store {
  import opened Prelude

  datatype Code =
    | Ok | Created | Updated | Removed | NonceReused | StaleRevision | OwnerConflict
    | InvalidRequest | InvalidSignature | StaleTimestamp | ContextMismatch | OwnershipFailed
    | DependencyUnavailable | DatabaseError | SignedAuthorizationRequired | SignedNotEnabled
    | SignedRequired | RateLimited | LegacyWindowExpired

  datatype Reply = Reply(ok: bool, code: Code, removed: nat)

  datatype Row = Row(
    owner: Pubkey, deviceToken: string, stage1: int, stage2: int, stage3: int,
    lastStage: int, lastNotifiedAt: int, createdAt: int, updatedAt: int,
    authVersion: int, revision: int, deviceTokenHash: Option<string>,
    signedAt: Option<int>, migrationStatus: string, lastAuthOp: Option<string>)

  datatype Db = Db(rows: map<Pubkey, Row>, nonces: map<(Pubkey, string), int>)

  datatype RegisterCommand = RegisterCommand(
    owner: Pubkey, vault: Pubkey, deviceToken: string, deviceTokenHash: string,
    stage1: int, stage2: int, stage3: int, revision: int, signedAt: int, nonce: string, nonceUsedAt: int)

  datatype DeregisterCommand = DeregisterCommand(owner: Pubkey, vault: Pubkey, nonce: string, nonceUsedAt: int, signedAt: int)

  datatype LegacyCommand = LegacyCommand(
    owner: Pubkey, vault: Pubkey, deviceToken: string, stage1: int, stage2: int, stage3: int, now: int)

  predicate IsSignedRow(row: Row) {
    row.authVersion >= 2 || row.migrationStatus == "signed"
  }

  function SignedRow(c: RegisterCommand, createdAt: int, lastStage: int, lastNotifiedAt: int): Row {
    Row(c.owner, c.deviceToken, c.stage1, c.stage2, c.stage3, lastStage, lastNotifiedAt, createdAt, c.nonceUsedAt,
        2, c.revision, Some(c.deviceTokenHash), Some(c.signedAt), "signed", Some("register"))
  }

  // ---- the transactions as functions ----

  /** Claim the nonce; then owner conflict and stale revision keep the claim but change no row. */
  function SignedRegister(db: Db, c: RegisterCommand): (Db, Reply) {
    if (c.owner, c.nonce) in db.nonces then (db, Reply(false, NonceReused, 0))
    else
      var claimed := db.(nonces := db.nonces[(c.owner, c.nonce) := c.nonceUsedAt]);
      if c.vault !in db.rows then
        (claimed.(rows := db.rows[c.vault := SignedRow(c, c.nonceUsedAt, 0, 0)]), Reply(true, Created, 0))
      else
        var row := db.rows[c.vault];
        if row.owner != c.owner then (claimed, Reply(false, OwnerConflict, 0))
        else if c.revision <= row.revision then (claimed, Reply(false, StaleRevision, 0))
        else
          (claimed.(rows := db.rows[c.vault := SignedRow(c, row.createdAt, row.lastStage, row.lastNotifiedAt)]),
           Reply(true, Updated, 0))
  }

  function SignedDeregister(db: Db, c: DeregisterCommand): (Db, Reply) {
    if (c.owner, c.nonce) in db.nonces then (db, Reply(false, NonceReused, 0))
    else
      var claimed := db.(nonces := db.nonces[(c.owner, c.nonce) := c.nonceUsedAt]);
      if c.vault !in db.rows then (claimed, Reply(true, Removed, 0))
      else if db.rows[c.vault].owner != c.owner then (claimed, Reply(false, OwnerConflict, 0))
      else (claimed.(rows := db.rows - {c.vault}), Reply(true, Removed, 1))
  }

  function LegacyRegister(db: Db, c: LegacyCommand): (Db, Reply) {
    if c.vault in db.rows && IsSignedRow(db.rows[c.vault]) then (db, Reply(false, SignedAuthorizationRequired, 0))
    else if c.vault !in db.rows then
      (db.(rows := db.rows[c.vault := Row(c.owner, c.deviceToken, c.stage1, c.stage2, c.stage3, 0, 0, c.now, c.now,
                                          1, 0, None, None, "legacy", Some("register"))]),
       Reply(true, Created, 0))
    else
      (db.(rows := db.rows[c.vault := db.rows[c.vault].(owner := c.owner, deviceToken := c.deviceToken,
                                                        stage1 := c.stage1, stage2 := c.stage2, stage3 := c.stage3,
                                                        updatedAt := c.now)]),
       Reply(true, Updated, 0))
  }

  function LegacyDelete(db: Db, vault: Pubkey, owner: Option<Pubkey>): (Db, Reply) {
    if vault !in db.rows then (db, Reply(true, Removed, 0))
    else if IsSignedRow(db.rows[vault]) then (db, Reply(false, SignedAuthorizationRequired, 0))
    else if owner.Some? && db.rows[vault].owner != owner.value then (db, Reply(true, Removed, 0))
    else (db.(rows := db.rows - {vault}), Reply(true, Removed, 1))
  }

  /** The vaults the owner-wide legacy delete removes. */
  function LegacyOwnedBy(db: Db, owner: Pubkey): set<Pubkey> {
    set v | v in db.rows && db.rows[v].owner == owner && db.rows[v].authVersion < 2 && db.rows[v].migrationStatus != "signed"
  }

  function LegacyDeleteByOwner(db: Db, owner: Pubkey): (Db, Reply) {
    (db.(rows := db.rows - LegacyOwnedBy(db, owner)), Reply(true, Removed, |LegacyOwnedBy(db, owner)|))
  }

  /** The poller's delete is not restricted to legacy rows. */
  function PollerDelete(db: Db, vault: Pubkey): Db {
    db.(rows := db.rows - {vault})
  }

  function UpdateNotifyState(db: Db, vault: Pubkey, lastStage: int, lastNotifiedAt: int): Db {
    if vault !in db.rows then db
    else db.(rows := db.rows[vault := db.rows[vault].(lastStage := lastStage, lastNotifiedAt := lastNotifiedAt)])
  }

  function PruneNonces(db: Db, olderThan: int): Db {
    db.(nonces := map k | k in db.nonces && db.nonces[k] >= olderThan :: db.nonces[k])
  }

  /** Any database fault rolls the transaction back. */
  function Transact(broken: bool, db: Db, outcome: (Db, Reply)): (Db, Reply) {
    if broken then (db, Reply(false, DatabaseError, 0)) else outcome
  }

  // ---- the object ----

  class RegistrationStore {
    var rows: map<Pubkey, Row>
    var nonces: map<(Pubkey, string), int>

    ghost function Contents(): Db
      reads this
    {
      Db(rows, nonces)
    }

    constructor ()
      ensures Contents() == Db(map[], map[])
    {
      rows, nonces := map[], map[];
    }

    /** `INSERT OR IGNORE`: true if the row was inserted. */
    method ClaimNonce(owner: Pubkey, nonce: string, usedAt: int) returns (claimed: bool)
      modifies this
      ensures claimed <==> (owner, nonce) !in old(nonces)
      ensures Contents() == if claimed then old(Contents()).(nonces := old(nonces)[(owner, nonce) := usedAt]) else old(Contents())
    {
      claimed := (owner, nonce) !in nonces;
      if claimed {
        nonces := nonces[(owner, nonce) := usedAt];
      }
    }

    method ApplySignedRegistration(c: RegisterCommand, broken: bool) returns (r: Reply)
      modifies this
      ensures (Contents(), r) == Transact(broken, old(Contents()), SignedRegister(old(Contents()), c))
    {
      var savedRows, savedNonces := rows, nonces;
      var claimed := ClaimNonce(c.owner, c.nonce, c.nonceUsedAt);
      if !claimed {
        r := Reply(false, NonceReused, 0);
      } else if c.vault in rows && rows[c.vault].owner != c.owner {
        r := Reply(false, OwnerConflict, 0);
      } else if c.vault in rows && c.revision <= rows[c.vault].revision {
        r := Reply(false, StaleRevision, 0);
      } else if c.vault !in rows {
        rows := rows[c.vault := SignedRow(c, c.nonceUsedAt, 0, 0)];
        r := Reply(true, Created, 0);
      } else {
        var row := rows[c.vault];
        rows := rows[c.vault := SignedRow(c, row.createdAt, row.lastStage, row.lastNotifiedAt)];
        r := Reply(true, Updated, 0);
      }
      if broken {
        rows, nonces := savedRows, savedNonces;
        r := Reply(false, DatabaseError, 0);
      }
    }

    method ApplySignedDeregistration(c: DeregisterCommand, broken: bool) returns (r: Reply)
      modifies this
      ensures (Contents(), r) == Transact(broken, old(Contents()), SignedDeregister(old(Contents()), c))
    {
      var savedRows, savedNonces := rows, nonces;
      var claimed := ClaimNonce(c.owner, c.nonce, c.nonceUsedAt);
      if !claimed {
        r := Reply(false, NonceReused, 0);
      } else if c.vault in rows && rows[c.vault].owner != c.owner {
        r := Reply(false, OwnerConflict, 0);
      } else {
        var removed := if c.vault in rows then 1 else 0;
        assert c.vault !in rows ==> rows - {c.vault} == rows;
        rows := rows - {c.vault};
        r := Reply(true, Removed, removed);
      }
      if broken {
        rows, nonces := savedRows, savedNonces;
        r := Reply(false, DatabaseError, 0);
      }
    }

    method ApplyLegacyRegistration(c: LegacyCommand, broken: bool) returns (r: Reply)
      modifies this
      ensures (Contents(), r) == Transact(broken, old(Contents()), LegacyRegister(old(Contents()), c))
    {
      if broken {
        return Reply(false, DatabaseError, 0);
      }
      if c.vault in rows && IsSignedRow(rows[c.vault]) {
        return Reply(false, SignedAuthorizationRequired, 0);
      }
      if c.vault !in rows {
        rows := rows[c.vault := Row(c.owner, c.deviceToken, c.stage1, c.stage2, c.stage3, 0, 0, c.now, c.now,
                                    1, 0, None, None, "legacy", Some("register"))];
        return Reply(true, Created, 0);
      }
      var row := rows[c.vault];
      rows := rows[c.vault := row.(owner := c.owner, deviceToken := c.deviceToken, stage1 := c.stage1,
                                   stage2 := c.stage2, stage3 := c.stage3, updatedAt := c.now)];
      r := Reply(true, Updated, 0);
    }

    method DeleteLegacyRegistration(vault: Pubkey, owner: Option<Pubkey>, broken: bool) returns (r: Reply)
      modifies this
      ensures (Contents(), r) == Transact(broken, old(Contents()), LegacyDelete(old(Contents()), vault, owner))
    {
      if broken {
        return Reply(false, DatabaseError, 0);
      }
      if vault !in rows {
        return Reply(true, Removed, 0);
      }
      if IsSignedRow(rows[vault]) {
        return Reply(false, SignedAuthorizationRequired, 0);
      }
      if owner.Some? && rows[vault].owner != owner.value {
        return Reply(true, Removed, 0);
      }
      rows := rows - {vault};
      r := Reply(true, Removed, 1);
    }

    method DeleteLegacyRegistrationsByOwner(owner: Pubkey, broken: bool) returns (r: Reply)
      modifies this
      ensures (Contents(), r) == Transact(broken, old(Contents()), LegacyDeleteByOwner(old(Contents()), owner))
    {
      if broken {
        return Reply(false, DatabaseError, 0);
      }
      var doomed := set v | v in rows && rows[v].owner == owner && rows[v].authVersion < 2 && rows[v].migrationStatus != "signed";
      assert doomed == LegacyOwnedBy(Contents(), owner);
      rows := rows - doomed;
      r := Reply(true, Removed, |doomed|);
    }

    method DeleteRegistration(vault: Pubkey)
      modifies this
      ensures Contents() == PollerDelete(old(Contents()), vault)
    {
      rows := rows - {vault};
    }

    method SetNotifyState(vault: Pubkey, lastStage: int, lastNotifiedAt: int)
      modifies this
      ensures Contents() == UpdateNotifyState(old(Contents()), vault, lastStage, lastNotifiedAt)
    {
      if vault in rows {
        rows := rows[vault := rows[vault].(lastStage := lastStage, lastNotifiedAt := lastNotifiedAt)];
      }
    }

    method Prune(olderThan: int)
      modifies this
      ensures Contents() == PruneNonces(old(Contents()), olderThan)
      ensures rows == old(rows)
      ensures forall k :: k in nonces <==> k in old(nonces) && old(nonces)[k] >= olderThan
      ensures forall k :: k in nonces ==> nonces[k] == old(nonces)[k]
    {
      nonces := map k | k in nonces && nonces[k] >= olderThan :: nonces[k];
    }

    /** One aggregate query. */
    method MigrationCounts() returns (total: nat, legacy: nat, signed: nat, anomalous: int)
      ensures (total, legacy, signed, anomalous) == Counts(Contents())
      ensures total == legacy + signed + anomalous && anomalous >= 0
      ensures anomalous == 0 <==> forall v :: v in rows ==> v in SignedVaults(Contents()) || v in LegacyVaults(Contents())
      ensures total == 0 <==> rows == map[]
    {
      AnomaliesCounted(Contents());
      total := |rows|;
      signed := |set v | v in rows && rows[v].authVersion >= 2 && rows[v].migrationStatus == "signed"|;
      legacy := |set v | v in rows && rows[v].authVersion < 2 && rows[v].migrationStatus == "legacy"|;
      anomalous := total - signed - legacy;
      assert SignedVaults(Contents()) == set v | v in rows && rows[v].authVersion >= 2 && rows[v].migrationStatus == "signed";
      assert LegacyVaults(Contents()) == set v | v in rows && rows[v].authVersion < 2 && rows[v].migrationStatus == "legacy";
    }
  }

  function SignedVaults(db: Db): set<Pubkey> {
    set v | v in db.rows && db.rows[v].authVersion >= 2 && db.rows[v].migrationStatus == "signed"
  }

  function LegacyVaults(db: Db): set<Pubkey> {
    set v | v in db.rows && db.rows[v].authVersion < 2 && db.rows[v].migrationStatus == "legacy"
  }

  function Counts(db: Db): (nat, nat, nat, int) {
    (|db.rows|, |LegacyVaults(db)|, |SignedVaults(db)|, |db.rows| - |SignedVaults(db)| - |LegacyVaults(db)|)
  }

  /** The two consistent shapes of a row; `hash` stands for SHA-256. */
  ghost predicate Consistent(hash: string -> string, row: Row) {
    || (row.authVersion == 2 && row.migrationStatus == "signed" && row.deviceTokenHash == Some(hash(row.deviceToken))
        && row.signedAt.Some? && row.revision > 0)
    || (row.authVersion == 1 && row.migrationStatus == "legacy" && row.deviceTokenHash == None
        && row.signedAt == None && row.revision == 0)
  }

  ghost predicate AllConsistent(hash: string -> string, db: Db) {
    forall v :: v in db.rows ==> Consistent(hash, db.rows[v])
  }

  /** The aggregate reports no anomaly exactly when every row is on one side of both tests. */
  lemma AnomaliesCounted(db: Db)
    ensures Counts(db).3 >= 0
    ensures Counts(db).3 == 0 <==> forall v :: v in db.rows ==> v in SignedVaults(db) || v in LegacyVaults(db)
  {
    var both := SignedVaults(db) + LegacyVaults(db);
    var rest := db.rows.Keys - both;
    assert SignedVaults(db) !! LegacyVaults(db);
    assert db.rows.Keys == both + rest;
    assert |db.rows| == |db.rows.Keys| == |both| + |rest|;
    assert rest == {} <==> forall v :: v in db.rows ==> v in both;
  }

  /** A legacy removal takes the named row, and no other, exactly if it is there, not signed, and its owner's if one is pinned. */
  lemma LegacyDeleteTakesOne(db: Db, vault: Pubkey, pin: Option<Pubkey>)
    ensures var (after, reply) := LegacyDelete(db, vault, pin);
            var takes := vault in db.rows && !IsSignedRow(db.rows[vault]) && (pin.Some? ==> db.rows[vault].owner == pin.value);
            && (forall v :: v in after.rows <==> v in db.rows && !(takes && v == vault))
            && (forall v :: v in after.rows ==> after.rows[v] == db.rows[v]) && after.nonces == db.nonces
            && reply.removed == (if takes then 1 else 0)
            && (reply.ok <==> !(vault in db.rows && IsSignedRow(db.rows[vault])))
  {
  }

  /** The owner-wide removal takes exactly the owner's rows that are not signed, and counts them. */
  lemma LegacyOwnerDeleteTakes(db: Db, owner: Pubkey)
    ensures var (after, reply) := LegacyDeleteByOwner(db, owner);
            && (forall v :: v in after.rows <==> v in db.rows && (db.rows[v].owner != owner || IsSignedRow(db.rows[v])))
            && (forall v :: v in after.rows ==> after.rows[v] == db.rows[v]) && after.nonces == db.nonces
            && reply.code == Removed && reply.removed + |after.rows| == |db.rows|
  {
    var gone := LegacyOwnedBy(db, owner);
    var kept := db.rows - gone;
    assert db.rows.Keys == gone + kept.Keys && gone !! kept.Keys;
    assert |kept| == |kept.Keys| && |db.rows| == |db.rows.Keys|;
  }

  /** Either mark of a signed row is enough to protect it from every legacy function, and without any mark each of them changes it. */
  lemma EitherMarkProtects(db: Db, c: LegacyCommand)
    requires c.vault in db.rows
    ensures var row := db.rows[c.vault];
            var marked := row.authVersion >= 2 || row.migrationStatus == "signed";
            && (marked <==> LegacyRegister(db, c) == (db, Reply(false, SignedAuthorizationRequired, 0)))
            && (marked <==> LegacyDelete(db, c.vault, None) == (db, Reply(false, SignedAuthorizationRequired, 0)))
            && (marked <==> c.vault in LegacyDelete(db, c.vault, None).0.rows)
            && (marked <==> c.vault in LegacyDeleteByOwner(db, row.owner).0.rows)
  {
  }
}
