/**
 * The register and deregister handlers: rate limits first, then the signed or the legacy path. A request
 * that carries any field of the signed envelope never reaches the legacy path.
 */
module Routes {
  import opened Prelude
  import opened Store
  import opened Auth
  import opened AuthMessage
  import opened RegistrationRuns
  import L = Limiter
  import T = Transition

  const V2_ENVELOPE_FIELDS: seq<string> :=
    ["version", "cluster", "programId", "audience", "action", "revision", "timestamp", "nonce", "signature"]

  predicate IsSignedAttempt(body: Body) {
    exists i :: 0 <= i < |V2_ENVELOPE_FIELDS| && V2_ENVELOPE_FIELDS[i] in body
  }

  /** What the deployment fixes. `isKey` accepts text that parses as a public key. */
  datatype Deps = Deps(
    mode: T.Mode, until: Option<int>, c: Config, isKey: string -> bool, toPositive: Js -> Option<int>)

  /** `secretOk` is what the shared-secret header amounts to; it influences nothing but what the handler does with it. */
  datatype Request = Request(ip: string, body: Body, secretOk: bool)

  /** What the world answers during one request: clocks, the ownership verifiers and the database. */
  datatype World = World(now: int, nowMs: int, ownership: Ownership, legacyOwnership: Ownership, broken: bool)

  /** `legacyCalls` counts the calls of legacy store functions. */
  datatype Server = Server(limits: L.Maps, latch: T.Latch, db: Db, legacyCalls: nat)

  datatype Response =
    | Coded(status: int, code: Code)
    | Registered(status: int, code: Code, revision: int)
    | RemovedRows(removed: nat)
    | LegacyDone
    | TooMany(retryAfter: int)
    | WindowExpired
    | Unauthorized
    | BadRequest
    | VerificationUnavailable
    | VerificationFailed

  function StatusFor(code: Code): int {
    match code
    case Created => 201
    case Updated => 200
    case Removed => 200
    case Ok => 200
    case InvalidRequest => 400
    case InvalidSignature => 401
    case StaleTimestamp => 401
    case ContextMismatch => 401
    case NonceReused => 401
    case OwnershipFailed => 403
    case SignedNotEnabled => 409
    case SignedRequired => 409
    case SignedAuthorizationRequired => 409
    case StaleRevision => 409
    case OwnerConflict => 409
    case LegacyWindowExpired => 410
    case RateLimited => 429
    case DependencyUnavailable => 502
    case DatabaseError => 503
  }

  function Fail(code: Code): Response {
    Coded(StatusFor(code), code)
  }

  predicate IsPubkey(d: Deps, v: Js) {
    v.Str? && d.isKey(v.s)
  }

  function KeyFacet(d: Deps, v: Js): Option<string> {
    if IsPubkey(d, v) then Some(v.s) else None
  }

  function FacetsOf(d: Deps, body: Body, withToken: bool): L.Facets {
    var token := Get(body, "deviceToken");
    L.Facets(KeyFacet(d, Get(body, "owner")), KeyFacet(d, Get(body, "vault")),
             if withToken && token.Str? && |token.s| > 0 then Some(d.c.k.hash(token.s)) else None)
  }

  /** Both limiter checks; the response if one refuses. */
  function Limited(d: Deps, s: Server, r: Request, w: World, withToken: bool): (Server, Option<Response>) {
    var (limits, ip) := L.IpChecked(s.limits, r.ip, w.nowMs);
    if !ip.ok then (s.(limits := limits), Some(TooMany(ip.retryAfter)))
    else
      var (limits', facets) := L.FacetsChecked(limits, FacetsOf(d, r.body, withToken), w.nowMs);
      (s.(limits := limits'), if facets.ok then None else Some(TooMany(facets.retryAfter)))
  }

  /** The latch is read before the secret. */
  function LegacyWindow(d: Deps, s: Server, w: World): (Server, bool) {
    var latch := T.Observe(d.mode, d.until, s.latch, w.now);
    (s.(latch := latch), T.StatusOf(d.mode, d.until, latch, w.now).legacyAccepting)
  }

  // ---- register ----

  function SignedRegisterPath(d: Deps, s: Server, r: Request, w: World): (Server, Response) {
    if d.mode == T.LegacyOnly then (s, Fail(SignedNotEnabled))
    else
      match AuthorizeRegister(r.body, d.c.x, d.c.k, w.ownership, w.now)
      case Denied(code) => (s, Fail(code))
      case Granted(command) =>
        var (db, reply) := Transact(w.broken, s.db, SignedRegister(s.db, command));
        (s.(db := db),
         if reply.code == Created || reply.code == Updated then Registered(StatusFor(reply.code), reply.code, command.revision)
         else Fail(reply.code))
  }

  function LegacyRegisterPath(d: Deps, s: Server, r: Request, w: World): (Server, Response) {
    if d.mode == T.SignedOnly then (s, Fail(SignedRequired))
    else
      var (s, accepting) := LegacyWindow(d, s, w);
      if !accepting then (s, WindowExpired)
      else if !r.secretOk then (s, Unauthorized)
      else
        var owner, vault, token := Get(r.body, "owner"), Get(r.body, "vault"), Get(r.body, "deviceToken");
        var s1, s2, s3 := d.toPositive(Get(r.body, "stage1")), d.toPositive(Get(r.body, "stage2")), d.toPositive(Get(r.body, "stage3"));
        if !IsPubkey(d, owner) || !IsPubkey(d, vault) then (s, BadRequest)
        else if !token.Str? || |token.s| < 10 then (s, BadRequest)
        else if s1.None? || s2.None? || s3.None? then (s, BadRequest)
        else if w.legacyOwnership == VerifierThrew then (s, VerificationUnavailable)
        else if w.legacyOwnership != Owned then (s, VerificationFailed)
        else
          var command := LegacyCommand(owner.s, vault.s, token.s, s1.value, s2.value, s3.value, w.now);
          var (db, reply) := Transact(w.broken, s.db, LegacyRegister(s.db, command));
          (s.(db := db, legacyCalls := s.legacyCalls + 1),
           if reply.code == SignedAuthorizationRequired || reply.code == DatabaseError then Fail(reply.code) else LegacyDone)
  }

  function Register(d: Deps, s: Server, r: Request, w: World): (Server, Response) {
    var (s, refused) := Limited(d, s, r, w, true);
    if refused.Some? then (s, refused.value)
    else if IsSignedAttempt(r.body) then SignedRegisterPath(d, s, r, w)
    else LegacyRegisterPath(d, s, r, w)
  }

  // ---- deregister ----

  function SignedDeregisterPath(d: Deps, s: Server, r: Request, w: World): (Server, Response) {
    if d.mode == T.LegacyOnly then (s, Fail(SignedNotEnabled))
    else
      var row := RowOf(s.db, TextOf(Get(r.body, "vault")));
      match AuthorizeDeregister(r.body, d.c.x, d.c.k, row, w.ownership, w.now)
      case Denied(code) => (s, Fail(code))
      case Granted(command) =>
        var (db, reply) := Transact(w.broken, s.db, SignedDeregister(s.db, command));
        (s.(db := db), if reply.code == Removed then RemovedRows(reply.removed) else Fail(reply.code))
  }

  /** In legacy mode a failed delete by vault is not told apart from a successful one. */
  function LegacyDeletion(d: Deps, s: Server, r: Request, w: World): (Server, Response) {
    var owner, vault := Get(r.body, "owner"), Get(r.body, "vault");
    if IsPubkey(d, vault) then
      var (db, reply) := Transact(w.broken, s.db, LegacyDelete(s.db, vault.s, None));
      (s.(db := db, legacyCalls := s.legacyCalls + 1),
       if reply.code == SignedAuthorizationRequired || (d.mode != T.LegacyOnly && reply.code == DatabaseError)
       then Fail(reply.code) else RemovedRows(reply.removed))
    else if d.mode == T.LegacyOnly && IsPubkey(d, owner) then
      var (db, reply) := Transact(w.broken, s.db, LegacyDeleteByOwner(s.db, owner.s));
      (s.(db := db, legacyCalls := s.legacyCalls + 1),
       if reply.code == DatabaseError then Fail(reply.code) else RemovedRows(reply.removed))
    else (s, BadRequest)
  }

  function LegacyDeregisterPath(d: Deps, s: Server, r: Request, w: World): (Server, Response) {
    if d.mode == T.SignedOnly then (s, Fail(SignedRequired))
    else
      var (s, accepting) := LegacyWindow(d, s, w);
      if !accepting then (s, WindowExpired)
      else if !r.secretOk then (s, Unauthorized)
      else LegacyDeletion(d, s, r, w)
  }

  function Deregister(d: Deps, s: Server, r: Request, w: World): (Server, Response) {
    var (s, refused) := Limited(d, s, r, w, false);
    if refused.Some? then (s, refused.value)
    else if IsSignedAttempt(r.body) then SignedDeregisterPath(d, s, r, w)
    else LegacyDeregisterPath(d, s, r, w)
  }

  // ---- the object ----

  class RegistrationHandlers {
    const d: Deps
    const limiter: L.WriteRateLimiter
    const transition: T.TransitionController
    const store: RegistrationStore
    var legacyCalls: nat

    ghost predicate Valid()
      reads this
    {
      transition.mode == d.mode && transition.until == d.until
    }

    ghost function State(): Server
      reads this, limiter, transition, store
    {
      Server(limiter.maps, transition.Now(), store.Contents(), legacyCalls)
    }

    constructor (d: Deps)
      ensures Valid() && this.d == d
      ensures State() == Server(L.Maps(map[], map[], map[], map[], map[]), T.OPEN, Db(map[], map[]), 0)
      ensures fresh(limiter) && fresh(transition) && fresh(store)
    {
      this.d := d;
      limiter := new L.WriteRateLimiter();
      transition := new T.TransitionController(d.mode, d.until);
      store := new RegistrationStore();
      legacyCalls := 0;
    }

    /** Some(response) if a window refuses. */
    method CheckLimits(r: Request, w: World, withToken: bool) returns (refused: Option<Response>)
      requires Valid()
      modifies limiter
      ensures (State(), refused) == Limited(d, old(State()), r, w, withToken)
    {
      var v := limiter.CheckIp(r.ip, w.nowMs);
      if !v.ok {
        return Some(TooMany(v.retryAfter));
      }
      v := limiter.CheckFacets(FacetsOf(d, r.body, withToken), w.nowMs);
      if !v.ok {
        return Some(TooMany(v.retryAfter));
      }
      refused := None;
    }

    method PostRegister(r: Request, w: World) returns (res: Response)
      requires Valid()
      modifies this, limiter, transition, store
      ensures Valid() && (State(), res) == Register(d, old(State()), r, w)
    {
      hide L.IpChecked, L.FacetsChecked, AuthorizeRegister;
      var refused := CheckLimits(r, w, true);
      if refused.Some? {
        return refused.value;
      }
      if IsSignedAttempt(r.body) {
        res := SignedRegistration(r, w);
      } else {
        res := LegacyRegistration(r, w);
      }
    }

    method SignedRegistration(r: Request, w: World) returns (res: Response)
      requires Valid()
      modifies this, limiter, transition, store
      ensures Valid() && (State(), res) == SignedRegisterPath(d, old(State()), r, w)
    {
      hide AuthorizeRegister, SignedRegister;
      if d.mode == T.LegacyOnly {
        return Fail(SignedNotEnabled);
      }
      var a := AuthorizeRegister(r.body, d.c.x, d.c.k, w.ownership, w.now);
      if a.Denied? {
        return Fail(a.code);
      }
      var reply := store.ApplySignedRegistration(a.command, w.broken);
      if reply.code == Created || reply.code == Updated {
        return Registered(StatusFor(reply.code), reply.code, a.command.revision);
      }
      res := Fail(reply.code);
    }

    method LegacyRegistration(r: Request, w: World) returns (res: Response)
      requires Valid()
      modifies this, limiter, transition, store
      ensures Valid() && (State(), res) == LegacyRegisterPath(d, old(State()), r, w)
    {
      hide LegacyRegister;
      if d.mode == T.SignedOnly {
        return Fail(SignedRequired);
      }
      var status := transition.Get(w.now);
      if !status.legacyAccepting {
        return WindowExpired;
      }
      if !r.secretOk {
        return Unauthorized;
      }
      var owner, vault, token := Get(r.body, "owner"), Get(r.body, "vault"), Get(r.body, "deviceToken");
      if !IsPubkey(d, owner) || !IsPubkey(d, vault) {
        return BadRequest;
      }
      if !token.Str? || |token.s| < 10 {
        return BadRequest;
      }
      var s1, s2, s3 := d.toPositive(Get(r.body, "stage1")), d.toPositive(Get(r.body, "stage2")), d.toPositive(Get(r.body, "stage3"));
      if s1.None? || s2.None? || s3.None? {
        return BadRequest;
      }
      if w.legacyOwnership == VerifierThrew {
        return VerificationUnavailable;
      }
      if w.legacyOwnership != Owned {
        return VerificationFailed;
      }
      legacyCalls := legacyCalls + 1;
      var reply := store.ApplyLegacyRegistration(
        LegacyCommand(owner.s, vault.s, token.s, s1.value, s2.value, s3.value, w.now), w.broken);
      if reply.code == SignedAuthorizationRequired || reply.code == DatabaseError {
        return Fail(reply.code);
      }
      res := LegacyDone;
    }

    method PostDeregister(r: Request, w: World) returns (res: Response)
      requires Valid()
      modifies this, limiter, transition, store
      ensures Valid() && (State(), res) == Deregister(d, old(State()), r, w)
    {
      hide L.IpChecked, L.FacetsChecked, AuthorizeDeregister;
      var refused := CheckLimits(r, w, false);
      if refused.Some? {
        return refused.value;
      }
      if IsSignedAttempt(r.body) {
        res := SignedDeregistration(r, w);
      } else {
        res := LegacyDeregistration(r, w);
      }
    }

    method SignedDeregistration(r: Request, w: World) returns (res: Response)
      requires Valid()
      modifies this, limiter, transition, store
      ensures Valid() && (State(), res) == SignedDeregisterPath(d, old(State()), r, w)
    {
      hide AuthorizeDeregister, SignedDeregister;
      if d.mode == T.LegacyOnly {
        return Fail(SignedNotEnabled);
      }
      var vault := TextOf(Get(r.body, "vault"));
      var row := if vault in store.rows then Some(store.rows[vault]) else None;
      var a := AuthorizeDeregister(r.body, d.c.x, d.c.k, row, w.ownership, w.now);
      if a.Denied? {
        return Fail(a.code);
      }
      var reply := store.ApplySignedDeregistration(a.command, w.broken);
      if reply.code == Removed {
        return RemovedRows(reply.removed);
      }
      res := Fail(reply.code);
    }

    method LegacyDeregistration(r: Request, w: World) returns (res: Response)
      requires Valid()
      modifies this, limiter, transition, store
      ensures Valid() && (State(), res) == LegacyDeregisterPath(d, old(State()), r, w)
    {
      hide LegacyDelete, LegacyDeleteByOwner, LegacyDeletion;
      if d.mode == T.SignedOnly {
        return Fail(SignedRequired);
      }
      var status := transition.Get(w.now);
      if !status.legacyAccepting {
        return WindowExpired;
      }
      if !r.secretOk {
        return Unauthorized;
      }
      res := DeleteLegacyRows(r, w);
    }

    method DeleteLegacyRows(r: Request, w: World) returns (res: Response)
      requires Valid()
      modifies this, store
      ensures Valid() && (State(), res) == LegacyDeletion(d, old(State()), r, w)
    {
      hide LegacyDelete, LegacyDeleteByOwner;
      var owner, vault := Get(r.body, "owner"), Get(r.body, "vault");
      var reply;
      if d.mode == T.LegacyOnly {
        if IsPubkey(d, vault) {
          legacyCalls := legacyCalls + 1;
          reply := store.DeleteLegacyRegistration(vault.s, None, w.broken);
          if reply.code == SignedAuthorizationRequired {
            return Fail(reply.code);
          }
          return RemovedRows(reply.removed);
        }
        if IsPubkey(d, owner) {
          legacyCalls := legacyCalls + 1;
          reply := store.DeleteLegacyRegistrationsByOwner(owner.s, w.broken);
          if reply.code == DatabaseError {
            return Fail(reply.code);
          }
          return RemovedRows(reply.removed);
        }
        return BadRequest;
      }
      if !IsPubkey(d, vault) {
        return BadRequest;
      }
      legacyCalls := legacyCalls + 1;
      reply := store.DeleteLegacyRegistration(vault.s, None, w.broken);
      if reply.code == SignedAuthorizationRequired || reply.code == DatabaseError {
        return Fail(reply.code);
      }
      res := RemovedRows(reply.removed);
    }
  }

  // ---- the shared secret ----

  /** No secret can matter: the request looks signed, or the mode or the latch has closed the legacy path. */
  predicate SecretIsMoot(d: Deps, s: Server, r: Request, w: World) {
    || IsSignedAttempt(r.body)
    || d.mode == T.SignedOnly
    || (d.mode == T.DualAccept && (s.latch.expired || d.until.None? || w.now >= d.until.value))
  }

  /** With or without the secret, the same response and the same state, and no legacy store function is called. */
  lemma SecretCannotRescue(d: Deps, s: Server, r: Request, w: World, secret: bool)
    requires SecretIsMoot(d, s, r, w)
    ensures Register(d, s, r.(secretOk := secret), w) == Register(d, s, r, w)
    ensures Deregister(d, s, r.(secretOk := secret), w) == Deregister(d, s, r, w)
    ensures Register(d, s, r, w).0.legacyCalls == s.legacyCalls
    ensures Deregister(d, s, r, w).0.legacyCalls == s.legacyCalls
  {
    hide AuthorizeRegister, AuthorizeDeregister, L.IpChecked, L.FacetsChecked, SignedRegister, SignedDeregister;
  }

  /** And the other way round: a legacy store call needs the secret, a pure legacy body and an open window. */
  lemma LegacyStoreNeedsSecret(d: Deps, s: Server, r: Request, w: World)
    ensures Register(d, s, r, w).0.legacyCalls != s.legacyCalls ==> r.secretOk && !SecretIsMoot(d, s, r, w)
    ensures Deregister(d, s, r, w).0.legacyCalls != s.legacyCalls ==> r.secretOk && !SecretIsMoot(d, s, r, w)
  {
    hide AuthorizeRegister, AuthorizeDeregister, L.IpChecked, L.FacetsChecked, SignedRegister, SignedDeregister;
  }

  datatype Post = ToRegister(r: Request, w: World) | ToDeregister(r: Request, w: World)

  function Serve(d: Deps, s: Server, p: Post): (Server, Response) {
    match p
    case ToRegister(r, w) => Register(d, s, r, w)
    case ToDeregister(r, w) => Deregister(d, s, r, w)
  }

  function ServeAll(d: Deps, s: Server, posts: seq<Post>): Server
    decreases |posts|
  {
    if posts == [] then s else ServeAll(d, Serve(d, s, posts[0]).0, posts[1..])
  }

  lemma ServeKeepsExpiry(d: Deps, s: Server, p: Post)
    requires s.latch.expired
    ensures Serve(d, s, p).0.latch == s.latch
  {
    hide AuthorizeRegister, AuthorizeDeregister, L.IpChecked, L.FacetsChecked, SignedRegister, SignedDeregister;
  }

  /**
   * Once expiry has been observed in dual mode, no later request, with any secret and under any clock, also
   * one that runs backwards, reaches a legacy store function.
   */
  lemma {:induction false} ExpiryIsFinal(d: Deps, s: Server, posts: seq<Post>)
    requires d.mode == T.DualAccept && s.latch.expired
    ensures ServeAll(d, s, posts).legacyCalls == s.legacyCalls && ServeAll(d, s, posts).latch == s.latch
    decreases |posts|
  {
    if posts != [] {
      var p := posts[0];
      SecretCannotRescue(d, s, p.r, p.w, p.r.secretOk);
      ServeKeepsExpiry(d, s, p);
      ExpiryIsFinal(d, Serve(d, s, p).0, posts[1..]);
    }
  }

  // ---- the handlers and the runs ----

  /** Every request is at most one step of a registration run, so what holds of all runs holds of the HTTP surface. */
  lemma ServeIsOneStep(d: Deps, s: Server, p: Post)
    ensures Serve(d, s, p).0.db == s.db
            || exists op: Op {:trigger Step(d.c, s.db, Event(p.w.now, op, p.w.broken))} ::
                 Serve(d, s, p).0.db == Step(d.c, s.db, Event(p.w.now, op, p.w.broken)).0
                 && (IsSignedAttempt(p.r.body) <==> EnvelopeOf(op).Some?)
  {
    hide AuthorizeRegister, AuthorizeDeregister, L.IpChecked, L.FacetsChecked, SignedRegister, SignedDeregister,
      LegacyRegister, LegacyDelete, LegacyDeleteByOwner;
    var owner, vault, token := Get(p.r.body, "owner"), Get(p.r.body, "vault"), Get(p.r.body, "deviceToken");
    var s1, s2, s3 := d.toPositive(Get(p.r.body, "stage1")), d.toPositive(Get(p.r.body, "stage2")), d.toPositive(Get(p.r.body, "stage3"));
    var register := if IsSignedAttempt(p.r.body) then PostRegister(p.r.body, p.w.ownership)
                    else LegacyUpsert(LegacyCommand(TextOf(owner), TextOf(vault), TextOf(token),
                      if s1.Some? then s1.value else 0, if s2.Some? then s2.value else 0, if s3.Some? then s3.value else 0, p.w.now));
    var deregister := if IsSignedAttempt(p.r.body) then PostDeregister(p.r.body, p.w.ownership)
                      else if IsPubkey(d, vault) then LegacyRemove(TextOf(vault), None)
                      else LegacyRemoveByOwner(TextOf(owner));
    var op := if p.ToRegister? then register else deregister;
    var after := Step(d.c, s.db, Event(p.w.now, op, p.w.broken)).0;
  }

  /**
   * Where the code falls short: in legacy mode a delete by vault that the database refuses is still answered
   * as done. An answer of this kind is true of the row exactly when the database works, or the mode is not
   * legacy, or the request did not get that far, or there was no row.
   */
  lemma LegacyModeHidesDatabaseError(d: Deps, s: Server, r: Request, w: World)
    requires !IsSignedAttempt(r.body) && IsPubkey(d, Get(r.body, "vault"))
    ensures var (s', res) := Deregister(d, s, r, w);
            var vault := TextOf(Get(r.body, "vault"));
            (res.RemovedRows? ==> vault !in s'.db.rows) <==>
              !(d.mode == T.LegacyOnly && w.broken && r.secretOk && Limited(d, s, r, w, false).1.None? && vault in s.db.rows)
  {
    hide L.IpChecked, L.FacetsChecked;
  }

  // ---- which bodies are signed ----

  /** The body has a field that only the signed form has. */
  predicate NamesSignedField(body: Body) {
    || "version" in body || "cluster" in body || "programId" in body || "audience" in body || "action" in body
    || "revision" in body || "timestamp" in body || "nonce" in body || "signature" in body
  }

  lemma SignedAttemptSpec(body: Body)
    ensures IsSignedAttempt(body) <==> NamesSignedField(body)
  {
    var f := V2_ENVELOPE_FIELDS;
    assert f[0] == "version" && f[1] == "cluster" && f[2] == "programId" && f[3] == "audience" && f[4] == "action";
    assert f[5] == "revision" && f[6] == "timestamp" && f[7] == "nonce" && f[8] == "signature";
  }

  /** What any of the nine fields does: the secret changes neither response nor state, and no legacy function is called. */
  lemma SignedFieldsShutOutTheSecret(d: Deps, s: Server, r: Request, w: World, secret: bool)
    requires NamesSignedField(r.body)
    ensures Register(d, s, r.(secretOk := secret), w) == Register(d, s, r, w)
    ensures Deregister(d, s, r.(secretOk := secret), w) == Deregister(d, s, r, w)
    ensures Register(d, s, r, w).0.legacyCalls == s.legacyCalls
    ensures Deregister(d, s, r, w).0.legacyCalls == s.legacyCalls
  {
    hide Register, Deregister, NamesSignedField;
    SignedAttemptSpec(r.body);
    SecretCannotRescue(d, s, r, w, secret);
  }

  /** Nothing that carries a signature changes: no nonce is claimed and no signed row touched. */
  ghost predicate SignedKept(before: Db, after: Db) {
    && after.nonces == before.nonces
    && forall v :: v in before.rows && IsSignedRow(before.rows[v]) ==> v in after.rows && after.rows[v] == before.rows[v]
  }

  /** Without them nothing that carries a signature changes, and a deployment that requires signatures says so. */
  lemma PlainRegistrationIsLegacy(d: Deps, s: Server, r: Request, w: World)
    requires !NamesSignedField(r.body)
    ensures SignedKept(s.db, Register(d, s, r, w).0.db)
    ensures d.mode == T.SignedOnly && Limited(d, s, r, w, true).1.None? ==> Register(d, s, r, w).1 == Coded(409, SignedRequired)
  {
    SignedAttemptSpec(r.body);
    hide L.IpChecked, L.FacetsChecked, SignedRegisterPath, NamesSignedField, IsSignedAttempt, FacetsOf;
  }

  lemma PlainRemovalIsLegacy(d: Deps, s: Server, r: Request, w: World)
    requires !NamesSignedField(r.body)
    ensures SignedKept(s.db, Deregister(d, s, r, w).0.db)
    ensures d.mode == T.SignedOnly && Limited(d, s, r, w, false).1.None? ==> Deregister(d, s, r, w).1 == Coded(409, SignedRequired)
  {
    SignedAttemptSpec(r.body);
    hide L.IpChecked, L.FacetsChecked, SignedDeregisterPath, NamesSignedField, IsSignedAttempt, FacetsOf;
  }

  /** What either authorizer would grant is answered by it, unless a limit or the mode refuses first. */
  lemma GrantedRegistrationIsServed(d: Deps, s: Server, r: Request, w: World)
    requires AuthorizeRegister(r.body, d.c.x, d.c.k, w.ownership, w.now).Granted? && Limited(d, s, r, w, true).1.None?
    ensures var (s', res) := Register(d, s, r, w);
            var c := AuthorizeRegister(r.body, d.c.x, d.c.k, w.ownership, w.now).command;
            if d.mode == T.LegacyOnly then s'.db == s.db && res == Coded(409, SignedNotEnabled)
            else if w.broken then s'.db == s.db && res == Coded(503, DatabaseError)
            else if (c.owner, c.nonce) in s.db.nonces then s'.db == s.db && res == Coded(401, NonceReused)
            else
              && (c.owner, c.nonce) in s'.db.nonces
              && res == if c.vault !in s.db.rows then Registered(201, Created, c.revision)
                        else if s.db.rows[c.vault].owner != c.owner then Coded(409, OwnerConflict)
                        else if c.revision <= s.db.rows[c.vault].revision then Coded(409, StaleRevision)
                        else Registered(200, Updated, c.revision)
  {
    hide AuthorizeRegister, Register, Limited, SignedRegisterPath, NamesSignedField, SignedRegister;
    GrantNamesVersion(d, r, w);
    VersionIsSignedField(r.body);
    SignedPathsTaken(d, s, r, w);
    SignedRegisterPathServes(d, Limited(d, s, r, w, true).0, r, w);
  }

  lemma VersionIsSignedField(body: Body)
    ensures "version" in body ==> NamesSignedField(body)
  {
  }

  lemma SignedRegisterPathServes(d: Deps, s: Server, r: Request, w: World)
    requires AuthorizeRegister(r.body, d.c.x, d.c.k, w.ownership, w.now).Granted?
    ensures var (s', res) := SignedRegisterPath(d, s, r, w);
            var c := AuthorizeRegister(r.body, d.c.x, d.c.k, w.ownership, w.now).command;
            if d.mode == T.LegacyOnly then s'.db == s.db && res == Coded(409, SignedNotEnabled)
            else if w.broken then s'.db == s.db && res == Coded(503, DatabaseError)
            else if (c.owner, c.nonce) in s.db.nonces then s'.db == s.db && res == Coded(401, NonceReused)
            else
              && (c.owner, c.nonce) in s'.db.nonces
              && res == if c.vault !in s.db.rows then Registered(201, Created, c.revision)
                        else if s.db.rows[c.vault].owner != c.owner then Coded(409, OwnerConflict)
                        else if c.revision <= s.db.rows[c.vault].revision then Coded(409, StaleRevision)
                        else Registered(200, Updated, c.revision)
  {
    hide AuthorizeRegister;
  }

  /** Past the limits a body with a signed field is on the signed path. */
  lemma SignedPathsTaken(d: Deps, s: Server, r: Request, w: World)
    requires NamesSignedField(r.body)
    ensures Limited(d, s, r, w, true).1.None? ==>
              Register(d, s, r, w) == SignedRegisterPath(d, Limited(d, s, r, w, true).0, r, w)
    ensures Limited(d, s, r, w, false).1.None? ==>
              Deregister(d, s, r, w) == SignedDeregisterPath(d, Limited(d, s, r, w, false).0, r, w)
    ensures Limited(d, s, r, w, true).0.db == s.db && Limited(d, s, r, w, false).0.db == s.db
  {
    SignedAttemptSpec(r.body);
    hide L.IpChecked, L.FacetsChecked, NamesSignedField, IsSignedAttempt, FacetsOf, SignedRegisterPath, SignedDeregisterPath,
      LegacyRegisterPath, LegacyDeregisterPath;
  }

  lemma GrantNamesVersion(d: Deps, r: Request, w: World)
    ensures AuthorizeRegister(r.body, d.c.x, d.c.k, w.ownership, w.now).Granted? ==> "version" in r.body
    ensures forall row :: AuthorizeDeregister(r.body, d.c.x, d.c.k, row, w.ownership, w.now).Granted? ==> "version" in r.body
  {
  }

  lemma GrantedRemovalIsServed(d: Deps, s: Server, r: Request, w: World)
    requires AuthorizeDeregister(r.body, d.c.x, d.c.k, RowOf(s.db, TextOf(Get(r.body, "vault"))), w.ownership, w.now).Granted?
    requires Limited(d, s, r, w, false).1.None?
    ensures var (s', res) := Deregister(d, s, r, w);
            var c := AuthorizeDeregister(r.body, d.c.x, d.c.k, RowOf(s.db, TextOf(Get(r.body, "vault"))), w.ownership, w.now).command;
            if d.mode == T.LegacyOnly then s'.db == s.db && res == Coded(409, SignedNotEnabled)
            else if w.broken then s'.db == s.db && res == Coded(503, DatabaseError)
            else if (c.owner, c.nonce) in s.db.nonces then s'.db == s.db && res == Coded(401, NonceReused)
            else
              && (c.owner, c.nonce) in s'.db.nonces && c.vault !in s'.db.rows && OnlyRow(s.db, s'.db, c.vault)
              && res == RemovedRows(if c.vault in s.db.rows then 1 else 0)
  {
    hide AuthorizeDeregister, Deregister, Limited, SignedDeregisterPath, NamesSignedField, SignedDeregister;
    GrantNamesVersion(d, r, w);
    VersionIsSignedField(r.body);
    SignedPathsTaken(d, s, r, w);
    OwnRowOrNone(d, s, r, w);
    SignedRemovalPathServes(d, Limited(d, s, r, w, false).0, r, w);
  }

  lemma SignedRemovalPathServes(d: Deps, s: Server, r: Request, w: World)
    requires AuthorizeDeregister(r.body, d.c.x, d.c.k, RowOf(s.db, TextOf(Get(r.body, "vault"))), w.ownership, w.now).Granted?
    requires var c := AuthorizeDeregister(r.body, d.c.x, d.c.k, RowOf(s.db, TextOf(Get(r.body, "vault"))), w.ownership, w.now).command;
             c.vault in s.db.rows ==> s.db.rows[c.vault].owner == c.owner
    ensures var (s', res) := SignedDeregisterPath(d, s, r, w);
            var c := AuthorizeDeregister(r.body, d.c.x, d.c.k, RowOf(s.db, TextOf(Get(r.body, "vault"))), w.ownership, w.now).command;
            if d.mode == T.LegacyOnly then s'.db == s.db && res == Coded(409, SignedNotEnabled)
            else if w.broken then s'.db == s.db && res == Coded(503, DatabaseError)
            else if (c.owner, c.nonce) in s.db.nonces then s'.db == s.db && res == Coded(401, NonceReused)
            else
              && (c.owner, c.nonce) in s'.db.nonces && c.vault !in s'.db.rows && OnlyRow(s.db, s'.db, c.vault)
              && res == RemovedRows(if c.vault in s.db.rows then 1 else 0)
  {
    hide AuthorizeDeregister;
  }

  lemma OwnRowOrNone(d: Deps, s: Server, r: Request, w: World)
    requires AuthorizeDeregister(r.body, d.c.x, d.c.k, RowOf(s.db, TextOf(Get(r.body, "vault"))), w.ownership, w.now).Granted?
    ensures var c := AuthorizeDeregister(r.body, d.c.x, d.c.k, RowOf(s.db, TextOf(Get(r.body, "vault"))), w.ownership, w.now).command;
            && c.vault == TextOf(Get(r.body, "vault")) && (RowOf(s.db, TextOf(Get(r.body, "vault"))).Some? ==> RowOf(s.db, TextOf(Get(r.body, "vault"))).value.owner == c.owner)
  {
  }

  // ---- what is stored ----

  /** The parts of a database other than one vault's row. */
  ghost predicate OnlyRow(before: Db, after: Db, vault: Pubkey) {
    forall v :: v != vault ==> (v in after.rows <==> v in before.rows) && (v in before.rows ==> after.rows[v] == before.rows[v])
  }

  /** The response means a grant, and a transaction that went through. */
  lemma RegisteredMeans(d: Deps, s: Server, r: Request, w: World)
    requires Register(d, s, r, w).1.Registered?
    ensures var (s', res) := Register(d, s, r, w);
            && AuthorizeRegister(r.body, d.c.x, d.c.k, w.ownership, w.now).Granted?
            && var c := AuthorizeRegister(r.body, d.c.x, d.c.k, w.ownership, w.now).command;
            && var (db, reply) := SignedRegister(s.db, c);
            && s'.db == db && (reply.code == Created || reply.code == Updated)
            && res == Registered(if reply.code == Created then 201 else 200, reply.code, c.revision)
  {
    hide L.IpChecked, L.FacetsChecked, AuthorizeRegister, SignedRegister, LegacyRegister;
  }

  /** What the transaction stores, column by column. */
  lemma SignedRegisterStores(db: Db, c: RegisterCommand)
    ensures var (after, reply) := SignedRegister(db, c);
            reply.code == Created || reply.code == Updated ==>
              && c.vault in after.rows && OnlyRow(db, after, c.vault) && (c.owner, c.nonce) in after.nonces
              && var row := after.rows[c.vault];
              && row.owner == c.owner && row.deviceToken == c.deviceToken && row.deviceTokenHash == Some(c.deviceTokenHash)
              && row.stage1 == c.stage1 && row.stage2 == c.stage2 && row.stage3 == c.stage3 && row.revision == c.revision
              && row.signedAt == Some(c.signedAt) && row.updatedAt == c.nonceUsedAt && IsSignedRow(row)
              && (if c.vault in db.rows then
                    var was := db.rows[c.vault];
                    && reply.code == Updated && was.owner == c.owner && was.revision < c.revision
                    && row.lastStage == was.lastStage && row.lastNotifiedAt == was.lastNotifiedAt && row.createdAt == was.createdAt
                  else reply.code == Created && row.lastStage == 0 && row.lastNotifiedAt == 0 && row.createdAt == c.nonceUsedAt)
  {
  }

  /** The command reads back from the text. */
  lemma CommandIsParsed(b: Body, x: Expected, k: Crypto, ownership: Ownership, now: int)
    requires AuthorizeRegister(b, x, k, ownership, now).Granted?
    ensures var c := AuthorizeRegister(b, x, k, ownership, now).command;
            exists text :: k.verifies(text, TextOf(Get(b, "signature")), c.owner) && ParseRegister(text).Some?
                           && var f := ParseRegister(text).value;
                              && f.vault == c.vault && f.owner == c.owner && f.deviceTokenHash == c.deviceTokenHash
                              && f.stage1 == c.stage1 && f.stage2 == c.stage2 && f.stage3 == c.stage3
                              && f.revision == c.revision && f.timestamp == c.signedAt
  {
    GrantedRegisterIsSigned(b, x, k, ownership, now);
    hide AuthorizeRegister, RegisterMessageV2, ParseRegister, RegisterFieldsOf;
    var text := RegisterMessageV2(k.canonical, RegisterFieldsOf(b, k)).value;
    assert ParseRegister(text).Some?;
  }

  /**
   * After `created` or `updated` the vault's row holds, field by field, what its owner signed, and the body's token;
   * notification columns are new or kept; and no other row changed.
   */
  lemma RegisteredRowIsSigned(d: Deps, s: Server, r: Request, w: World)
    requires Register(d, s, r, w).1.Registered?
    ensures var (s', res) := Register(d, s, r, w);
            var vault := TextOf(Get(r.body, "vault"));
            var k := d.c.k;
            && vault in s'.db.rows && OnlyRow(s.db, s'.db, vault)
            && var row := s'.db.rows[vault];
            && (exists text :: k.verifies(text, TextOf(Get(r.body, "signature")), row.owner) && SignsRow(text, vault, row))
            && Get(r.body, "owner") == Str(row.owner) && Get(r.body, "deviceToken") == Str(row.deviceToken)
            && row.deviceTokenHash == Some(k.hash(row.deviceToken))
            && Get(r.body, "stage1") == Num(row.stage1) && Get(r.body, "stage2") == Num(row.stage2)
            && Get(r.body, "stage3") == Num(row.stage3) && Get(r.body, "revision") == Num(row.revision)
            && row.revision == res.revision && IsSignedRow(row) && row.updatedAt == w.now
            && (row.owner, TextOf(Get(r.body, "nonce"))) in s'.db.nonces
            && (if vault in s.db.rows then
                  && res.status == 200 && row.owner == s.db.rows[vault].owner && s.db.rows[vault].revision < row.revision
                  && row.lastStage == s.db.rows[vault].lastStage && row.lastNotifiedAt == s.db.rows[vault].lastNotifiedAt
                  && row.createdAt == s.db.rows[vault].createdAt
                else res.status == 201 && row.lastStage == 0 && row.lastNotifiedAt == 0 && row.createdAt == w.now)
  {
    hide Register, AuthorizeRegister, RegisterMessageV2, ParseRegister, RegisterFieldsOf, SignedRegister;
    RegisteredMeans(d, s, r, w);
    GrantedFieldsAreSigned(r.body, d.c.x, d.c.k, w.ownership, w.now);
    var c := AuthorizeRegister(r.body, d.c.x, d.c.k, w.ownership, w.now).command;
    SignedRegisterStores(s.db, c);
    CommandIsParsed(r.body, d.c.x, d.c.k, w.ownership, w.now);
  }

  /** The text reads back as the row. */
  ghost predicate SignsRow(text: string, vault: Pubkey, row: Row) {
    && ParseRegister(text).Some?
    && var f := ParseRegister(text).value;
    && f.vault == vault && f.owner == row.owner && Some(f.deviceTokenHash) == row.deviceTokenHash
    && f.stage1 == row.stage1 && f.stage2 == row.stage2 && f.stage3 == row.stage3
    && f.revision == row.revision && Some(f.timestamp) == row.signedAt
  }

  /** The legacy form stores the body's fields, never over a signed row, and leaves notification and authorisation columns. */
  lemma LegacyRowIsBody(d: Deps, s: Server, r: Request, w: World)
    requires Register(d, s, r, w).1.LegacyDone?
    ensures var s' := Register(d, s, r, w).0;
            var vault := TextOf(Get(r.body, "vault"));
            && vault in s'.db.rows && OnlyRow(s.db, s'.db, vault) && s'.db.nonces == s.db.nonces
            && var row := s'.db.rows[vault];
            && Get(r.body, "owner") == Str(row.owner) && Get(r.body, "deviceToken") == Str(row.deviceToken)
            && d.toPositive(Get(r.body, "stage1")) == Some(row.stage1) && d.toPositive(Get(r.body, "stage2")) == Some(row.stage2)
            && d.toPositive(Get(r.body, "stage3")) == Some(row.stage3) && row.updatedAt == w.now
            && (if vault in s.db.rows then
                  var was := s.db.rows[vault];
                  && !IsSignedRow(was) && row.lastStage == was.lastStage && row.lastNotifiedAt == was.lastNotifiedAt
                  && row.createdAt == was.createdAt && row.authVersion == was.authVersion && row.revision == was.revision
                else !IsSignedRow(row) && row.lastStage == 0 && row.lastNotifiedAt == 0 && row.revision == 0)
  {
    hide L.IpChecked, L.FacetsChecked, AuthorizeRegister;
  }

  // ---- the legacy form while it is open ----

  /** What lets a plain request through to the store. */
  predicate LegacyOpen(d: Deps, s: Server, r: Request, w: World) {
    && !NamesSignedField(r.body) && r.secretOk && !w.broken
    && (d.mode == T.LegacyOnly || (d.mode == T.DualAccept && !s.latch.expired && d.until.Some? && w.now < d.until.value))
  }

  /** While the window is open a plain registration of one's own vault is stored, unless the vault has a signed row. */
  lemma OpenRegistrationIsStored(d: Deps, s: Server, r: Request, w: World)
    requires LegacyOpen(d, s, r, w) && Limited(d, s, r, w, true).1.None? && w.legacyOwnership == Owned
    requires IsPubkey(d, Get(r.body, "owner")) && IsPubkey(d, Get(r.body, "vault"))
    requires Get(r.body, "deviceToken").Str? && |Get(r.body, "deviceToken").s| >= 10
    requires d.toPositive(Get(r.body, "stage1")).Some? && d.toPositive(Get(r.body, "stage2")).Some? && d.toPositive(Get(r.body, "stage3")).Some?
    ensures var (s', res) := Register(d, s, r, w);
            var vault := Get(r.body, "vault").s;
            if vault in s.db.rows && IsSignedRow(s.db.rows[vault]) then s'.db == s.db && res == Coded(409, SignedAuthorizationRequired)
            else res == LegacyDone
  {
    SignedAttemptSpec(r.body);
    hide L.IpChecked, L.FacetsChecked, SignedRegisterPath, IsSignedAttempt, FacetsOf, NamesSignedField;
  }

  /** And a plain removal by vault takes that row and no other, unless it is signed. */
  lemma OpenRemovalIsDone(d: Deps, s: Server, r: Request, w: World)
    requires LegacyOpen(d, s, r, w) && Limited(d, s, r, w, false).1.None? && IsPubkey(d, Get(r.body, "vault"))
    ensures var (s', res) := Deregister(d, s, r, w);
            var vault := Get(r.body, "vault").s;
            && OnlyRow(s.db, s'.db, vault)
            && if vault in s.db.rows && IsSignedRow(s.db.rows[vault]) then s'.db == s.db && res == Coded(409, SignedAuthorizationRequired)
               else vault !in s'.db.rows && res == RemovedRows(if vault in s.db.rows then 1 else 0)
  {
    SignedAttemptSpec(r.body);
    hide L.IpChecked, L.FacetsChecked, SignedDeregisterPath, IsSignedAttempt, FacetsOf, NamesSignedField;
  }

  /** By owner it takes, in legacy mode only, exactly the owner's rows that are not signed, and counts them. */
  lemma OpenOwnerRemovalIsDone(d: Deps, s: Server, r: Request, w: World)
    requires LegacyOpen(d, s, r, w) && Limited(d, s, r, w, false).1.None?
    requires IsPubkey(d, Get(r.body, "owner")) && !IsPubkey(d, Get(r.body, "vault"))
    ensures var (s', res) := Deregister(d, s, r, w);
            var owner := Get(r.body, "owner").s;
            if d.mode == T.LegacyOnly then
              && (forall v :: v in s'.db.rows <==> v in s.db.rows && (s.db.rows[v].owner != owner || IsSignedRow(s.db.rows[v])))
              && (forall v :: v in s'.db.rows ==> s'.db.rows[v] == s.db.rows[v])
              && res.RemovedRows? && res.removed + |s'.db.rows| == |s.db.rows|
            else s'.db == s.db && res == BadRequest
  {
    hide Deregister, Limited, NamesSignedField, LegacyDelete, LegacyDeleteByOwner, IsSignedRow;
    LegacyOwnerDeleteTakes(s.db, Get(r.body, "owner").s);
    PlainRemovalTaken(d, s, r, w);
  }

  /** Past the limits a body without signed fields is on the legacy path. */
  lemma PlainRemovalTaken(d: Deps, s: Server, r: Request, w: World)
    requires !NamesSignedField(r.body) && Limited(d, s, r, w, false).1.None?
    ensures Deregister(d, s, r, w) == LegacyDeregisterPath(d, Limited(d, s, r, w, false).0, r, w)
    ensures Limited(d, s, r, w, false).0 == s.(limits := Limited(d, s, r, w, false).0.limits)
  {
    SignedAttemptSpec(r.body);
    hide L.IpChecked, L.FacetsChecked, NamesSignedField, IsSignedAttempt, FacetsOf, SignedDeregisterPath, LegacyDeregisterPath;
  }

  // ---- who is turned away ----

  /** The named thing has used up its window. */
  predicate UsedUp(m: L.Buckets, key: Option<string>, max: nat, nowMs: int) {
    key.Some? && L.Exhausted(m, key.value, max, nowMs)
  }

  function NamedKey(d: Deps, v: Js): Option<string> {
    match v
    case Str(key) => if d.isKey(key) then Some(key) else None
    case _ => None
  }

  function NamedToken(d: Deps, v: Js): Option<string> {
    match v
    case Str(token) => if token != "" then Some(d.c.k.hash(token)) else None
    case _ => None
  }

  /** 429 is answered exactly if the address, the owner, the vault or, for a registration, the token is used up; it leaves no other trace. */
  lemma TooManyExactlyWhenUsedUp(d: Deps, s: Server, r: Request, w: World)
    ensures var m := s.limits;
            var named := || L.Exhausted(m.ip, r.ip, 30, w.nowMs)
                         || UsedUp(m.owner, NamedKey(d, Get(r.body, "owner")), 10, w.nowMs)
                         || UsedUp(m.vault, NamedKey(d, Get(r.body, "vault")), 10, w.nowMs);
            && (Register(d, s, r, w).1.TooMany? <==> named || UsedUp(m.token, NamedToken(d, Get(r.body, "deviceToken")), 6, w.nowMs))
            && (Deregister(d, s, r, w).1.TooMany? <==> named)
    ensures Register(d, s, r, w).1.TooMany? ==> Register(d, s, r, w).0 == s.(limits := Register(d, s, r, w).0.limits)
    ensures Deregister(d, s, r, w).1.TooMany? ==> Deregister(d, s, r, w).0 == s.(limits := Deregister(d, s, r, w).0.limits)
  {
    hide L.IpChecked, L.FacetsChecked, L.Exhausted, L.Charged, L.Advises, SignedRegisterPath, LegacyRegisterPath, SignedDeregisterPath,
      LegacyDeregisterPath, IsSignedAttempt;
    var s1 := L.IpChecked(s.limits, r.ip, w.nowMs).0;
    L.AddressLimit(s.limits, r.ip, w.nowMs);
    L.FacetLimits(s1, FacetsOf(d, r.body, true), w.nowMs);
    L.FacetLimits(s1, FacetsOf(d, r.body, false), w.nowMs);
    OnlyLimitsAnswerTooMany(d, s, r, w);
  }

  lemma OnlyLimitsAnswerTooMany(d: Deps, s: Server, r: Request, w: World)
    ensures Register(d, s, r, w).1.TooMany? <==> Limited(d, s, r, w, true).1.Some?
    ensures Deregister(d, s, r, w).1.TooMany? <==> Limited(d, s, r, w, false).1.Some?
  {
    hide L.IpChecked, L.FacetsChecked, AuthorizeRegister, AuthorizeDeregister, SignedRegister, SignedDeregister, LegacyRegister,
      LegacyDelete, LegacyDeleteByOwner, IsSignedAttempt, FacetsOf;
  }

  /** The legacy window is over: expiry was observed before, or the cutoff is reached, or there is none. */
  predicate WindowOver(d: Deps, s: Server, w: World) {
    d.mode == T.DualAccept && (s.latch.expired || d.until.None? || w.now >= d.until.value)
  }

  /** A plain request is first told that the window is over, then that the secret is wrong, and neither touches a row. */
  lemma PlainRequestsTurnedAway(d: Deps, s: Server, r: Request, w: World)
    requires !NamesSignedField(r.body) && d.mode != T.SignedOnly
    ensures Limited(d, s, r, w, true).1.None? ==>
              && (WindowOver(d, s, w) <==> Register(d, s, r, w).1 == WindowExpired)
              && (!WindowOver(d, s, w) && !r.secretOk <==> Register(d, s, r, w).1 == Unauthorized)
    ensures Limited(d, s, r, w, false).1.None? ==>
              && (WindowOver(d, s, w) <==> Deregister(d, s, r, w).1 == WindowExpired)
              && (!WindowOver(d, s, w) && !r.secretOk <==> Deregister(d, s, r, w).1 == Unauthorized)
    ensures WindowOver(d, s, w) || !r.secretOk ==> Register(d, s, r, w).0.db == s.db && Deregister(d, s, r, w).0.db == s.db
  {
    SignedAttemptSpec(r.body);
    hide L.IpChecked, L.FacetsChecked, SignedRegisterPath, SignedDeregisterPath, IsSignedAttempt, FacetsOf, NamesSignedField;
    hide LegacyRegister, LegacyDelete, LegacyDeleteByOwner;
  }

  /** And a plain registration is stored only of an owned vault, with a token of ten characters at least. */
  lemma StoredOnlyIfOwned(d: Deps, s: Server, r: Request, w: World)
    requires Register(d, s, r, w).1.LegacyDone?
    ensures LegacyOpen(d, s, r, w) && w.legacyOwnership == Owned
    ensures IsPubkey(d, Get(r.body, "owner")) && IsPubkey(d, Get(r.body, "vault"))
    ensures Get(r.body, "deviceToken").Str? && |Get(r.body, "deviceToken").s| >= 10
  {
    SignedAttemptSpec(r.body);
    hide L.IpChecked, L.FacetsChecked, AuthorizeRegister, SignedRegister, LegacyRegister, IsSignedAttempt, FacetsOf, NamesSignedField;
  }

  /** What a status tells the client: sign again, someone else's, change the request, or the same request later. */
  ghost predicate StatusFits(res: Response) {
    res.Coded? ==>
      && (res.status == 400 <==> res.code == InvalidRequest)
      && (res.status == 401 <==> res.code in {InvalidSignature, StaleTimestamp, ContextMismatch, NonceReused})
      && (res.status == 403 <==> res.code == OwnershipFailed)
      && (res.status == 409 <==> res.code in {SignedNotEnabled, SignedRequired, SignedAuthorizationRequired, StaleRevision, OwnerConflict})
      && (res.status == 502 <==> res.code == DependencyUnavailable)
      && (res.status == 503 <==> res.code == DatabaseError)
      && res.status in {400, 401, 403, 409, 502, 503}
  }

  /** The codes of refusals; the others are answered in another shape. */
  predicate Refuses(code: Code) {
    code !in {Created, Updated, Removed, Ok, LegacyWindowExpired, RateLimited}
  }

  lemma RefusalFits(code: Code)
    requires Refuses(code)
    ensures StatusFits(Fail(code))
  {
  }

  lemma DenialRefuses(b: Body, x: Expected, k: Crypto, row: Option<Row>, o: Ownership, now: int)
    ensures AuthorizeRegister(b, x, k, o, now).Denied? ==> Refuses(AuthorizeRegister(b, x, k, o, now).code)
    ensures AuthorizeDeregister(b, x, k, row, o, now).Denied? ==> Refuses(AuthorizeDeregister(b, x, k, row, o, now).code)
  {
    hide RegisterMessageV2, DeregisterMessageV2, RegisterFieldsOf, DeregisterFieldsOf, ContextMismatched, ValidDeviceToken;
  }

  lemma SignedStoreReplies(db: Db)
    ensures forall c :: SignedRegister(db, c).1.code in {Created, Updated} || Refuses(SignedRegister(db, c).1.code)
    ensures forall c :: SignedDeregister(db, c).1.code == Removed || Refuses(SignedDeregister(db, c).1.code)
  {
  }

  lemma UncodedFits(res: Response)
    requires !res.Coded?
    ensures StatusFits(res)
  {
  }

  lemma EveryRefusalFits(d: Deps, s: Server, r: Request, w: World)
    ensures forall code {:trigger Fail(code)} | Refuses(code) :: StatusFits(Fail(code))
    ensures forall res: Response | !res.Coded? :: StatusFits(res)
    ensures var a := AuthorizeRegister(r.body, d.c.x, d.c.k, w.ownership, w.now); a.Denied? ==> Refuses(a.code)
    ensures forall row ::
              var a := AuthorizeDeregister(r.body, d.c.x, d.c.k, row, w.ownership, w.now); a.Denied? ==> Refuses(a.code)
    ensures forall c :: SignedRegister(s.db, c).1.code in {Created, Updated} || Refuses(SignedRegister(s.db, c).1.code)
    ensures forall c :: SignedDeregister(s.db, c).1.code == Removed || Refuses(SignedDeregister(s.db, c).1.code)
  {
    hide AuthorizeRegister, AuthorizeDeregister, SignedRegister, SignedDeregister, Fail, StatusFits, Refuses;
    forall code | Refuses(code) ensures StatusFits(Fail(code)) { RefusalFits(code); }
    forall res: Response | !res.Coded? ensures StatusFits(res) { UncodedFits(res); }
    forall row { DenialRefuses(r.body, d.c.x, d.c.k, row, w.ownership, w.now); }
    DenialRefuses(r.body, d.c.x, d.c.k, None, w.ownership, w.now);
    SignedStoreReplies(s.db);
  }

  /** Every coded refusal has the status its code stands for, and success is never coded. */
  lemma RegisterStatusFits(d: Deps, s: Server, r: Request, w: World)
    ensures StatusFits(Register(d, s, r, w).1)
  {
    hide L.IpChecked, L.FacetsChecked, AuthorizeRegister, SignedRegister, LegacyRegister, IsSignedAttempt, FacetsOf, Fail, StatusFits;
    EveryRefusalFits(d, s, r, w);
  }

  lemma SignedRemovalFits(d: Deps, s: Server, r: Request, w: World)
    ensures StatusFits(SignedDeregisterPath(d, s, r, w).1)
  {
    hide AuthorizeDeregister, SignedDeregister, Fail, StatusFits, Refuses;
    EveryRefusalFits(d, s, r, w);
    RefusalFits(SignedNotEnabled);
    RefusalFits(DatabaseError);
  }

  lemma LegacyRemovalFits(d: Deps, s: Server, r: Request, w: World)
    ensures StatusFits(LegacyDeregisterPath(d, s, r, w).1)
  {
    hide LegacyDelete, LegacyDeleteByOwner, Fail, StatusFits, IsPubkey, T.Observe, T.StatusOf;
    RefusalFits(SignedRequired);
    RefusalFits(SignedAuthorizationRequired);
    RefusalFits(DatabaseError);
    var res := LegacyDeregisterPath(d, s, r, w).1;
    if !res.Coded? { UncodedFits(res); }
  }

  lemma DeregisterStatusFits(d: Deps, s: Server, r: Request, w: World)
    ensures StatusFits(Deregister(d, s, r, w).1)
  {
    hide L.IpChecked, L.FacetsChecked, SignedDeregisterPath, LegacyDeregisterPath, IsSignedAttempt, FacetsOf, StatusFits;
    EveryRefusalFits(d, s, r, w);
    var limited := Limited(d, s, r, w, false).0;
    SignedRemovalFits(d, limited, r, w);
    LegacyRemovalFits(d, limited, r, w);
  }
}
