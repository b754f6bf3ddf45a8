/** Owner-signed authorisation, version 2: from a request body to a command, or to the code of the first failed check. */
module Auth {
  import opened Prelude
  import opened AuthMessage
  import opened Store

  const SIG_WINDOW_SEC := 600
  const DEVICE_TOKEN_MIN := 32
  const DEVICE_TOKEN_MAX := 4096

  /** A field of a JSON body: text, an integer, or anything else, which includes fractions and missing fields. */
  datatype Js = Str(s: string) | Num(n: int) | Junk
  type Body = map<string, Js>

  datatype Expected = Expected(cluster: string, programId: Pubkey, audience: string)

  /**
   * Cryptography and Base58 decoding are given: SHA-256, the canonical-key test, the vault address of an
   * owner, signature decoding and Ed25519 verification over (text, signature, owner).
   */
  datatype Crypto = Crypto(
    hash: string -> string,
    canonical: string -> bool,
    pda: (Pubkey, Pubkey) -> Option<Pubkey>,
    decodes: string -> bool,
    ownerBytes: Pubkey -> bool,
    verifies: (string, string, Pubkey) -> bool)

  /** What the ownership verifier reports. */
  datatype Ownership = Owned | NotOwned | Transient | VerifierThrew

  datatype Authorized<T> = Granted(command: T) | Denied(code: Code)

  function Get(b: Body, field: string): Js {
    if field in b then b[field] else Junk
  }

  /** A value of the wrong type becomes one that no validator accepts. */
  function TextOf(v: Js): string {
    if v.Str? then v.s else ""
  }

  function NumberOf(v: Js): int {
    if v.Num? then v.n else 0
  }

  predicate DisallowedInToken(c: char) {
    || c <= '\U{20}' || '\U{7f}' <= c <= '\U{a0}' || c == '\U{1680}' || '\U{2000}' <= c <= '\U{200a}'
    || c == '\U{2028}' || c == '\U{2029}' || c == '\U{202f}' || c == '\U{205f}' || c == '\U{3000}' || c == '\U{feff}'
  }

  predicate ValidDeviceToken(v: Js) {
    v.Str? && DEVICE_TOKEN_MIN <= |v.s| <= DEVICE_TOKEN_MAX && forall i :: 0 <= i < |v.s| ==> !DisallowedInToken(v.s[i])
  }

  predicate ContextMismatched(b: Body, x: Expected) {
    || x.audience != NOTIFY_AUDIENCE
    || Get(b, "cluster") != Str(x.cluster)
    || Get(b, "programId") != Str(x.programId)
    || Get(b, "audience") != Str(x.audience)
  }

  function FreshnessError(timestamp: Js, now: int): Option<Code> {
    if !timestamp.Num? || timestamp.n <= 0 then Some(InvalidRequest)
    else if now - timestamp.n > SIG_WINDOW_SEC || timestamp.n - now > SIG_WINDOW_SEC then Some(StaleTimestamp)
    else None
  }

  function ClassifyOwnership(o: Ownership): Option<Code> {
    match o
    case Owned => None
    case NotOwned => Some(OwnershipFailed)
    case Transient => Some(DependencyUnavailable)
    case VerifierThrew => Some(DependencyUnavailable)
  }

  function RegisterFieldsOf(b: Body, k: Crypto): RegisterFields {
    RegisterFields(
      TextOf(Get(b, "cluster")), TextOf(Get(b, "programId")), TextOf(Get(b, "owner")), TextOf(Get(b, "vault")),
      k.hash(TextOf(Get(b, "deviceToken"))),
      NumberOf(Get(b, "stage1")), NumberOf(Get(b, "stage2")), NumberOf(Get(b, "stage3")),
      NumberOf(Get(b, "revision")), NumberOf(Get(b, "timestamp")), TextOf(Get(b, "nonce")))
  }

  function DeregisterFieldsOf(b: Body): DeregisterFields {
    DeregisterFields(
      TextOf(Get(b, "cluster")), TextOf(Get(b, "programId")), TextOf(Get(b, "owner")), TextOf(Get(b, "vault")),
      NumberOf(Get(b, "timestamp")), TextOf(Get(b, "nonce")))
  }

  /** The checks on the signature, in order. */
  function SignatureError(b: Body, k: Crypto, text: string): Option<Code> {
    var signature := TextOf(Get(b, "signature"));
    var owner := TextOf(Get(b, "owner"));
    if !Get(b, "signature").Str? || !k.decodes(signature) then Some(InvalidSignature)
    else if !k.ownerBytes(owner) then Some(InvalidRequest)
    else if !k.verifies(text, signature, owner) then Some(InvalidSignature)
    else None
  }

  function CommandOf(f: RegisterFields, deviceToken: string, now: int): RegisterCommand {
    RegisterCommand(f.owner, f.vault, deviceToken, f.deviceTokenHash, f.stage1, f.stage2, f.stage3,
                    f.revision, f.timestamp, f.nonce, now)
  }

  function AuthorizeRegister(b: Body, x: Expected, k: Crypto, ownership: Ownership, now: int): Authorized<RegisterCommand> {
    if Get(b, "version") != Num(2) then Denied(InvalidRequest)
    else if Get(b, "action") != Str("register") then Denied(InvalidRequest)
    else if ContextMismatched(b, x) then Denied(ContextMismatch)
    else if !ValidDeviceToken(Get(b, "deviceToken")) then Denied(InvalidRequest)
    else
      var stale := FreshnessError(Get(b, "timestamp"), now);
      if stale.Some? then Denied(stale.value)
      else
        var f := RegisterFieldsOf(b, k);
        var text := RegisterMessageV2(k.canonical, f);
        if text.None? then Denied(InvalidRequest)
        else
          var bad := SignatureError(b, k, text.value);
          if bad.Some? then Denied(bad.value)
          else
            var unowned := ClassifyOwnership(ownership);
            if unowned.Some? then Denied(unowned.value)
            else Granted(CommandOf(f, TextOf(Get(b, "deviceToken")), now))
  }

  /** `row` is the stored registration of the vault: with the signer's own row no chain read is needed. */
  function AuthorizeDeregister(b: Body, x: Expected, k: Crypto, row: Option<Row>, ownership: Ownership, now: int)
    : Authorized<DeregisterCommand>
  {
    if Get(b, "version") != Num(2) then Denied(InvalidRequest)
    else if Get(b, "action") != Str("deregister") then Denied(InvalidRequest)
    else if ContextMismatched(b, x) then Denied(ContextMismatch)
    else
      var stale := FreshnessError(Get(b, "timestamp"), now);
      if stale.Some? then Denied(stale.value)
      else
        var f := DeregisterFieldsOf(b);
        var text := DeregisterMessageV2(k.canonical, f);
        if text.None? then Denied(InvalidRequest)
        else if k.pda(f.owner, f.programId).None? then Denied(InvalidRequest)
        else if k.pda(f.owner, f.programId).value != f.vault then Denied(ContextMismatch)
        else
          var bad := SignatureError(b, k, text.value);
          if bad.Some? then Denied(bad.value)
          else
            var command := DeregisterCommand(f.owner, f.vault, f.nonce, now, f.timestamp);
            if row.Some? && row.value.owner == f.owner then Granted(command)
            else if row.Some? then Denied(OwnerConflict)
            else
              var unowned := ClassifyOwnership(ownership);
              if unowned.Some? then Denied(unowned.value) else Granted(command)
  }

  // ---- what a grant proves ----

  /**
   * The owner signed a text from which every field of the command, the cluster and the program can be read
   * back; the token is pinned by its hash, and the text is fresh.
   */
  lemma GrantedRegisterIsSigned(b: Body, x: Expected, k: Crypto, ownership: Ownership, now: int)
    requires AuthorizeRegister(b, x, k, ownership, now).Granted?
    ensures var c := AuthorizeRegister(b, x, k, ownership, now).command;
            var f := RegisterFieldsOf(b, k);
            var text := RegisterMessageV2(k.canonical, f);
            && text.Some? && k.verifies(text.value, TextOf(Get(b, "signature")), c.owner)
            && ParseRegister(text.value) == Some(f)
            && c == CommandOf(f, c.deviceToken, now) && f.deviceTokenHash == k.hash(c.deviceToken)
            && f.cluster == x.cluster && f.programId == x.programId && x.audience == NOTIFY_AUDIENCE
            && -600 <= now - c.signedAt <= 600 && c.revision > 0
            && ownership == Owned
  {
    RegisterReadsBack(k.canonical, RegisterFieldsOf(b, k));
  }

  /** A field that passed its validator was a field of the body. */
  lemma RegisterFieldsAreBody(b: Body, k: Crypto)
    requires ValidRegister(k.canonical, RegisterFieldsOf(b, k))
    ensures var f := RegisterFieldsOf(b, k);
            && Get(b, "cluster") == Str(f.cluster) && Get(b, "programId") == Str(f.programId)
            && Get(b, "owner") == Str(f.owner) && Get(b, "vault") == Str(f.vault)
            && Get(b, "stage1") == Num(f.stage1) && Get(b, "stage2") == Num(f.stage2) && Get(b, "stage3") == Num(f.stage3)
            && Get(b, "revision") == Num(f.revision) && Get(b, "timestamp") == Num(f.timestamp)
            && Get(b, "nonce") == Str(f.nonce)
  {
  }

  /**
   * Field by field: on a grant the signed text consists of exactly these lines, in which each field of the command
   * stands under its own name; it is the field of that name in the body; and the token is the body's, named in the
   * text by its hash.
   */
  lemma GrantedFieldsAreSigned(b: Body, x: Expected, k: Crypto, ownership: Ownership, now: int)
    requires AuthorizeRegister(b, x, k, ownership, now).Granted?
    ensures var c := AuthorizeRegister(b, x, k, ownership, now).command;
            && c.stage1 > 0 && c.stage2 > 0 && c.stage3 > 0 && c.revision > 0 && c.signedAt > 0
            && (exists text :: k.verifies(text, TextOf(Get(b, "signature")), c.owner) && Split(text) == [
                  "DMV_NOTIFY_REGISTER_V2", "version=2", "cluster=" + x.cluster, "programId=" + x.programId,
                  "audience=" + "https://notify.palatinearc.com", "action=register", "owner=" + c.owner, "vault=" + c.vault,
                  "deviceTokenHash=" + c.deviceTokenHash, "stage1=" + Decimal(c.stage1), "stage2=" + Decimal(c.stage2),
                  "stage3=" + Decimal(c.stage3), "revision=" + Decimal(c.revision), "timestamp=" + Decimal(c.signedAt),
                  "nonce=" + c.nonce])
            && c.deviceTokenHash == k.hash(c.deviceToken) && Get(b, "deviceToken") == Str(c.deviceToken)
            && Get(b, "owner") == Str(c.owner) && Get(b, "vault") == Str(c.vault)
            && Get(b, "stage1") == Num(c.stage1) && Get(b, "stage2") == Num(c.stage2) && Get(b, "stage3") == Num(c.stage3)
            && Get(b, "revision") == Num(c.revision) && Get(b, "timestamp") == Num(c.signedAt)
            && Get(b, "nonce") == Str(c.nonce) && c.nonceUsedAt == now
  {
    var f := RegisterFieldsOf(b, k);
    RegisterFieldsAreBody(b, k);
    RegisterLinesAreLines(k.canonical, f);
    SplitUndoesJoin(RegisterLines(f));
    hide ValidRegister, Join, Split, Decimal, NoBreaks, RegisterFieldsOf, FreshnessError, ContextMismatched, SignatureError;
    GrantedContext(b, x, k, ownership, now);
    LinesWrittenOut(f);
    var text := RegisterMessageV2(k.canonical, f).value;
    assert Split(text) == RegisterLines(f);
  }

  /** The lines of the text with nothing left to compute but the numbers. */
  lemma LinesWrittenOut(f: RegisterFields)
    requires f.stage1 >= 0 && f.stage2 >= 0 && f.stage3 >= 0 && f.revision >= 0 && f.timestamp >= 0
    ensures RegisterLines(f) == [
              "DMV_NOTIFY_REGISTER_V2", "version=2", "cluster=" + f.cluster, "programId=" + f.programId,
              "audience=" + "https://notify.palatinearc.com", "action=register", "owner=" + f.owner, "vault=" + f.vault,
              "deviceTokenHash=" + f.deviceTokenHash, "stage1=" + Decimal(f.stage1), "stage2=" + Decimal(f.stage2),
              "stage3=" + Decimal(f.stage3), "revision=" + Decimal(f.revision), "timestamp=" + Decimal(f.timestamp),
              "nonce=" + f.nonce]
  {
    hide Decimal;
    assert "version=" + "2" == "version=2";
    assert "action=" + "register" == "action=register";
  }

  /** A grant of a registration, taken apart. */
  lemma GrantedContext(b: Body, x: Expected, k: Crypto, ownership: Ownership, now: int)
    requires AuthorizeRegister(b, x, k, ownership, now).Granted?
    ensures var f := RegisterFieldsOf(b, k);
            && RegisterMessageV2(k.canonical, f).Some? && f.cluster == x.cluster && f.programId == x.programId
            && k.verifies(RegisterMessageV2(k.canonical, f).value, TextOf(Get(b, "signature")), f.owner)
            && f.deviceTokenHash == k.hash(TextOf(Get(b, "deviceToken"))) && Get(b, "deviceToken").Str?
  {
  }

  /** The same for a deregistration. */
  lemma GrantedRemovalIsSigned(b: Body, x: Expected, k: Crypto, row: Option<Row>, ownership: Ownership, now: int)
    requires AuthorizeDeregister(b, x, k, row, ownership, now).Granted?
    ensures var c := AuthorizeDeregister(b, x, k, row, ownership, now).command;
            && c.signedAt > 0
            && (exists text :: k.verifies(text, TextOf(Get(b, "signature")), c.owner) && Split(text) == [
                  "DMV_NOTIFY_DEREGISTER_V2", "version=2", "cluster=" + x.cluster, "programId=" + x.programId,
                  "audience=" + "https://notify.palatinearc.com", "action=deregister", "owner=" + c.owner, "vault=" + c.vault,
                  "timestamp=" + Decimal(c.signedAt), "nonce=" + c.nonce])
            && Get(b, "owner") == Str(c.owner) && Get(b, "vault") == Str(c.vault)
            && Get(b, "timestamp") == Num(c.signedAt) && Get(b, "nonce") == Str(c.nonce) && c.nonceUsedAt == now
  {
    var f := DeregisterFieldsOf(b);
    RemovalContext(b, x, k, row, ownership, now);
    RemovalFieldsAreBody(b, k);
    DeregisterLinesAreLines(k.canonical, f);
    SplitUndoesJoin(DeregisterLines(f));
    hide AuthorizeDeregister, ValidDeregister, Join, Split, Decimal, NoBreaks, DeregisterFieldsOf;
    RemovalLinesWrittenOut(f);
    var text := DeregisterMessageV2(k.canonical, f).value;
    assert Split(text) == DeregisterLines(f);
  }

  lemma RemovalContext(b: Body, x: Expected, k: Crypto, row: Option<Row>, ownership: Ownership, now: int)
    requires AuthorizeDeregister(b, x, k, row, ownership, now).Granted?
    ensures var f := DeregisterFieldsOf(b);
            && DeregisterMessageV2(k.canonical, f).Some? && f.cluster == x.cluster && f.programId == x.programId
            && k.verifies(DeregisterMessageV2(k.canonical, f).value, TextOf(Get(b, "signature")), f.owner)
            && AuthorizeDeregister(b, x, k, row, ownership, now).command == DeregisterCommand(f.owner, f.vault, f.nonce, now, f.timestamp)
  {
  }

  lemma RemovalFieldsAreBody(b: Body, k: Crypto)
    requires ValidDeregister(k.canonical, DeregisterFieldsOf(b))
    ensures var f := DeregisterFieldsOf(b);
            && f.timestamp > 0 && Get(b, "owner") == Str(f.owner) && Get(b, "vault") == Str(f.vault)
            && Get(b, "timestamp") == Num(f.timestamp) && Get(b, "nonce") == Str(f.nonce)
  {
  }

  lemma RemovalLinesWrittenOut(f: DeregisterFields)
    requires f.timestamp >= 0
    ensures DeregisterLines(f) == [
              "DMV_NOTIFY_DEREGISTER_V2", "version=2", "cluster=" + f.cluster, "programId=" + f.programId,
              "audience=" + "https://notify.palatinearc.com", "action=deregister", "owner=" + f.owner, "vault=" + f.vault,
              "timestamp=" + Decimal(f.timestamp), "nonce=" + f.nonce]
  {
    hide Decimal;
    assert "version=" + "2" == "version=2";
    assert "action=" + "deregister" == "action=deregister";
  }

  lemma GrantedDeregisterIsSigned(b: Body, x: Expected, k: Crypto, row: Option<Row>, ownership: Ownership, now: int)
    requires AuthorizeDeregister(b, x, k, row, ownership, now).Granted?
    ensures var c := AuthorizeDeregister(b, x, k, row, ownership, now).command;
            var f := DeregisterFieldsOf(b);
            var text := DeregisterMessageV2(k.canonical, f);
            && text.Some? && k.verifies(text.value, TextOf(Get(b, "signature")), c.owner)
            && ParseDeregister(text.value) == Some(f)
            && c == DeregisterCommand(f.owner, f.vault, f.nonce, now, f.timestamp)
            && f.cluster == x.cluster && f.programId == x.programId
            && -600 <= now - c.signedAt <= 600
            && k.pda(c.owner, x.programId) == Some(c.vault)
            && (if row.Some? then row.value.owner == c.owner else ownership == Owned)
  {
    DeregisterReadsBack(k.canonical, DeregisterFieldsOf(b));
  }

  /** One signed text authorises one command: only the plaintext token, within its hash, and the server time are open. */
  lemma SignedTextFixesCommand(b: Body, b': Body, x: Expected, k: Crypto, o: Ownership, o': Ownership, now: int, now': int)
    requires AuthorizeRegister(b, x, k, o, now).Granted? && AuthorizeRegister(b', x, k, o', now').Granted?
    requires RegisterMessageV2(k.canonical, RegisterFieldsOf(b, k)) == RegisterMessageV2(k.canonical, RegisterFieldsOf(b', k))
    ensures var c := AuthorizeRegister(b, x, k, o, now).command;
            var c' := AuthorizeRegister(b', x, k, o', now').command;
            c' == c.(deviceToken := c'.deviceToken, nonceUsedAt := now') && k.hash(c'.deviceToken) == k.hash(c.deviceToken)
  {
    RegisterUnambiguous(k.canonical, RegisterFieldsOf(b, k), RegisterFieldsOf(b', k));
  }

  /** Two grants of one body differ in the server's time only. */
  lemma GrantedAgain(b: Body, x: Expected, k: Crypto, now: int, later: int)
    requires AuthorizeRegister(b, x, k, Owned, now).Granted? && AuthorizeRegister(b, x, k, Owned, later).Granted?
    ensures AuthorizeRegister(b, x, k, Owned, later).command
            == AuthorizeRegister(b, x, k, Owned, now).command.(nonceUsedAt := later)
    ensures var c := AuthorizeRegister(b, x, k, Owned, now).command;
            c.nonceUsedAt == now && c.vault == TextOf(Get(b, "vault"))
  {
  }

  /** Time only matters through freshness: a body granted once is granted at every instant at which it is fresh. */
  lemma GrantDependsOnFreshness(b: Body, x: Expected, k: Crypto, now: int, later: int)
    requires AuthorizeRegister(b, x, k, Owned, now).Granted?
    ensures AuthorizeRegister(b, x, k, Owned, later).Granted? <==>
              -600 <= later - AuthorizeRegister(b, x, k, Owned, now).command.signedAt <= 600
  {
  }

  // ---- who is granted ----

  /** What is granted is of the stated sizes: numbers a client holds exactly, a long nonce, a token without white space. */
  lemma GrantedFormIsChecked(b: Body, x: Expected, k: Crypto, ownership: Ownership, now: int)
    requires AuthorizeRegister(b, x, k, ownership, now).Granted?
    ensures var c := AuthorizeRegister(b, x, k, ownership, now).command;
            && 32 <= |c.deviceToken| <= 4096
            && (forall i :: 0 <= i < |c.deviceToken| ==> c.deviceToken[i] > ' ' && c.deviceToken[i] !in "\U{7f}\U{85}\U{a0}\U{2028}\U{2029}\U{feff}")
            && |c.deviceTokenHash| == 64
            && 22 <= |c.nonce| <= 64 && (forall i :: 0 <= i < |c.nonce| ==> c.nonce[i] !in "0OIl=:\n ")
            && 1 <= c.stage1 <= 9007199254740991 && 1 <= c.stage2 <= 9007199254740991 && 1 <= c.stage3 <= 9007199254740991
            && 1 <= c.revision <= 9007199254740991 && 1 <= c.signedAt <= 9007199254740991
  {
  }

  /** The body an honest client sends for these fields. */
  function RegisterBody(f: RegisterFields, token: string, signature: string): Body {
    map["version" := Num(2), "action" := Str("register"), "audience" := Str("https://notify.palatinearc.com"),
        "cluster" := Str(f.cluster), "programId" := Str(f.programId), "owner" := Str(f.owner), "vault" := Str(f.vault),
        "deviceToken" := Str(token), "stage1" := Num(f.stage1), "stage2" := Num(f.stage2), "stage3" := Num(f.stage3),
        "revision" := Num(f.revision), "timestamp" := Num(f.timestamp), "nonce" := Str(f.nonce), "signature" := Str(signature)]
  }

  lemma RegisterBodyReads(f: RegisterFields, token: string, signature: string, k: Crypto)
    requires f.deviceTokenHash == k.hash(token)
    ensures var b := RegisterBody(f, token, signature);
            && RegisterFieldsOf(b, k) == f
            && Get(b, "version") == Num(2) && Get(b, "action") == Str("register") && Get(b, "deviceToken") == Str(token)
            && Get(b, "timestamp") == Num(f.timestamp) && Get(b, "signature") == Str(signature) && Get(b, "owner") == Str(f.owner)
            && Get(b, "cluster") == Str(f.cluster) && Get(b, "programId") == Str(f.programId)
            && Get(b, "audience") == Str("https://notify.palatinearc.com")
  {
  }

  /** A valid, fresh, signed registration of one's own vault is granted, and refused only for want of ownership. */
  lemma HonestRegistrationIsGranted(f: RegisterFields, token: string, signature: string, x: Expected, k: Crypto, o: Ownership, now: int)
    requires ValidRegister(k.canonical, f) && f.cluster == x.cluster && f.programId == x.programId
    requires x.audience == "https://notify.palatinearc.com" && f.deviceTokenHash == k.hash(token)
    requires 32 <= |token| <= 4096 && forall i :: 0 <= i < |token| ==> '!' <= token[i] <= '~'
    requires -600 <= now - f.timestamp <= 600
    requires k.decodes(signature) && k.ownerBytes(f.owner) && k.verifies(RegisterMessageV2(k.canonical, f).value, signature, f.owner)
    ensures AuthorizeRegister(RegisterBody(f, token, signature), x, k, o, now) ==
            match o
            case Owned => Granted(RegisterCommand(f.owner, f.vault, token, f.deviceTokenHash, f.stage1, f.stage2, f.stage3,
                                                  f.revision, f.timestamp, f.nonce, now))
            case NotOwned => Denied(OwnershipFailed)
            case _ => Denied(DependencyUnavailable)
  {
    hide RegisterBody, RegisterFieldsOf, ValidRegister;
    RegisterBodyReads(f, token, signature, k);
    TimestampIsPositive(k, f);
  }

  lemma TimestampIsPositive(k: Crypto, f: RegisterFields)
    requires ValidRegister(k.canonical, f)
    ensures f.timestamp > 0
  {
  }

  /** Nobody learns who owns a vault without a signature: the answer depends on ownership only where it verified. */
  lemma OwnershipIsAskedLast(b: Body, x: Expected, k: Crypto, o: Ownership, o': Ownership, now: int)
    requires AuthorizeRegister(b, x, k, o, now) != AuthorizeRegister(b, x, k, o', now)
    ensures var text := RegisterMessageV2(k.canonical, RegisterFieldsOf(b, k));
            text.Some? && k.verifies(text.value, TextOf(Get(b, "signature")), TextOf(Get(b, "owner")))
  {
  }

  function DeregisterBody(f: DeregisterFields, signature: string): Body {
    map["version" := Num(2), "action" := Str("deregister"), "audience" := Str("https://notify.palatinearc.com"),
        "cluster" := Str(f.cluster), "programId" := Str(f.programId), "owner" := Str(f.owner), "vault" := Str(f.vault),
        "timestamp" := Num(f.timestamp), "nonce" := Str(f.nonce), "signature" := Str(signature)]
  }

  lemma DeregisterBodyReads(f: DeregisterFields, signature: string)
    ensures var b := DeregisterBody(f, signature);
            && DeregisterFieldsOf(b) == f
            && Get(b, "version") == Num(2) && Get(b, "action") == Str("deregister")
            && Get(b, "timestamp") == Num(f.timestamp) && Get(b, "signature") == Str(signature) && Get(b, "owner") == Str(f.owner)
            && Get(b, "cluster") == Str(f.cluster) && Get(b, "programId") == Str(f.programId)
            && Get(b, "audience") == Str("https://notify.palatinearc.com")
  {
  }

  /**
   * A valid, fresh, signed removal of the owner's own vault is granted: with a row of one's own whatever the chain
   * says, without a row if the chain confirms the ownership, over another's row never.
   */
  lemma HonestRemovalIsGranted(f: DeregisterFields, signature: string, x: Expected, k: Crypto, row: Option<Row>, o: Ownership, now: int)
    requires ValidDeregister(k.canonical, f) && f.cluster == x.cluster && f.programId == x.programId
    requires x.audience == "https://notify.palatinearc.com" && k.pda(f.owner, f.programId) == Some(f.vault)
    requires -600 <= now - f.timestamp <= 600
    requires k.decodes(signature) && k.ownerBytes(f.owner) && k.verifies(DeregisterMessageV2(k.canonical, f).value, signature, f.owner)
    ensures AuthorizeDeregister(DeregisterBody(f, signature), x, k, row, o, now) ==
            if row.Some? && row.value.owner != f.owner then Denied(OwnerConflict)
            else if row.Some? || o == Owned then Granted(DeregisterCommand(f.owner, f.vault, f.nonce, now, f.timestamp))
            else if o == NotOwned then Denied(OwnershipFailed)
            else Denied(DependencyUnavailable)
  {
    hide DeregisterBody, DeregisterFieldsOf, ValidDeregister;
    DeregisterBodyReads(f, signature);
    RemovalTimestampIsPositive(k, f);
  }

  lemma RemovalTimestampIsPositive(k: Crypto, f: DeregisterFields)
    requires ValidDeregister(k.canonical, f)
    ensures f.timestamp > 0
  {
  }
}
