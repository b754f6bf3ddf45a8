/** The push transport: one cached client, one project id and the readiness that sends and probes leave behind. */
module Fcm {
  import opened Prelude

  datatype Reason =
    | Startup | Usable | NotConfigured | NoAccessToken | AwaitingSendRecovery
    | Failed(code: string) | HttpStatus(status: nat)

  datatype PushState = PushState(ready: bool, reason: Reason, providerRejected: bool)

  /** The module variables. An unknown project is the empty text. */
  datatype Transport = Transport(state: PushState, hasClient: bool, projectId: string)

  /** What reading the service account yields. */
  datatype Load = Loaded(project: string) | NoCredentials | LoadThrows(code: string)
  datatype TokenReply = Granted | EmptyToken | TokenThrows(code: string)

  /** `bodyCut`: the send deadline passed before the body was read. */
  datatype Response = Unreachable(code: string) | Http(status: nat, bodyCut: bool, errorCode: string)

  datatype SendScript = SendScript(load: Load, token: TokenReply, response: Response)

  datatype Result =
    | Delivered | Suppressed | Refused(unregistered: bool)
    | AuthFailed | Unconfigured | Tokenless | SendFailed

  predicate Unregistered(r: Result) {
    r.Refused? && r.unregistered
  }

  predicate IsTransportFailure(status: nat) {
    status == 401 || status == 403 || status == 429 || status >= 500
  }

  predicate IsSuccess(status: nat) {
    200 <= status < 300
  }

  // ---- the transport as functions ----

  function WithState(t: Transport, ready: bool, reason: Reason, rejected: bool): Transport {
    t.(state := PushState(ready, reason, rejected))
  }

  function Forgotten(configured: string, t: Transport): Transport {
    t.(hasClient := false, projectId := configured)
  }

  /** The client is made from the service account once; only then is a missing project filled in. */
  function WithClient(t: Transport, load: Load): Transport {
    if t.hasClient || !load.Loaded? then t
    else t.(hasClient := true, projectId := if t.projectId == "" then load.project else t.projectId)
  }

  /** The request leaves only with a client, a project known before the client was made, a token and the guard's yes. */
  predicate Requests(t: Transport, s: SendScript, canSend: bool) {
    (t.hasClient || s.load.Loaded?) && t.projectId != "" && s.token.Granted? && canSend
  }

  function SendResult(t: Transport, s: SendScript, canSend: bool): Result {
    if !t.hasClient && s.load.LoadThrows? then AuthFailed
    else if !t.hasClient && s.load.NoCredentials? then Unconfigured
    else if t.projectId == "" then Unconfigured
    else if s.token.TokenThrows? then AuthFailed
    else if s.token.EmptyToken? then Tokenless
    else if !canSend then Suppressed
    else if s.response.Unreachable? || s.response.bodyCut then SendFailed
    else if IsSuccess(s.response.status) then Delivered
    else Refused(s.response.errorCode == "UNREGISTERED" || s.response.status == 404)
  }

  function AfterSend(configured: string, t: Transport, s: SendScript, canSend: bool): Transport {
    var u := WithClient(t, s.load);
    match SendResult(t, s, canSend)
    case AuthFailed =>
      var why := Failed(if !t.hasClient && s.load.LoadThrows? then s.load.code else if s.token.TokenThrows? then s.token.code else "");
      WithState(Forgotten(configured, u), false, why, true)
    case Unconfigured => WithState(u, false, NotConfigured, true)
    case Tokenless => WithState(Forgotten(configured, u), false, NoAccessToken, true)
    case Suppressed => u
    case SendFailed => WithState(u, false, Failed(if s.response.Unreachable? then s.response.code else "rpc_timeout"), true)
    case Delivered => WithState(u, true, Usable, false)
    case Refused(_) =>
      var status := if s.response.Http? then s.response.status else 0;
      var v := if IsTransportFailure(status) then WithState(u, false, HttpStatus(status), true) else u;
      if status == 401 || status == 403 then Forgotten(configured, v) else v
  }

  datatype ProbeScript = ProbeScript(load: Load, token: TokenReply)

  function AfterProbe(configured: string, t: Transport, s: ProbeScript): Transport {
    var u := WithClient(t, s.load);
    var keep := t.state.providerRejected;
    if !t.hasClient && !s.load.Loaded? then
      WithState(Forgotten(configured, u), false, Failed(if s.load.LoadThrows? then s.load.code else "rpc_unreachable"), keep)
    else if u.projectId == "" then WithState(Forgotten(configured, u), false, Failed("rpc_unreachable"), keep)
    else if s.token.TokenThrows? then WithState(Forgotten(configured, u), false, Failed(s.token.code), keep)
    else if s.token.EmptyToken? then WithState(Forgotten(configured, u), false, NoAccessToken, keep)
    else if keep then WithState(u, false, AwaitingSendRecovery, true)
    else WithState(u, true, Usable, false)
  }

  // ---- the module in its own form ----

  class PushTransport {
    const configuredProject: string
    var state: PushState
    var hasClient: bool
    var projectId: string

    function Now(): Transport
      reads this
    {
      Transport(state, hasClient, projectId)
    }

    constructor (configuredProject: string)
      ensures this.configuredProject == configuredProject
      ensures Now() == Transport(PushState(false, Startup, false), false, configuredProject)
    {
      this.configuredProject := configuredProject;
      state, hasClient, projectId := PushState(false, Startup, false), false, configuredProject;
    }

    method SetFcm(ready: bool, reason: Reason, providerRejected: Option<bool>)
      modifies this
      ensures Now() == WithState(old(Now()), ready, reason,
                                 if providerRejected.None? then old(state.providerRejected) else providerRejected.value)
    {
      state := PushState(ready, reason, if providerRejected.None? then state.providerRejected else providerRejected.value);
    }

    method ResetFcm()
      modifies this
      ensures Now() == Forgotten(configuredProject, old(Now()))
    {
      hasClient := false;
      projectId := configuredProject;
    }

    /** `available` is false when there are no credentials; a throw is the caller's to handle. */
    method GetClient(load: Load) returns (available: bool)
      requires !load.LoadThrows? || hasClient
      modifies this
      ensures Now() == WithClient(old(Now()), load)
      ensures available == (old(hasClient) || load.Loaded?)
    {
      if hasClient { return true; }
      if load.NoCredentials? { return false; }
      if projectId == "" { projectId := load.project; }
      hasClient := true;
      available := true;
    }

    /** `canSend` is the guard's answer at the instant the token arrived. */
    method SendPush(s: SendScript, canSend: bool) returns (result: Result, requested: bool)
      modifies this
      ensures result == SendResult(old(Now()), s, canSend)
      ensures requested == Requests(old(Now()), s, canSend)
      ensures Now() == AfterSend(configuredProject, old(Now()), s, canSend)
    {
      requested := false;
      var effectiveProject := projectId;
      if !hasClient && s.load.LoadThrows? {
        ResetFcm();
        SetFcm(false, Failed(s.load.code), Some(true));
        return AuthFailed, false;
      }
      var available := GetClient(s.load);
      if !available || effectiveProject == "" {
        SetFcm(false, NotConfigured, Some(true));
        return Unconfigured, false;
      }
      if s.token.TokenThrows? {
        ResetFcm();
        SetFcm(false, Failed(s.token.code), Some(true));
        return AuthFailed, false;
      }
      if s.token.EmptyToken? {
        ResetFcm();
        SetFcm(false, NoAccessToken, Some(true));
        return Tokenless, false;
      }
      if !canSend {
        return Suppressed, false;
      }
      requested := true;
      match s.response
      case Unreachable(code) =>
        SetFcm(false, Failed(code), Some(true));
        result := SendFailed;
      case Http(status, bodyCut, errorCode) =>
        if bodyCut {
          SetFcm(false, Failed("rpc_timeout"), Some(true));
          return SendFailed, true;
        }
        if IsSuccess(status) {
          SetFcm(true, Usable, Some(false));
          return Delivered, true;
        }
        if IsTransportFailure(status) {
          SetFcm(false, HttpStatus(status), Some(true));
          if status == 401 || status == 403 {
            ResetFcm();
          }
        }
        result := Refused(errorCode == "UNREGISTERED" || status == 404);
    }

    method ProbeFcm(s: ProbeScript)
      modifies this
      ensures Now() == AfterProbe(configuredProject, old(Now()), s)
    {
      if !hasClient && s.load.LoadThrows? {
        ResetFcm();
        SetFcm(false, Failed(s.load.code), None);
        return;
      }
      var available := GetClient(s.load);
      if !available || projectId == "" {
        ResetFcm();
        SetFcm(false, Failed("rpc_unreachable"), None);
        return;
      }
      if s.token.TokenThrows? {
        ResetFcm();
        SetFcm(false, Failed(s.token.code), None);
        return;
      }
      if s.token.EmptyToken? {
        ResetFcm();
        SetFcm(false, NoAccessToken, None);
        return;
      }
      if state.providerRejected {
        SetFcm(false, AwaitingSendRecovery, None);
        return;
      }
      SetFcm(true, Usable, None);
    }
  }

  // ---- runs of sends and probes ----

  datatype Use = Send(script: SendScript, canSend: bool) | Probe(probe: ProbeScript)

  function AfterUse(configured: string, t: Transport, u: Use): Transport {
    match u
    case Send(s, canSend) => AfterSend(configured, t, s, canSend)
    case Probe(s) => AfterProbe(configured, t, s)
  }

  function AfterUses(configured: string, t: Transport, uses: seq<Use>): Transport {
    if uses == [] then t else AfterUse(configured, AfterUses(configured, t, uses[..|uses| - 1]), uses[|uses| - 1])
  }

  predicate Delivers(configured: string, t: Transport, u: Use) {
    u.Send? && SendResult(t, u.script, u.canSend).Delivered?
  }

  /** From startup on, over every run: a transport that the provider has turned away never calls itself ready. */
  lemma {:induction false} RejectedIsNeverReady(configured: string, uses: seq<Use>)
    ensures var t := AfterUses(configured, Transport(PushState(false, Startup, false), false, configured), uses);
            !(t.state.ready && t.state.providerRejected)
  {
    if uses != [] {
      RejectedIsNeverReady(configured, uses[..|uses| - 1]);
    }
  }

  lemma UseKeepsRejection(configured: string, t: Transport, u: Use)
    requires t.state.providerRejected && !t.state.ready && !Delivers(configured, t, u)
    ensures AfterUse(configured, t, u).state.providerRejected && !AfterUse(configured, t, u).state.ready
  {
  }

  /** After a rejection no run of uses brings readiness back unless one of its sends is delivered. */
  lemma {:induction false} OnlyADeliveryRecovers(configured: string, t: Transport, uses: seq<Use>)
    requires t.state.providerRejected && !t.state.ready
    requires forall i :: 0 <= i < |uses| ==> !Delivers(configured, AfterUses(configured, t, uses[..i]), uses[i])
    ensures var u := AfterUses(configured, t, uses); u.state.providerRejected && !u.state.ready
  {
    hide AfterUse, Delivers;
    if uses != [] {
      var n := |uses| - 1;
      assert forall i :: 0 <= i < n ==> uses[..n][..i] == uses[..i];
      OnlyADeliveryRecovers(configured, t, uses[..n]);
      UseKeepsRejection(configured, AfterUses(configured, t, uses[..n]), uses[n]);
    }
  }

  /** A push that is delivered was requested, so the guard had said yes with the token in hand. */
  lemma DeliveryNeedsTheGuard(t: Transport, s: SendScript, canSend: bool)
    ensures SendResult(t, s, canSend).Delivered? || SendResult(t, s, canSend).Refused? ==> Requests(t, s, canSend)
    ensures Requests(t, s, canSend) ==> canSend && !SendResult(t, s, canSend).Suppressed?
  {
  }

  /**
   * The project id is read before the client that would fill it in. So without a configured project the first
   * send after startup or after a reset never leaves, whatever credentials, tokens and the provider say, and
   * the transport then counts as rejected; the send after it does leave when its token and guard allow it.
   */
  lemma FirstSendAfterResetIsLost(t: Transport, first: SendScript, ok1: bool, second: SendScript, ok2: bool)
    requires t.projectId == "" && !t.hasClient
    ensures !Requests(t, first, ok1)
    ensures var u := AfterSend("", t, first, ok1);
            && u.state.providerRejected && !u.state.ready
            && (Requests(u, second, ok2) <==>
                first.load.Loaded? && first.load.project != "" && second.token.Granted? && ok2)
  {
  }

  // ---- what a send comes to ----

  /**
   * What the provider's answer means: only a complete 2xx answer to a request that left is a delivery; only a
   * complete answer with status 404 or the code UNREGISTERED tells of a dead token; no request, no answer.
   */
  lemma AnswerDecidesResult(t: Transport, s: SendScript, canSend: bool)
    ensures var (result, left) := (SendResult(t, s, canSend), Requests(t, s, canSend));
            var answered := left && s.response.Http? && !s.response.bodyCut;
            && (result.Delivered? <==> answered && 200 <= s.response.status <= 299)
            && (Unregistered(result) <==>
                  answered && !(200 <= s.response.status <= 299)
                  && (s.response.status == 404 || s.response.errorCode == "UNREGISTERED"))
            && (result.Refused? <==> answered && !(200 <= s.response.status <= 299))
            && (result.SendFailed? <==> left && !answered)
            && (result.Suppressed? ==> !canSend && !left)
  {
  }

  /**
   * Readiness after a send: it is there after a delivery, gone after whatever says that the transport does not
   * work, and untouched by a suppressed send and by a refusal of the token alone.
   */
  lemma SendDecidesReadiness(configured: string, t: Transport, s: SendScript, canSend: bool)
    ensures var (result, after) := (SendResult(t, s, canSend), AfterSend(configured, t, s, canSend).state);
            var aboutToken := result.Refused? && s.response.status < 500
                              && s.response.status != 401 && s.response.status != 403 && s.response.status != 429;
            && (result.Delivered? ==> after.ready && !after.providerRejected)
            && (result.Suppressed? || aboutToken ==> after == t.state)
            && (!result.Delivered? && !result.Suppressed? && !aboutToken ==> !after.ready && after.providerRejected)
  {
  }

  /** The cached client goes exactly when its credentials or token failed or were refused, or if there is none to keep. */
  lemma SendDecidesClient(configured: string, t: Transport, s: SendScript, canSend: bool)
    ensures var (result, after) := (SendResult(t, s, canSend), AfterSend(configured, t, s, canSend));
            && (after.hasClient <==>
                  (t.hasClient || s.load.Loaded?) && !result.AuthFailed? && !result.Tokenless?
                  && !(result.Refused? && (s.response.status == 401 || s.response.status == 403)))
            && (!after.hasClient && t.hasClient ==> after.projectId == configured)
  {
  }

  /** A probe makes the transport ready exactly if a token can be had and no send was rejected since the last delivery. */
  lemma ProbeDecidesReadiness(configured: string, t: Transport, s: ProbeScript)
    ensures var (before, after) := (t.state, AfterProbe(configured, t, s).state);
            var project := if t.projectId == "" && !t.hasClient && s.load.Loaded? then s.load.project else t.projectId;
            && after.providerRejected == before.providerRejected
            && (after.ready <==> (t.hasClient || s.load.Loaded?) && project != "" && s.token.Granted? && !before.providerRejected)
  {
  }
}
