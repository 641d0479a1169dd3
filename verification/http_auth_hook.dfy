/** The HTTP authorization hook: it answers the broker's connect and ACL
    checks by POSTing a JSON payload to a remote decision endpoint and
    allowing exactly when the endpoint answers with a 2xx status. The HTTP
    client's `Do` is an input (`Transport`); a transport failure denies. */
module HttpAuthHook {
  import opened Wrappers
  import opened Hooks
  import opened Json
  import Strconv

  /** The identity the hook reports to the broker. */
  function ID(): (id: string)
    ensures id == "http-auth-hook"
  {
    "http-auth-hook"
  }

  /** The event tags this hook asks the broker to deliver. */
  const Capabilities: seq<Hook> := [Hook.OnACLCheck, Hook.OnConnectAuthenticate]

  function Provides(b: Hook): (r: bool)
    ensures r <==> b == Hook.OnACLCheck || b == Hook.OnConnectAuthenticate
  {
    Declares(Capabilities, b)
  }

  /** The `*http.Client` built by `NewTransport`. */
  datatype HttpClient = HttpClient(transport: RoundTripper)

  /** `NewTransport`: a nil round tripper is replaced by the default wrapper. */
  function NewTransport(rt: RoundTripper): (c: HttpClient)
    ensures !c.transport.NoRoundTripper?
    ensures rt.NoRoundTripper? ==> c.transport == DefaultTransport
    ensures !rt.NoRoundTripper? ==> c.transport == rt
  {
    HttpClient(if rt.NoRoundTripper? then DefaultTransport else rt)
  }

  /** The hook's fields; `superuserhost` is stored but never used. */
  datatype HTTPAuthHook = HTTPAuthHook(
    httpclient: Option<HttpClient>,
    aclhost: string,
    clientauthhost: string,
    superuserhost: string)

  /** The zero value `new(HTTPAuthHook)` the broker starts from. */
  const Unconfigured: HTTPAuthHook := HTTPAuthHook(None, "", "", "")

  /** `validateConfig`: both decision endpoints must be non-empty. */
  function ValidateConfig(c: HTTPAuthHookConfig): (ok: bool)
    ensures ok <==> |c.aclHost| > 0 && |c.clientAuthenticationHost| > 0
  {
    !(c.aclHost == "" || c.clientAuthenticationHost == "")
  }

  /** The hook's fields are exactly those a configuration prescribes. */
  predicate ConfiguredFrom(h: HTTPAuthHook, c: HTTPAuthHookConfig)
  {
    && h.httpclient == Some(NewTransport(c.roundTripper))
    && h.aclhost == c.aclHost
    && h.clientauthhost == c.clientAuthenticationHost
    && h.superuserhost == c.superUserHost
  }

  function Init(h: HTTPAuthHook, config: Config): (r: InitResult<HTTPAuthHook>)
    ensures config.NilConfig? ==> r == InitResult(h, Some(NilConfigError))
    ensures !config.NilConfig? && !config.HTTPAuth? ==> r == InitResult(h, Some(ImproperConfig))
    ensures config.HTTPAuth? ==>
              (r.err.None? <==> config.http.aclHost != "" && config.http.clientAuthenticationHost != "")
    ensures config.HTTPAuth? && r.err.Some? ==> r == InitResult(h, Some(HostnameValidationFailed))
    ensures r.err.None? ==> config.HTTPAuth? && ConfiguredFrom(r.hook, config.http)
  {
    match config
    case NilConfig => InitResult(h, Some(NilConfigError))
    case HTTPAuth(c) =>
      if !ValidateConfig(c) then InitResult(h, Some(HostnameValidationFailed))
      else InitResult(HTTPAuthHook(Some(NewTransport(c.roundTripper)),
                                   c.aclHost, c.clientAuthenticationHost, c.superUserHost), None)
    case _ => InitResult(h, Some(ImproperConfig))
  }

  /** A successful `Init` does not depend on the state it started from, so
      repeating it with the same configuration changes nothing. */
  lemma InitIdempotent(h: HTTPAuthHook, h': HTTPAuthHook, config: Config)
    requires Init(h, config).err.None?
    ensures Init(h', config) == Init(h, config)
    ensures Init(Init(h, config).hook, config) == Init(h, config)
  {
  }

  /** The all-empty configuration of the hook's tests fails validation and
      leaves the hook as it was. */
  lemma EmptyConfigRejected(h: HTTPAuthHook)
    ensures Init(h, HTTPAuth(HTTPAuthHookConfig("", "", "", NoRoundTripper)))
              == InitResult(h, Some(HostnameValidationFailed))
  {
  }

  // ---------------------------------------------------------------------------
  // Requests and payloads
  // ---------------------------------------------------------------------------

  const MethodPost: string := "POST"

  /** An HTTP request as `makeRequest` builds it; a missing body is
      `http.NoBody`. */
  datatype Request = Request(verb: string, url: string, body: Option<Object>)

  /** What the HTTP client's `Do` yields: an error, or the final response
      after any redirects it followed. Failures to marshal the body or to
      build the request are folded into `TransportError`. */
  datatype RoundTrip = TransportError(cause: string) | Response(statusCode: int)

  /** The hook's HTTP client's `Do` applied to the request `makeRequest`
      builds. This includes the client's default policy of following up to
      ten redirects, so the status is that of the last response. */
  type Transport = (HttpClient, Request) -> RoundTrip

  datatype ClientCheckPOST = ClientCheckPOST(clientID: string, password: string, username: string)

  datatype ACLCheckPOST = ACLCheckPOST(username: string, clientID: string, topic: string, acc: string)

  /** The connect-check members, in struct-field order under their tags. */
  const ClientCheckKeys: seq<string> := ["clientid", "password", "username"]

  /** The ACL-check members, in struct-field order under their tags. */
  const ACLCheckKeys: seq<string> := ["username", "clientid", "topic", "acc"]

  /** `json.Marshal` of a connect-check payload. */
  function EncodeClientCheck(p: ClientCheckPOST): (o: Object)
    ensures Keys(o) == ClientCheckKeys
  {
    [Member("clientid", Str(p.clientID)),
     Member("password", Str(p.password)),
     Member("username", Str(p.username))]
  }

  /** How a decision endpoint reads a connect-check body. */
  function DecodeClientCheck(o: Object): Option<ClientCheckPOST>
  {
    match (GetStr(o, "clientid"), GetStr(o, "password"), GetStr(o, "username"))
    case (Some(c), Some(p), Some(u)) => Some(ClientCheckPOST(c, p, u))
    case _ => None
  }

  /** `json.Marshal` of an ACL-check payload. */
  function EncodeACLCheck(p: ACLCheckPOST): (o: Object)
    ensures Keys(o) == ACLCheckKeys
  {
    [Member("username", Str(p.username)),
     Member("clientid", Str(p.clientID)),
     Member("topic", Str(p.topic)),
     Member("acc", Str(p.acc))]
  }

  /** How a decision endpoint reads an ACL-check body. */
  function DecodeACLCheck(o: Object): Option<ACLCheckPOST>
  {
    match (GetStr(o, "username"), GetStr(o, "clientid"), GetStr(o, "topic"), GetStr(o, "acc"))
    case (Some(u), Some(c), Some(t), Some(a)) => Some(ACLCheckPOST(u, c, t, a))
    case _ => None
  }

  lemma ClientCheckRoundTrip(p: ClientCheckPOST)
    ensures DecodeClientCheck(EncodeClientCheck(p)) == Some(p)
  {
    var o := EncodeClientCheck(p);
    GetFirst(o, 0);
    GetFirst(o, 1);
    GetFirst(o, 2);
  }

  lemma ACLCheckRoundTrip(p: ACLCheckPOST)
    ensures DecodeACLCheck(EncodeACLCheck(p)) == Some(p)
  {
    var o := EncodeACLCheck(p);
    GetFirst(o, 0);
    GetFirst(o, 1);
    GetFirst(o, 2);
    GetFirst(o, 3);
  }

  /** The request `makeRequest` hands to the client and what `Do` yields. */
  datatype Exchange = Exchange(sent: Request, outcome: RoundTrip)

  /** `makeRequest`: builds one request with the given verb, URL and body,
      hands it to the client's `Do`, and returns what `Do` yields for that
      request. */
  function MakeRequest(client: HttpClient, verb: string, url: string,
                       payload: Option<Object>, send: Transport): (r: Exchange)
    ensures r.sent.verb == verb && r.sent.url == url && r.sent.body == payload
    ensures r.outcome == send(client, r.sent)
  {
    var req := Request(verb, url, payload);
    Exchange(req, send(client, req))
  }

  /** The status test shared by both callbacks; an error means deny. */
  function Allows(outcome: RoundTrip): bool
  {
    match outcome
    case TransportError(_) => false
    case Response(status) => status >= 200 && status < 300
  }

  /** A callback's observable behaviour: the request it sent and the boolean
      it returned to the broker. */
  datatype Check = Check(sent: Request, allow: bool)

  function OnConnectAuthenticate(h: HTTPAuthHook, cl: Client, pk: Packet, send: Transport): (r: Check)
    requires h.httpclient.Some?
    ensures r.sent.verb == MethodPost && r.sent.url == h.clientauthhost
    ensures r.sent.body.Some? && Keys(r.sent.body.value) == ClientCheckKeys
    ensures DecodeClientCheck(r.sent.body.value)
              == Some(ClientCheckPOST(cl.id, pk.connectPassword, pk.connectUsername))
    ensures r.allow <==>
              var outcome := send(h.httpclient.value, r.sent);
              outcome.Response? && 200 <= outcome.statusCode < 300
  {
    var payload := ClientCheckPOST(cl.id, pk.connectPassword, pk.connectUsername);
    ClientCheckRoundTrip(payload);
    var ex := MakeRequest(h.httpclient.value, MethodPost, h.clientauthhost,
                          Some(EncodeClientCheck(payload)), send);
    Check(ex.sent, Allows(ex.outcome))
  }

  function OnACLCheck(h: HTTPAuthHook, cl: Client, topic: string, write: bool, send: Transport): (r: Check)
    requires h.httpclient.Some?
    ensures r.sent.verb == MethodPost && r.sent.url == h.aclhost
    ensures r.sent.body.Some? && Keys(r.sent.body.value) == ACLCheckKeys
    ensures var p := DecodeACLCheck(r.sent.body.value);
            && p.Some?
            && p.value.clientID == cl.id && p.value.username == cl.username && p.value.topic == topic
            && Strconv.ParseBool(p.value.acc) == Some(write)
    ensures r.allow <==>
              var outcome := send(h.httpclient.value, r.sent);
              outcome.Response? && 200 <= outcome.statusCode < 300
  {
    var payload := ACLCheckPOST(cl.username, cl.id, topic, Strconv.FormatBool(write));
    ACLCheckRoundTrip(payload);
    Strconv.FormatBoolRoundTrip(write);
    var ex := MakeRequest(h.httpclient.value, MethodPost, h.aclhost,
                          Some(EncodeACLCheck(payload)), send);
    Check(ex.sent, Allows(ex.outcome))
  }

  /** The `acc` field is the literal text "true" for a write check and
      "false" for a read check. */
  lemma ACLAccessField(h: HTTPAuthHook, cl: Client, topic: string, write: bool, send: Transport)
    requires h.httpclient.Some?
    ensures DecodeACLCheck(OnACLCheck(h, cl, topic, write, send).sent.body.value).value.acc
              == (if write then "true" else "false")
  {
    ACLCheckRoundTrip(ACLCheckPOST(cl.username, cl.id, topic, Strconv.FormatBool(write)));
  }

  /** An endpoint can tell ACL checks apart: two checks that send the same
      request were asked for the same client, topic and access kind. */
  lemma ACLRequestIdentifiesCheck(h: HTTPAuthHook, cl1: Client, topic1: string, write1: bool,
                                  cl2: Client, topic2: string, write2: bool, send: Transport)
    requires h.httpclient.Some?
    requires OnACLCheck(h, cl1, topic1, write1, send).sent == OnACLCheck(h, cl2, topic2, write2, send).sent
    ensures cl1 == cl2 && topic1 == topic2 && write1 == write2
  {
  }

  /** Fail-closed: when the decision endpoint cannot be reached, both checks
      deny, whatever the client, packet, topic or access kind. */
  lemma FailClosed(h: HTTPAuthHook, cl: Client, pk: Packet, topic: string, write: bool, send: Transport)
    requires h.httpclient.Some?
    requires forall req: Request :: send(h.httpclient.value, req).TransportError?
    ensures !OnConnectAuthenticate(h, cl, pk, send).allow
    ensures !OnACLCheck(h, cl, topic, write, send).allow
  {
  }

  /** The connect-check cases of the hook's tests: an endpoint answering 200
      allows, one answering 418 (I'm a teapot) denies. */
  lemma ConnectStatusScenarios(h: HTTPAuthHook, cl: Client, pk: Packet)
    requires h.httpclient.Some?
    ensures OnConnectAuthenticate(h, cl, pk, (c, req) => Response(200)).allow
    ensures !OnConnectAuthenticate(h, cl, pk, (c, req) => Response(418)).allow
  {
  }

  /** The successful ACL-check case of the hook's tests: 200 allows a read
      check. */
  lemma ACLSuccessScenario(h: HTTPAuthHook, cl: Client, topic: string)
    requires h.httpclient.Some?
    ensures OnACLCheck(h, cl, topic, false, (c, req) => Response(200)).allow
  {
  }

  /** The failing ACL-check cases of the hook's tests: 418 and an
      unreachable endpoint deny a read check. */
  lemma ACLErrorScenarios(h: HTTPAuthHook, cl: Client, topic: string)
    requires h.httpclient.Some?
    ensures !OnACLCheck(h, cl, topic, false, (c, req) => Response(418)).allow
    ensures !OnACLCheck(h, cl, topic, false, (c, req) => TransportError("Oh Crap")).allow
  {
  }
}
