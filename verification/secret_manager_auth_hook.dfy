/** The Secret Manager admin hook: at `Init` it reads one secret per
    configured name, and afterwards allows a connect or ACL check exactly
    when the client's username is one of the secrets read. Secret Manager
    itself is an oracle giving each name either its payload or an error. */
module SecretManagerAuthHook {
  import opened Wrappers
  import opened Hooks

  /** The identity the hook reports to the broker. */
  function ID(): (id: string)
    ensures id == "secret-manager-auth-hook"
  {
    "secret-manager-auth-hook"
  }

  /** The event tags this hook asks the broker to deliver. */
  const Capabilities: seq<Hook> := [Hook.OnACLCheck, Hook.OnConnectAuthenticate]

  function Provides(b: Hook): (r: bool)
    ensures r <==> b == Hook.OnACLCheck || b == Hook.OnConnectAuthenticate
  {
    Declares(Capabilities, b)
  }

  /** The hook's only field: the admin usernames read at `Init`. */
  datatype SecretManagerAuthHook = SecretManagerAuthHook(usernames: seq<string>)

  /** The zero value `new(SecretManagerAuthHook)`. */
  const Unconfigured: SecretManagerAuthHook := SecretManagerAuthHook([])

  /** What `AccessSecretVersion` returns for one name: the payload data as a
      string, or the error. */
  datatype SecretVersion = Secret(data: string) | AccessError(cause: string)

  type SecretStore = string -> SecretVersion

  /** `getAdminCredentials`: reads the secrets in order and stops at the
      first error, which it returns. */
  function GetAdminCredentials(names: seq<string>, store: SecretStore): (r: Result<seq<string>, string>)
    ensures r.Success? <==> forall i :: 0 <= i < |names| ==> store(names[i]).Secret?
    ensures r.Success? ==>
              && |r.value| == |names|
              && forall i :: 0 <= i < |names| ==> r.value[i] == store(names[i]).data
    ensures r.Failure? ==>
              exists i :: && 0 <= i < |names|
                          && store(names[i]) == AccessError(r.error)
                          && forall j :: 0 <= j < i ==> store(names[j]).Secret?
  {
    if |names| == 0 then Success([])
    else
      match store(names[0])
      case AccessError(e) => Failure(e)
      case Secret(d) =>
        match GetAdminCredentials(names[1..], store)
        case Failure(e) =>
          assert forall i :: 1 <= i < |names| ==> names[i] == names[1..][i - 1];
          Failure(e)
        case Success(rest) =>
          assert forall i :: 1 <= i < |names| ==> names[i] == names[1..][i - 1];
          Success([d] + rest)
  }

  function Init(h: SecretManagerAuthHook, config: Config, store: SecretStore): (r: InitResult<SecretManagerAuthHook>)
    ensures config.NilConfig? ==> r == InitResult(h, Some(NilConfigError))
    ensures !config.NilConfig? && !config.SecretManager? ==> r == InitResult(h, Some(ImproperConfig))
    ensures config.SecretManager? ==>
              var names := config.secrets.names;
              && (r.err.None? <==> forall i :: 0 <= i < |names| ==> store(names[i]).Secret?)
              && (r.err.Some? ==>
                    && r.hook == h
                    && r.err.value.SecretAccessFailed?
                    && exists i :: && 0 <= i < |names|
                                   && store(names[i]) == AccessError(r.err.value.cause)
                                   && forall j :: 0 <= j < i ==> store(names[j]).Secret?)
              && (r.err.None? ==>
                    && |r.hook.usernames| == |names|
                    && forall i :: 0 <= i < |names| ==> r.hook.usernames[i] == store(names[i]).data)
  {
    match config
    case NilConfig => InitResult(h, Some(NilConfigError))
    case SecretManager(c) =>
      (match GetAdminCredentials(c.names, store)
       case Failure(e) => InitResult(h, Some(SecretAccessFailed(e)))
       case Success(usernames) => InitResult(SecretManagerAuthHook(usernames), None))
    case _ => InitResult(h, Some(ImproperConfig))
  }

  /** `checkAdminCredentials`: scans the stored usernames for an equal one. */
  function CheckAdminCredentials(h: SecretManagerAuthHook, username: string): (admin: bool)
    ensures admin <==> username in h.usernames
    decreases |h.usernames|
  {
    if |h.usernames| == 0 then false
    else if username == h.usernames[0] then true
    else
      var rest := h.(usernames := h.usernames[1..]);
      assert h.usernames == [h.usernames[0]] + rest.usernames;
      CheckAdminCredentials(rest, username)
  }

  function OnConnectAuthenticate(h: SecretManagerAuthHook, cl: Client, pk: Packet): (allow: bool)
    ensures allow <==> cl.username in h.usernames
  {
    CheckAdminCredentials(h, cl.username)
  }

  function OnACLCheck(h: SecretManagerAuthHook, cl: Client, topic: string, write: bool): (allow: bool)
    ensures allow <==> cl.username in h.usernames
  {
    CheckAdminCredentials(h, cl.username)
  }

  /** Both checks give one answer per username: the client id, the CONNECT
      packet, the topic and the access kind play no part. */
  lemma DecisionDependsOnlyOnUsername(h: SecretManagerAuthHook, cl1: Client, cl2: Client, pk: Packet,
                                      topic: string, write: bool)
    requires cl1.username == cl2.username
    ensures OnConnectAuthenticate(h, cl1, pk) == OnACLCheck(h, cl2, topic, write)
  {
  }

  /** After a successful `Init`, a client is admitted exactly when its
      username is the payload of one of the configured secrets. */
  lemma AdmittedIffSecretPayload(h: SecretManagerAuthHook, names: seq<string>, store: SecretStore,
                                 cl: Client, pk: Packet)
    requires Init(h, SecretManager(SecretManagerHookConfig(names)), store).err.None?
    ensures var hook := Init(h, SecretManager(SecretManagerHookConfig(names)), store).hook;
            OnConnectAuthenticate(hook, cl, pk) <==>
              exists i :: 0 <= i < |names| && store(names[i]) == Secret(cl.username)
  {
  }

  /** A failed `Init` keeps whatever usernames the hook already had, so the
      hook keeps answering as before. */
  lemma FailedInitKeepsDecisions(h: SecretManagerAuthHook, config: Config, store: SecretStore,
                                 cl: Client, pk: Packet)
    requires Init(h, config, store).err.Some?
    ensures OnConnectAuthenticate(Init(h, config, store).hook, cl, pk) == OnConnectAuthenticate(h, cl, pk)
  {
  }
}
