/** What the three hooks share: the broker's event tags, the broker-side
    client and packet fields the hooks read, the untyped configuration value
    handed to `Init`, and the outcome of `Init`. */
module Hooks {
  import opened Wrappers
  import opened Bytes

  /** The broker's hook event tags (the `On…` byte constants of the mqtt
      package). Their numeric values are not part of this model. */
  datatype Hook =
    | SetOptions | OnSysInfoTick | OnStarted | OnStopped
    | OnConnectAuthenticate | OnACLCheck
    | OnConnect | OnSessionEstablish | OnSessionEstablished | OnDisconnect
    | OnAuthPacket | OnPacketRead | OnPacketEncode | OnPacketSent | OnPacketProcessed
    | OnSubscribe | OnSubscribed | OnSelectSubscribers | OnUnsubscribe | OnUnsubscribed
    | OnPublish | OnPublished | OnPublishDropped | OnRetainMessage | OnRetainPublished
    | OnQosPublish | OnQosComplete | OnQosDropped | OnPacketIDExhausted
    | OnWill | OnWillSent | OnClientExpired | OnRetainedExpired
    | StoredClients | StoredSubscriptions | StoredInflightMessages
    | StoredRetainedMessages | StoredSysInfo

  /** The capability test every hook's `Provides` performs:
      `bytes.Contains(caps, []byte{b})`. */
  function Declares(caps: seq<Hook>, b: Hook): (r: bool)
    ensures r <==> b in caps
  {
    ContainsSingleton(caps, b);
    Contains(caps, [b])
  }

  /** The fields of a connected client the hooks read: `cl.ID` and
      `cl.Properties.Username`. */
  datatype Client = Client(id: string, username: string)

  /** The fields of a packet the hooks read: the CONNECT credentials,
      `pk.TopicName` and `pk.Payload`. */
  datatype Packet = Packet(connectUsername: string, connectPassword: string,
                           topicName: string, payload: seq<byte>)

  /** An `http.RoundTripper` value: nil, the wrapper around Go's default
      transport that `NewTransport` installs, or one injected by the operator. */
  datatype RoundTripper = NoRoundTripper | DefaultTransport | Injected(handle: nat)

  datatype HTTPAuthHookConfig = HTTPAuthHookConfig(
    aclHost: string,
    superUserHost: string,
    clientAuthenticationHost: string,
    roundTripper: RoundTripper)

  datatype PubsubMessagingHookConfig = PubsubMessagingHookConfig(
    projectID: string,
    publishTopicName: string,
    subscribeTopicName: string,
    connectTopicName: string,
    disallowList: seq<string>)

  datatype SecretManagerHookConfig = SecretManagerHookConfig(names: seq<string>)

  /** The `any` value the broker passes to `Init`: nil, one of the three
      hook configurations, or a value of some other dynamic type. */
  datatype Config =
    | NilConfig
    | HTTPAuth(http: HTTPAuthHookConfig)
    | Pubsub(pubsub: PubsubMessagingHookConfig)
    | SecretManager(secrets: SecretManagerHookConfig)
    | OtherConfig(typeName: string)

  /** The errors `Init` can return. */
  datatype ConfigError =
    | NilConfigError
    | ImproperConfig
    | HostnameValidationFailed
    | SecretAccessFailed(cause: string)

  /** The text of the Go error value for each case. */
  function ErrorText(e: ConfigError): string
  {
    match e
    case NilConfigError => "nil config"
    case ImproperConfig => "improper config"
    case HostnameValidationFailed => "hostname configs failed validation"
    case SecretAccessFailed(cause) => cause
  }

  /** The hook after `Init` together with the error `Init` returned. */
  datatype InitResult<H> = InitResult(hook: H, err: Option<ConfigError>)
}
