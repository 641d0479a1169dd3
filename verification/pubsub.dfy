/** The Pub/Sub fan-out hook: each of five broker callbacks turns the event
    into a typed message, encodes it and publishes it to one of three Pub/Sub
    topics, unless the client's username is on the disallow list. The clock
    reading `time.Now()` is the input `now`; the topics are sinks that record
    what was published. */
module PubsubHook {
  import opened Wrappers
  import opened Bytes
  import opened Hooks
  import opened Json

  /** The identity the hook reports to the broker. */
  function ID(): (id: string)
    ensures id == "pubsub-messaging-hook"
  {
    "pubsub-messaging-hook"
  }

  /** The event tags this hook asks the broker to deliver. */
  const Capabilities: seq<Hook> :=
    [Hook.OnConnect, Hook.OnDisconnect, Hook.OnPublished, Hook.OnSubscribed, Hook.OnUnsubscribed]

  function Provides(b: Hook): (r: bool)
    ensures r <==> b in {Hook.OnConnect, Hook.OnDisconnect, Hook.OnPublished,
                         Hook.OnSubscribed, Hook.OnUnsubscribed}
  {
    Declares(Capabilities, b)
  }

  // ---------------------------------------------------------------------------
  // State and Init
  // ---------------------------------------------------------------------------

  /** Batching settings of a topic handle; the delay is in milliseconds. */
  datatype PublishSettings = PublishSettings(delayThresholdMs: nat, countThreshold: nat)

  /** `DelayThreshold: 1 * time.Second, CountThreshold: 10`, set on every topic. */
  const BatchSettings: PublishSettings := PublishSettings(1000, 10)

  /** A `*pubsub.Topic` handle: the project's client, the topic name, and
      its publish settings. */
  datatype Topic = Topic(projectID: string, name: string, settings: PublishSettings)

  /** The hook's fields. */
  datatype PubsubMessagingHook = PubsubMessagingHook(
    publishTopic: Option<Topic>,
    subscribeTopic: Option<Topic>,
    connectTopic: Option<Topic>,
    disallowlist: seq<string>)

  /** The zero value `new(PubsubMessagingHook)`. */
  const Unconfigured: PubsubMessagingHook := PubsubMessagingHook(None, None, None, [])

  /** The three destinations a callback can publish to. */
  datatype Sink = PublishSink | SubscribeSink | ConnectSink

  /** The topic handle the hook holds for a sink. */
  function TopicOf(h: PubsubMessagingHook, s: Sink): Option<Topic>
  {
    match s
    case PublishSink => h.publishTopic
    case SubscribeSink => h.subscribeTopic
    case ConnectSink => h.connectTopic
  }

  /** The topic name a configuration gives a sink. */
  function TopicName(c: PubsubMessagingHookConfig, s: Sink): string
  {
    match s
    case PublishSink => c.publishTopicName
    case SubscribeSink => c.subscribeTopicName
    case ConnectSink => c.connectTopicName
  }

  function Init(h: PubsubMessagingHook, config: Config): (r: InitResult<PubsubMessagingHook>)
    ensures config.NilConfig? ==> r == InitResult(h, Some(NilConfigError))
    ensures !config.NilConfig? && !config.Pubsub? ==> r == InitResult(h, Some(ImproperConfig))
    ensures config.Pubsub? ==> r.err.None?
    ensures r.err.None? ==>
              && config.Pubsub?
              && r.hook.disallowlist == config.pubsub.disallowList
              && forall s: Sink :: TopicOf(r.hook, s)
                   == Some(Topic(config.pubsub.projectID, TopicName(config.pubsub, s), BatchSettings))
  {
    match config
    case NilConfig => InitResult(h, Some(NilConfigError))
    case Pubsub(c) =>
      var hook := PubsubMessagingHook(
        Some(Topic(c.projectID, c.publishTopicName, BatchSettings)),
        Some(Topic(c.projectID, c.subscribeTopicName, BatchSettings)),
        Some(Topic(c.projectID, c.connectTopicName, BatchSettings)),
        c.disallowList);
      InitResult(hook, None)
    case _ => InitResult(h, Some(ImproperConfig))
  }

  // ---------------------------------------------------------------------------
  // Messages and their encoding
  // ---------------------------------------------------------------------------

  datatype PublishMessage = PublishMessage(clientID: string, topic: string, payload: seq<byte>, timestamp: int)

  datatype ConnectMessage = ConnectMessage(clientID: string, username: string, timestamp: int, connected: bool)

  datatype SubscribeMessage =
    SubscribeMessage(clientID: string, username: string, topic: string, subscribed: bool, timestamp: int)

  /** The three message structs a callback hands to `publish`. */
  datatype Message =
    | Published(publish: PublishMessage)
    | Connection(connect: ConnectMessage)
    | Subscription(subscribe: SubscribeMessage)

  /** The members of each message struct, in field order under their tags. */
  const PublishKeys: seq<string> := ["client_id", "topic", "payload", "timestamp"]
  const ConnectKeys: seq<string> := ["client_id", "username", "timestamp", "connected"]
  const SubscribeKeys: seq<string> := ["client_id", "username", "topic", "subscribed", "timestamp"]

  /** `json.Marshal` of a message: members in struct-field order under the
      structs' `json` tags. */
  function Encode(m: Message): (o: Object)
    ensures m.Published? ==> Keys(o) == PublishKeys
    ensures m.Connection? ==> Keys(o) == ConnectKeys
    ensures m.Subscription? ==> Keys(o) == SubscribeKeys
  {
    match m
    case Published(p) =>
      [Member("client_id", Str(p.clientID)), Member("topic", Str(p.topic)),
       Member("payload", Binary(p.payload)), Member("timestamp", Time(p.timestamp))]
    case Connection(c) =>
      [Member("client_id", Str(c.clientID)), Member("username", Str(c.username)),
       Member("timestamp", Time(c.timestamp)), Member("connected", Bool(c.connected))]
    case Subscription(s) =>
      [Member("client_id", Str(s.clientID)), Member("username", Str(s.username)),
       Member("topic", Str(s.topic)), Member("subscribed", Bool(s.subscribed)),
       Member("timestamp", Time(s.timestamp))]
  }

  /** How a downstream consumer reads a message back: the member only one
      struct has (`payload`, `connected`, `subscribed`) tells the kind. */
  function Decode(o: Object): Option<Message>
  {
    if Get(o, "payload").Some? then
      match (GetStr(o, "client_id"), GetStr(o, "topic"), GetBinary(o, "payload"), GetTime(o, "timestamp"))
      case (Some(c), Some(t), Some(p), Some(ts)) => Some(Published(PublishMessage(c, t, p, ts)))
      case _ => None
    else if Get(o, "connected").Some? then
      match (GetStr(o, "client_id"), GetStr(o, "username"), GetTime(o, "timestamp"), GetBool(o, "connected"))
      case (Some(c), Some(u), Some(ts), Some(b)) => Some(Connection(ConnectMessage(c, u, ts, b)))
      case _ => None
    else if Get(o, "subscribed").Some? then
      match (GetStr(o, "client_id"), GetStr(o, "username"), GetStr(o, "topic"),
             GetBool(o, "subscribed"), GetTime(o, "timestamp"))
      case (Some(c), Some(u), Some(t), Some(b), Some(ts)) => Some(Subscription(SubscribeMessage(c, u, t, b, ts)))
      case _ => None
    else None
  }

  /** Every field of every message survives encoding for downstream readers. */
  lemma EncodeDecode(m: Message)
    ensures Decode(Encode(m)) == Some(m)
  {
    match m
    case Published(p) => PublishRoundTrip(p);
    case Connection(c) => ConnectRoundTrip(c);
    case Subscription(s) => SubscribeRoundTrip(s);
  }

  lemma PublishRoundTrip(p: PublishMessage)
    ensures Decode(Encode(Published(p))) == Some(Published(p))
  {
    var o := Encode(Published(p));
    GetFirst(o, 0);
    GetFirst(o, 1);
    GetFirst(o, 2);
    GetFirst(o, 3);
  }

  lemma ConnectRoundTrip(c: ConnectMessage)
    ensures Decode(Encode(Connection(c))) == Some(Connection(c))
  {
    var o := Encode(Connection(c));
    GetAbsent(o, "payload");
    GetFirst(o, 0);
    GetFirst(o, 1);
    GetFirst(o, 2);
    GetFirst(o, 3);
  }

  lemma SubscribeRoundTrip(s: SubscribeMessage)
    ensures Decode(Encode(Subscription(s))) == Some(Subscription(s))
  {
    var o := Encode(Subscription(s));
    GetAbsent(o, "payload");
    GetAbsent(o, "connected");
    GetFirst(o, 0);
    GetFirst(o, 1);
    GetFirst(o, 2);
    GetFirst(o, 3);
    GetFirst(o, 4);
  }

  // ---------------------------------------------------------------------------
  // Filtering and publishing
  // ---------------------------------------------------------------------------

  /** `checkAllowed`: scans the disallow list for an entry equal to the
      username. */
  function CheckAllowed(h: PubsubMessagingHook, username: string): (allowed: bool)
    ensures allowed <==> username !in h.disallowlist
    decreases |h.disallowlist|
  {
    if |h.disallowlist| == 0 then true
    else if username == h.disallowlist[0] then false
    else
      var rest := h.(disallowlist := h.disallowlist[1..]);
      assert h.disallowlist == [h.disallowlist[0]] + rest.disallowlist;
      CheckAllowed(rest, username)
  }

  /** One message handed to a topic: the sink and the encoded bytes. */
  datatype Emission = Emission(sink: Sink, data: Object)

  /** The effect of one `publish` call and the error it returned. */
  datatype Publication = Publication(sent: Emission, err: Option<string>)

  /** `publish(topic, data)`: encodes the message, submits it without waiting
      for the server's acknowledgement, and reports no error. */
  function Publish(sink: Sink, m: Message): (r: Publication)
    ensures r.err.None?
    ensures r.sent.sink == sink && Decode(r.sent.data) == Some(m)
    ensures Keys(r.sent.data) == Keys(Encode(m))
  {
    EncodeDecode(m);
    Publication(Emission(sink, Encode(m)), None)
  }

  /** What a callback did: the messages it published and the errors it logged. */
  datatype Effects = Effects(emitted: seq<Emission>, logged: seq<string>)

  const Nothing: Effects := Effects([], [])

  /** The body every callback shares: filter on the username, publish, and
      log the error `publish` returned, if any. */
  function Forward(h: PubsubMessagingHook, cl: Client, sink: Sink, m: Message): Effects
  {
    if !CheckAllowed(h, cl.username) then Nothing
    else
      var p := Publish(sink, m);
      Effects([p.sent], if p.err.Some? then [p.err.value] else [])
  }

  /** The promise of every callback: nothing is ever logged; a disallowed
      user produces no message; anyone else produces exactly `m` on `sink`. */
  ghost predicate ForwardsOnly(h: PubsubMessagingHook, cl: Client, r: Effects, sink: Sink, m: Message)
  {
    && r.logged == []
    && if cl.username in h.disallowlist then r.emitted == []
       else && |r.emitted| == 1
            && r.emitted[0].sink == sink
            && Decode(r.emitted[0].data) == Some(m)
            && Keys(r.emitted[0].data) == Keys(Encode(m))
  }

  // ---------------------------------------------------------------------------
  // Callbacks
  // ---------------------------------------------------------------------------

  function OnUnsubscribed(h: PubsubMessagingHook, cl: Client, pk: Packet, now: int): (r: Effects)
    ensures ForwardsOnly(h, cl, r, SubscribeSink,
                         Subscription(SubscribeMessage(cl.id, cl.username, pk.topicName, false, now)))
  {
    Forward(h, cl, SubscribeSink, Subscription(SubscribeMessage(cl.id, cl.username, pk.topicName, false, now)))
  }

  function OnSubscribed(h: PubsubMessagingHook, cl: Client, pk: Packet, reasonCodes: seq<byte>, now: int): (r: Effects)
    ensures ForwardsOnly(h, cl, r, SubscribeSink,
                         Subscription(SubscribeMessage(cl.id, cl.username, pk.topicName, true, now)))
  {
    Forward(h, cl, SubscribeSink, Subscription(SubscribeMessage(cl.id, cl.username, pk.topicName, true, now)))
  }

  function OnConnect(h: PubsubMessagingHook, cl: Client, pk: Packet, now: int): (r: Effects)
    ensures ForwardsOnly(h, cl, r, ConnectSink, Connection(ConnectMessage(cl.id, cl.username, now, true)))
  {
    Forward(h, cl, ConnectSink, Connection(ConnectMessage(cl.id, cl.username, now, true)))
  }

  function OnDisconnect(h: PubsubMessagingHook, cl: Client, connectErr: Option<string>, expire: bool, now: int): (r: Effects)
    ensures ForwardsOnly(h, cl, r, ConnectSink, Connection(ConnectMessage(cl.id, cl.username, now, false)))
  {
    Forward(h, cl, ConnectSink, Connection(ConnectMessage(cl.id, cl.username, now, false)))
  }

  function OnPublished(h: PubsubMessagingHook, cl: Client, pk: Packet, now: int): (r: Effects)
    ensures ForwardsOnly(h, cl, r, PublishSink, Published(PublishMessage(cl.id, pk.topicName, pk.payload, now)))
  {
    Forward(h, cl, PublishSink, Published(PublishMessage(cl.id, pk.topicName, pk.payload, now)))
  }

  // ---------------------------------------------------------------------------
  // Properties across callbacks
  // ---------------------------------------------------------------------------

  /** A broker occurrence delivered to one of the five callbacks. */
  datatype Event =
    | ConnectEvent(connectPacket: Packet)
    | DisconnectEvent(cause: Option<string>, expire: bool)
    | PublishedEvent(publishPacket: Packet)
    | SubscribedEvent(subscribePacket: Packet, reasonCodes: seq<byte>)
    | UnsubscribedEvent(unsubscribePacket: Packet)

  /** The callback the broker invokes for an event. */
  function Dispatch(h: PubsubMessagingHook, cl: Client, ev: Event, now: int): Effects
  {
    match ev
    case ConnectEvent(pk) => OnConnect(h, cl, pk, now)
    case DisconnectEvent(cause, expire) => OnDisconnect(h, cl, cause, expire, now)
    case PublishedEvent(pk) => OnPublished(h, cl, pk, now)
    case SubscribedEvent(pk, codes) => OnSubscribed(h, cl, pk, codes, now)
    case UnsubscribedEvent(pk) => OnUnsubscribed(h, cl, pk, now)
  }

  /** The sink each kind of event is routed to. */
  function SinkOf(ev: Event): Sink
  {
    match ev
    case ConnectEvent(_) => ConnectSink
    case DisconnectEvent(_, _) => ConnectSink
    case PublishedEvent(_) => PublishSink
    case SubscribedEvent(_, _) => SubscribeSink
    case UnsubscribedEvent(_) => SubscribeSink
  }

  /** For every event: the callback publishes nothing exactly when the user
      is disallowed, otherwise one message to the event's sink; no callback
      ever logs, because `publish` never fails. */
  lemma DispatchFanOut(h: PubsubMessagingHook, cl: Client, ev: Event, now: int)
    ensures var r := Dispatch(h, cl, ev, now);
            && r.logged == []
            && |r.emitted| <= 1
            && (r.emitted == [] <==> cl.username in h.disallowlist)
            && forall e :: e in r.emitted ==> e.sink == SinkOf(ev)
  {
  }

  /** Connect and disconnect publish the same message but for `connected`;
      the disconnect's error and expiry flag leave no trace. */
  lemma ConnectDisconnectDifferOnlyInFlag(h: PubsubMessagingHook, cl: Client, pk: Packet,
                                          cause: Option<string>, expire: bool, now: int)
    requires cl.username !in h.disallowlist
    ensures var c := Decode(OnConnect(h, cl, pk, now).emitted[0].data);
            var d := Decode(OnDisconnect(h, cl, cause, expire, now).emitted[0].data);
            && c.Some? && c.value.Connection? && c.value.connect.connected
            && d.Some? && d.value.Connection? && !d.value.connect.connected
            && c.value.connect.(connected := false) == d.value.connect
    ensures OnDisconnect(h, cl, cause, expire, now) == OnDisconnect(h, cl, None, false, now)
  {
  }

  /** Subscribe and unsubscribe publish the same message but for
      `subscribed`, with the packet's topic name as `topic`. */
  lemma SubscribeUnsubscribeDifferOnlyInFlag(h: PubsubMessagingHook, cl: Client, pk: Packet,
                                             reasonCodes: seq<byte>, now: int)
    requires cl.username !in h.disallowlist
    ensures var s := Decode(OnSubscribed(h, cl, pk, reasonCodes, now).emitted[0].data);
            var u := Decode(OnUnsubscribed(h, cl, pk, now).emitted[0].data);
            && s.Some? && s.value.Subscription? && s.value.subscribe.subscribed
            && s.value.subscribe.topic == pk.topicName
            && u.Some? && u.value.Subscription? && !u.value.subscribe.subscribed
            && s.value.subscribe.(subscribed := false) == u.value.subscribe
  {
  }

  /** A published-message record carries no `username` member. */
  lemma PublishedOmitsUsername(h: PubsubMessagingHook, cl: Client, pk: Packet, now: int)
    requires cl.username !in h.disallowlist
    ensures Get(OnPublished(h, cl, pk, now).emitted[0].data, "username").None?
  {
    GetAbsent(Encode(Published(PublishMessage(cl.id, pk.topicName, pk.payload, now))), "username");
  }
}
