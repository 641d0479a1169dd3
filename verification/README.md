# mochi-cloud-hooks: a Dafny model of three broker hooks

This project models the three extension hooks of the `mochicloudhooks` Go
package for the mochi MQTT broker, and proves properties of the model:

- **HTTP authorization hook** (`http_auth_hook.dfy`). The broker's connect
  and ACL checks are answered by POSTing a JSON payload to one of two remote
  decision endpoints. The check allows exactly when the HTTP client's `Do`
  yields a response with a 2xx status. A transport failure denies (fail-closed).
- **Pub/Sub fan-out hook** (`pubsub.dfy`). Five broker callbacks (connect,
  disconnect, published, subscribed, unsubscribed) each encode one typed
  message and publish it to one of three Pub/Sub topics. Clients whose
  username is on a disallow list are skipped.
- **Secret Manager admin hook** (`secret_manager_auth_hook.dfy`). `Init`
  reads one secret per configured name, all or nothing. Afterwards a connect
  or ACL check is allowed exactly when the client's username is one of the
  secrets read.

Shared pieces:
- `hooks.dfy`: the broker's event tags, the client and packet fields the
  hooks read, and the untyped `any` configuration as a datatype
  (`NilConfig | HTTPAuth | Pubsub | SecretManager | OtherConfig`). The "nil
  config" and "improper config" errors are therefore explicit cases.
- `bytes.dfy`: Go's `bytes.Contains`, which each `Provides` uses.
- `strconv.dfy`: `FormatBool`/`ParseBool`.
- `json.dfy`: the structured form of `json.Marshal` output.
- `registry.dfy`: compares the three hooks side by side.

Everything is functional:
- A hook's fields are an immutable datatype.
- `Init` returns the new fields together with the error. "Nothing is
  assigned on error" therefore reads `r.hook == h`.
- Every callback is a pure function.

The effects of the outside world are inputs:
- The HTTP client's `Do` is `Transport = (HttpClient, Request) -> RoundTrip`:
  an error, or the final response after any redirects the client followed.
- The clock reading `time.Now()` is the `now` parameter.
- Secret Manager is a `SecretStore = string -> SecretVersion` oracle.
- A Pub/Sub topic is a sink that records what was handed to it.

Payloads and messages are `json.Object` values: ordered members under the
structs' `json` tags. Each has a decoder, and round-trip lemmas show a
reader recovers every field. The callbacks' contracts are stated through
these decoders.

## Model

| member | source | states |
|---|---|---|
| Bytes.ContainsMeaning | http_auth_hook.go:52-57 | the `bytes.Contains` scan is true exactly when the sought run occurs at some offset of the list |
| Bytes.ContainsSingleton | http_auth_hook.go:53-56 | `bytes.Contains(list, []byte{b})` is true exactly when `b` is an element of `list` |
| Hooks.Declares | secret_manager_auth_hook.go:29-34 | the capability test every hook uses is membership of the tag in the hook's fixed list |
| Strconv.FormatBoolRoundTrip | http_auth_hook.go:104 | parsing the `acc` text back gives the original access kind |
| HttpAuthHook.ID | http_auth_hook_test.go:19-23 | the hook identifies itself as "http-auth-hook" |
| HttpAuthHook.NewTransport | transport.go:11-21 | the HTTP client never has a nil transport: a nil round tripper is replaced by the default-transport wrapper, any other is used as given |
| HttpAuthHook.ValidateConfig | http_auth_hook.go:144-149 | a configuration passes exactly when both `ACLHost` and `ClientAuthenticationHost` are non-empty; `SuperUserHost` plays no part |
| HttpAuthHook.EncodeClientCheck | http_auth_hook.go:35-39 | the marshalled connect payload has exactly the members `clientid`, `password`, `username`, in that order |
| HttpAuthHook.EncodeACLCheck | http_auth_hook.go:41-46 | the marshalled ACL payload has exactly the members `username`, `clientid`, `topic`, `acc`, in that order |
| HttpAuthHook.MakeRequest | http_auth_hook.go:116-142 | the request handed to the client carries the given verb, URL and body (none meaning `http.NoBody`), and the result is what the client's `Do` yields for that request |
| HttpAuthHook.Provides | http_auth_hook.go:52-57 | true exactly for `OnACLCheck` and `OnConnectAuthenticate`, false for every other tag (e.g. `OnClientExpired`) |
| HttpAuthHook.Init | http_auth_hook.go:59-81 | nil config gives "nil config" and a non-`HTTPAuthHookConfig` gives "improper config", both leaving the hook unchanged; an `HTTPAuthHookConfig` fails iff `ACLHost` or `ClientAuthenticationHost` is empty (`SuperUserHost` may be empty), again unchanged; on success the client is built from the round tripper and the three hosts equal the config's |
| HttpAuthHook.InitIdempotent | http_auth_hook.go:59-81 | a successful `Init` does not depend on the hook's earlier fields, so repeating it with the same config changes nothing |
| HttpAuthHook.EmptyConfigRejected | http_auth_hook_test.go:83-87 | the all-empty `HTTPAuthHookConfig{}` fails host validation and leaves the hook as it was |
| HttpAuthHook.ClientCheckRoundTrip | http_auth_hook.go:35-39 | a decision endpoint reading the connect payload recovers client id, password and username from the `clientid`, `password`, `username` members |
| HttpAuthHook.ACLCheckRoundTrip | http_auth_hook.go:41-46 | a decision endpoint reading the ACL payload recovers username, client id, topic and `acc` from their members |
| HttpAuthHook.OnConnectAuthenticate | http_auth_hook.go:83-97 | sends a POST to `clientauthhost` whose body has exactly the three connect-check members and decodes to the client id and the CONNECT username and password; allows iff `Do` gives a response with 200 <= status < 300, so a transport error or 418 denies |
| HttpAuthHook.OnACLCheck | http_auth_hook.go:99-114 | sends a POST to `aclhost` whose body has exactly the four ACL-check members and decodes to the client id, the client's username, the topic and an `acc` that parses back to `write`; allows iff the response status is in [200, 300) |
| HttpAuthHook.ACLAccessField | http_auth_hook.go:100-105 | the `acc` member is the text "true" for a write check and "false" for a read check |
| HttpAuthHook.ACLRequestIdentifiesCheck | http_auth_hook.go:99-107 | two ACL checks that send the same request were for the same client, topic and access kind |
| HttpAuthHook.FailClosed | http_auth_hook.go:90-94 | when `Do` fails for every request, both the connect check and the ACL check deny, for any client, packet, topic or access kind |
| HttpAuthHook.ConnectStatusScenarios | http_auth_hook_test.go:253-305 | a connect-check endpoint answering 200 allows; one answering 418 denies |
| HttpAuthHook.ACLSuccessScenario | http_auth_hook_test.go:114-128 | an ACL-check endpoint answering 200 allows a read |
| HttpAuthHook.ACLErrorScenarios | http_auth_hook_test.go:203-228 | an ACL-check endpoint answering 418, or unreachable, denies a read |
| PubsubHook.ID | pubsub.go:56-58 | the hook identifies itself as "pubsub-messaging-hook" |
| PubsubHook.Encode | pubsub.go:32-54 | each marshalled message has exactly its struct's tagged members in field order: `client_id`, `topic`, `payload`, `timestamp` for a publish; `client_id`, `username`, `timestamp`, `connected` for a connect; `client_id`, `username`, `topic`, `subscribed`, `timestamp` for a subscribe |
| PubsubHook.Provides | pubsub.go:60-68 | true exactly for `OnConnect`, `OnDisconnect`, `OnPublished`, `OnSubscribed`, `OnUnsubscribed` |
| PubsubHook.Init | pubsub.go:70-112 | nil config and a non-`PubsubMessagingHookConfig` fail unchanged; a `PubsubMessagingHookConfig` always succeeds, storing the configured disallow list and, per sink, a topic of the configured name with 1 s / 10-message batching |
| PubsubHook.EncodeDecode | pubsub.go:32-54 | a downstream reader decoding a published message recovers every field of the `PublishMessage`, `ConnectMessage` or `SubscribeMessage` |
| PubsubHook.CheckAllowed | pubsub.go:191-198 | false exactly when the username equals some entry of the disallow list |
| PubsubHook.Publish | pubsub.go:200-210 | returns no error, and hands the named sink data that decodes to the message given |
| PubsubHook.OnUnsubscribed | pubsub.go:114-128 | nothing logged; a disallowed user publishes nothing; otherwise exactly one `SubscribeMessage` with the client id, username, packet topic name, `subscribed` false and `now` on the subscribe sink |
| PubsubHook.OnSubscribed | pubsub.go:130-144 | as `OnUnsubscribed` but with `subscribed` true; the reason codes play no part |
| PubsubHook.OnConnect | pubsub.go:146-159 | nothing logged; a disallowed user publishes nothing; otherwise exactly one `ConnectMessage` with client id, username, `now` and `connected` true on the connect sink |
| PubsubHook.OnDisconnect | pubsub.go:161-174 | as `OnConnect` but with `connected` false |
| PubsubHook.OnPublished | pubsub.go:176-189 | nothing logged; a disallowed user publishes nothing; otherwise exactly one `PublishMessage` with client id, packet topic, payload and `now` on the publish sink |
| PubsubHook.DispatchFanOut | pubsub.go:114-189 | for every one of the five events: at most one message, none exactly when the username is disallowed, always to that event's sink, and the error-logging branch is never taken |
| PubsubHook.ConnectDisconnectDifferOnlyInFlag | pubsub.go:146-174 | connect and disconnect publish the same record except `connected`; the disconnect error and expiry flag do not affect what is published |
| PubsubHook.SubscribeUnsubscribeDifferOnlyInFlag | pubsub.go:114-144 | subscribe and unsubscribe publish the same record except `subscribed`, and `topic` is the packet's topic name |
| PubsubHook.PublishedOmitsUsername | pubsub.go:32-37 | the record published for a message has no `username` member |
| SecretManagerAuthHook.ID | secret_manager_auth_hook.go:25-27 | the hook identifies itself as "secret-manager-auth-hook" |
| SecretManagerAuthHook.Provides | secret_manager_auth_hook.go:29-34 | true exactly for `OnACLCheck` and `OnConnectAuthenticate` |
| SecretManagerAuthHook.GetAdminCredentials | secret_manager_auth_hook.go:74-94 | succeeds iff every secret read succeeds, giving one username per name in order; otherwise returns the error of the first failing name |
| SecretManagerAuthHook.Init | secret_manager_auth_hook.go:36-55 | nil and wrong-typed configs fail unchanged; a failed secret read returns the error of the first failing name, in configured order, and leaves the stored usernames unchanged; success stores one username per configured name, in order |
| SecretManagerAuthHook.CheckAdminCredentials | secret_manager_auth_hook.go:65-72 | true exactly when the username equals some stored username |
| SecretManagerAuthHook.OnConnectAuthenticate | secret_manager_auth_hook.go:57-59 | allows exactly the clients whose username is stored |
| SecretManagerAuthHook.OnACLCheck | secret_manager_auth_hook.go:61-63 | allows exactly the clients whose username is stored, whatever the topic and access kind |
| SecretManagerAuthHook.DecisionDependsOnlyOnUsername | secret_manager_auth_hook.go:57-63 | connect and ACL checks give the same answer for clients with the same username |
| SecretManagerAuthHook.AdmittedIffSecretPayload | secret_manager_auth_hook.go:36-72 | after a successful `Init`, a client is admitted exactly when its username is the payload of one of the configured secrets |
| SecretManagerAuthHook.FailedInitKeepsDecisions | secret_manager_auth_hook.go:36-55 | a failed `Init` leaves every connect decision as it was before |
| Registry.DecisionHooksShareCapabilities | secret_manager_auth_hook.go:29-34 | the two decision hooks claim exactly the same event tags |
| Registry.DecisionAndFanOutDisjoint | pubsub.go:60-68 | no tag is claimed by both a decision hook and the fan-out hook, and none claims `OnClientExpired` |

## Left out

- Client blocking and its timeout. `http_auth_hook_test.go` refers to a client block map and a `Timeout` config field. Neither exists in `HTTPAuthHook` or `HTTPAuthHookConfig`. The code also denies every non-2xx status alike: it has no special rule for 401/403 and records no block. The model follows the code.
- Unbound sinks. The fan-out callbacks have no check for a missing topic. They publish whenever the user is allowed, and the model does the same. Calling them before `Init` dereferences nil topics in Go; that crash is not modelled.
- Other broker events (started, stopped, session established, will sent). The fan-out hook does not handle them, so the model has no envelope for them.
- The ACL payload's member names are `clientid` and `acc`. The model uses these names from the code's struct tags.
- `transport.go`: `Transport.RoundTrip` only forwards to the wrapped round tripper. `NewTransport` is modelled only as "a nil round tripper becomes the default wrapper". All network behaviour lives in the `Transport` input.
- JSON bytes. The encoding is modelled as an ordered list of tagged members, not as text. Go's replacement of invalid UTF-8 in strings is not modelled. Neither is the `null` that a nil `[]byte` message payload encodes as, nor the RFC 3339 text of a message's `time.Time` timestamp.
- HttpAuthHook.ClientCheckRoundTrip and HttpAuthHook.OnConnectAuthenticate: the CONNECT username and password are `[]byte` in the broker. `json.Marshal` replaces invalid UTF-8 in them, so "the endpoint recovers the password" holds in Go only for UTF-8 credentials. The model treats credentials as text.
- HttpAuthHook.MakeRequest: redirects are not modelled step by step. The client `NewTransport` builds has Go's default redirect policy: up to ten redirects, a bodyless GET after 301/302/303, the POST body resent after 307/308. All of that happens inside the `Transport` input, so `sent` is only the first request and the status is that of the last response.
- HttpAuthHook.OnConnectAuthenticate: a `json.Marshal` error or an `http.NewRequest` error is folded into the `TransportError` outcome. These errors stop `makeRequest` before anything is sent, and both deny, like a transport error.
- HttpAuthHook.OnACLCheck: marshal and request-construction errors are folded into `TransportError`, as for the connect check.
- HttpAuthHook.OnConnectAuthenticate and HttpAuthHook.OnACLCheck require an HTTP client, that is, a successful `Init`. With a nil `*http.Client`, Go's `Do` panics.
- PubsubHook.Init: does not model creating the Pub/Sub client, nor the `panic` when that creation fails. Success is modelled as unconditional.
- PubsubHook.Init: the stored disallow list aliases the caller's `DisallowList` slice, so a later write to an element of that slice changes what `checkAllowed` sees. The model stores a snapshot taken at `Init` and does not model such writes.
- PubsubHook.Publish: `topic.Publish` is asynchronous. Its result is never inspected, so batching, delivery and server errors are not modelled.
- SecretManagerAuthHook.GetAdminCredentials: does not model the `secretmanager.NewClient` failure or `client.Close`; only the per-name read results are inputs.
- SecretManagerAuthHook.Init: does not model the Secret Manager client creation error or `client.Close`. Only the per-name read results are inputs.
- The numeric byte values of the broker's hook tags live in the mqtt package, which is not part of this model. Tags are an enumeration of their names.
- Logging (`h.Log`, `pmh.Log`) and the `fmt.Println` in `Init` are side effects with no bearing on results. The fan-out callbacks report, as `logged`, the errors they would log. The HTTP hook's logging of request and transport errors is dropped: its callbacks return only the request sent and the decision.
- `SuperuserCheckPOST` is declared but never sent, so it is not modelled. `superuserhost` is stored but never read; the model keeps it only as a stored field.
- Concurrency: the shown code takes no locks and starts no goroutines of its own, so the model is sequential.
