# OutlineServer connection manager — a Dafny model

This project models `OutlineServer`, the client-side manager of one configured
Outline proxy ("server"). It covers:

- the cipher allow-list (only the four AEAD ciphers of the Shadowsocks AEAD specification);
- the `name` setter and the derived `address` and `isOutlineServer` getters;
- `connect`, which translates a tunnel failure only when it carries a truthy `errorCode`;
- `disconnect`, which collapses every failure into one `RegularNativeError`;
- the `checkRunning` and `checkReachable` probes;
- the tunnel status handler, which appends `ServerConnected`, `ServerDisconnected` or
  `ServerReconnecting` to the shared event queue and drops any other status.

Collaborators whose code is not part of this model enter as parameters:

- `tunnel.start` is a total function from the access key to a settled result.
- `tunnel.stop` and `tunnel.isRunning` are the values they settle with.
- `net.isServerReachable` is a total function of host and port.
- `errors.fromErrorCode` is a total function from codes to native errors.

Each member call is one atomic step. The `Session` module strings steps together
over one server and the shared queue. Other servers may enqueue on that queue between
this server's steps. The modelled queue is the log of every enqueued event.

Files and modules:

- `wrappers.dfy`: `Wrappers`, with `Option` and `Outcome` (a settled promise).
- `cipher_policy.dfy`: `CipherPolicy`, the allow-list and its exact-match properties.
- `decimal.dfy`: `Decimal`, how a port number is written in `address`, plus its parser.
- `errors.dfy`: `Errors`, tunnel failures, native errors, thrown values and JavaScript truthiness of `errorCode`.
- `events.dfy`: `Events`, tunnel statuses, domain events and the queue.
- `server.dfy`: `Servers`, the `OutlineServer` members.
- `session.dfy`: `Session`, sequences of calls and status deliveries.

Modelling choices:

- A port is a TCP port number, below 65536.
- An event refers to its server by the server's readonly `id`. That id stands for the object reference the source passes.
- A `TunnelFailure` keeps an opaque `cause` string beside the optional code. This makes "rethrown unchanged" observable.
- `errorCode` is truthy when it is present and non-zero. `0` is falsy in JavaScript, so a failure with code `0` is rethrown as is.
  The model follows the truthiness test at src/www/app/server/index.ts:74.
- The constructor takes the display name separately from the access key. The two names can therefore differ until the
  setter first runs. `NamesInSync` holds after any assignment, not before.
- The constructor registers the status handler with `this.tunnel.onStatusChange(this.handleTunnelStatusChange)`
  (src/www/app/server/index.ts:48). This passes the method without binding `this`. Under JavaScript semantics the handler
  would then not reach `this.eventQueue` unless the tunnel calls it with the server as receiver. The model treats the
  handler as bound to its server, as the rest of the class evidently intends. The tunnel's calling convention is not part
  of this model, so this is not claimed as a finding.

## Model

| member | source | states |
|---|---|---|
| CipherPolicy.IsServerCipherSupported | src/www/app/server/index.ts:27-38 | a cipher is accepted exactly when it is one of `chacha20-ietf-poly1305`, `aes-128-gcm`, `aes-192-gcm`, `aes-256-gcm` |
| CipherPolicy.SupportedCipherCount | src/www/app/server/index.ts:27-32 | the allow-list holds four distinct names |
| CipherPolicy.SupportedAreLowerCase | src/www/app/server/index.ts:27-32 | every accepted name is all lower case, so lower-casing leaves it unchanged |
| CipherPolicy.CaseVariantsRejected | src/www/app/server/index.ts:36-38 | matching is case-sensitive: a name that only lower-cases to an accepted cipher is rejected |
| CipherPolicy.ExtensionsRejected | src/www/app/server/index.ts:36-38 | no trimming: an accepted name followed by any non-empty suffix is rejected |
| CipherPolicy.PrefixedRejected | src/www/app/server/index.ts:36-38 | no trimming: an accepted name preceded by any non-empty prefix is rejected |
| Decimal.ToDecimal | src/www/app/server/index.ts:61 | the port is written as a non-empty string of decimal digits without a leading zero |
| Decimal.FromToDecimal | src/www/app/server/index.ts:61 | the written port parses back to the port |
| Decimal.ToFromDecimal | src/www/app/server/index.ts:61 | every canonical digit string is the rendering of its value, so the rendering is a bijection |
| Servers.SetName | src/www/app/server/index.ts:55-58 | after the setter, both the server's name and the access key's name equal the new name; id, host, port and flag are unchanged |
| Servers.SetNameLastWins | src/www/app/server/index.ts:51-58 | only the last assignment is observable, setting twice equals setting once, and the two names agree afterwards |
| Servers.Address | src/www/app/server/index.ts:60-62 | the address is the host, then `:`, then the port's decimal digits |
| Servers.IsOutlineServer | src/www/app/server/index.ts:64-66 | the flag is the access key's `isOutlineServer` flag |
| Servers.AddressRoundTrip | src/www/app/server/index.ts:60-62 | host and port are recovered from the address by splitting at its last `:`, for every host including ones that contain `:` |
| Servers.DerivedAccessorsIgnoreNames | src/www/app/server/index.ts:55-66 | address and `isOutlineServer` depend only on the access key's host, port and flag, so renaming never changes them |
| Servers.Connect | src/www/app/server/index.ts:68-79 | connect succeeds exactly when `tunnel.start` with this server's key succeeds; a failure with a truthy code `k` becomes exactly `fromErrorCode(k)`, and any other failure is rethrown unchanged |
| Servers.ConnectTranslationPolicy | src/www/app/server/index.ts:71-77 | for coded failures the thrown value depends only on the code; uncoded failures stay distinguishable |
| Servers.Disconnect | src/www/app/server/index.ts:81-88 | disconnect succeeds exactly when `tunnel.stop` succeeds, and otherwise throws exactly one `RegularNativeError` |
| Servers.DisconnectForgetsCause | src/www/app/server/index.ts:84-87 | any two stop failures give the same thrown value, and that value differs from success |
| Servers.CheckRunning | src/www/app/server/index.ts:90-92 | checkRunning answers exactly what the tunnel reports |
| Servers.CheckReachable | src/www/app/server/index.ts:94-96 | checkReachable answers exactly what the probe says about the access key's host and port |
| Servers.ReachabilityIgnoresNames | src/www/app/server/index.ts:94-96 | two servers with the same host and port get the same answer, whatever their ids and names |
| Servers.HandleTunnelStatusChange | src/www/app/server/index.ts:98-116 | each status maps to its event in both directions: CONNECTED, DISCONNECTED and RECONNECTING each append exactly their own event for this server at the end of the queue, and exactly the unrecognised statuses leave the queue unchanged |
| Servers.HandleAllAppends | src/www/app/server/index.ts:98-116 | handling a run of statuses keeps the old queue as a prefix and appends the run's events |
| Servers.NewEventsMatchStatuses | src/www/app/server/index.ts:98-116 | the appended events are one per recognised status, report the statuses in their original order, and all refer to this server |
| Servers.HandleAllSpec | src/www/app/server/index.ts:98-116 | after a run of statuses the queue has grown by the number of recognised statuses; the old contents are kept, and the new events follow the statuses' order |
| Servers.HandleAllUsesIdOnly | src/www/app/server/index.ts:101-110 | events depend on the server only through its id |
| Servers.ConnectReconnectDisconnect | src/www/app/server/index.ts:101-116 | CONNECTED, RECONNECTING, DISCONNECTED enqueue ServerConnected, ServerReconnecting, ServerDisconnected in that order |
| Events.EventFor | src/www/app/server/index.ts:101-113 | exactly the three named statuses produce an event, and that event refers to the given server |
| Events.EventStatusRoundTrip | src/www/app/server/index.ts:101-110 | the status-to-event mapping and the event-to-status mapping are inverse to each other |
| Events.Enqueue | src/www/app/server/index.ts:116 | enqueue grows the queue by one, keeps its old contents and puts the event last |
| Session.Step | src/www/app/server/index.ts:51-116 | no call changes the id, host, port or flag; only the name setter changes the server; only a status delivery or another producer's enqueue changes the queue (so connect enqueues nothing); the queue grows by at most one event, at its end |
| Session.SetThenGetName | src/www/app/server/index.ts:51-58 | reading `name` right after setting it returns the new name, and the access key agrees |
| Session.RunQueue | src/www/app/server/index.ts:68-116 | over any sequence of calls, including other producers' enqueues, the queue keeps its contents and appends each call's events in call order |
| Session.RunOwnEvents | src/www/app/server/index.ts:98-116 | whatever other servers enqueue in between, this server's new events on the shared queue are one per recognised status, in status order; connect, disconnect, the probes and the accessors add none |
| Session.RunQueueSoleProducer | src/www/app/server/index.ts:68-116 | when this server is the only producer, the queue equals the result of handling only the delivered statuses, in order |
| Session.RunServer | src/www/app/server/index.ts:51-66 | over any sequence of calls, id, host, port, flag and address are unchanged, and both names are those of the last assignment |

## Left out

- Build tooling (`src/tun2socks/build.action.mjs`, `client/src/electron/build.action.mjs`): process and file-system I/O with no invariants of this component.
- `src/www/app/clipboard.ts`: a platform switch returning external clipboard classes; nothing to verify.
- Promises and `await`: each call is one atomic step. Concurrent status delivery and timeouts are not modelled.
- `console.warn` for an unknown status: logging only; the model keeps the queue unchanged and raises nothing.
- `errorMessageId` (src/www/app/server/index.ts:34): declared but never read or written by this class.
- The constructor (src/www/app/server/index.ts:40-49): the handler registration is represented by routing `StatusChange` calls to the handler of the session's server.
- The `errors` module's `fromErrorCode` table, the tunnel, and the networking probe: their code is not part of this model. They enter as total functions or values.
- Servers.Connect: `errorCode` is modelled as an optional integer. `NaN`, strings and other JavaScript values are not covered, because the plugin error shape is not part of this model. A rejection with `null` or `undefined` is not covered either. In that case reading `e.errorCode` at src/www/app/server/index.ts:74 throws a TypeError, and connect throws that TypeError instead of `e`. In the model a tunnel failure is always an object.
- Servers.AddressRoundTrip: the port is a TCP port, a whole number below 65536. Negative, fractional or huge numbers are not covered, because access-key parsing is not part of this model. JavaScript would print those with a sign, a point or an exponent (from 10^21 up).
- Servers.SetName: the access key is treated as a value. In the source it is a shared object (src/www/app/server/index.ts:42) that the setter changes in place (line 57), so every other holder of that object sees the new name. The model has no object identity.
- Servers.CheckRunning: answers with a boolean only. A rejection by `tunnel.isRunning` passes through unchanged in the source (line 91) and is not modelled.
- Servers.CheckReachable: answers with a boolean only. A rejection by `net.isServerReachable` passes through unchanged in the source (line 95) and is not modelled.
- Session.RunQueueSoleProducer: holds only when no other server enqueues between this server's steps. Session.RunOwnEvents covers the shared queue, given that other servers' events carry other ids.
- Draining the event queue: the consumer's side is not modelled. The modelled queue is the log of every enqueued event.
- The access key's other fields (cipher, password and so on): this class neither reads nor writes them.
