# Verification of the arduino-router bridge and its companions

A Dafny model of the concurrent parts of this repository, with proofs of what they promise.
`dafny verify dfyconfig.toml` checks all of it.

| files | model |
|---|---|
| `MsgPack`, `Floats`, `Smallest`, `Codec` | the MessagePack stream decoder and the message encoders |
| `Outbound`, `Inbound`, `BridgeState`, `Bridge` | the RPC bridge: state machine and class |
| `BridgeRuns`, `BridgeTheorems`, `BridgeSettlement`, `BridgeRetry`, `BridgeTurns`, `BridgeNames`, `BridgeRegistration`, `BridgeReplay` | what every run of the bridge keeps and promises |
| `BridgeScenarios` | runs of the bridge that end where its comments do not say |
| `SshWire`, `SshCert` | the OpenSSH user certificate parser and the checks of the SSH server's authentication |
| `SshRegistry`, `SshServer` | the device registry: state machine and class |
| `RestThrottle` | the REST token bucket |
| `RateLimiter`, `CallGate` | the call history and the gate loop of the tool node |
| `CloudClients`, `CloudClientManager` | the shared cloud client manager: state machine and classes |
| `BigEndian`, `Common`, `Options` | shared by the above |

How the concurrent parts are modelled. A turn is one external event with every continuation it releases.
The state machines are pure functions on records, so that runs can be reasoned about; the classes carry
out the same turns on the source's fields, with its loops, and their postconditions equate the new fields
with those functions. In `CloudClients` continuations are separate steps, so callers may act between any
two of them, while the network waits until the queue of continuations is empty. The clock is monotone;
bridge timers fire when due, throttle sleeps may be late, never early.

Formats follow the MessagePack specification ("Formats" and "Serialization: type to format conversion"),
the OpenSSH document PROTOCOL.certkeys, section 5 of RFC 4251, and sections 4 and 6 of RFC 8709. The limit of 100
levels is the default of the encoder of @msgpack/msgpack 3.1.3, whose source is not part of this model.

Where the code does not do what its comments say:

- The decoder measures consumed bytes by re-encoding (`packages/bridge/src/codec.ts:96-99`). That is exact
  only for smallest formats. Longer ones leave bytes that are decoded again (`LongFormReplayed`); a 32-bit
  float that is no integer of up to 32 bits takes four bytes of what follows (`SingleSwallowsNext`).
  `MeasureWire`, `NeverDropsLaterBytes` and `WideFloatsSwallow` say exactly when either happens.
- The encoder throws on values nested deeper than 100 levels, which the decoder accepts. Such a message is
  returned but never counted, so every later `feed` returns it again and nothing behind it is read
  (`DeepRequestRepeats`, `StuckForever`). `ChunkInvariance` holds if and only if there is none.
- `retryAfterMs` is when the oldest call leaves the window, which is too early when more than `maxCalls`
  are active, as after a cap was lowered (`LoweredCapRefusesTwice`); `RetryTime` gives the exact condition.
- A certificate whose only critical options are named `__proto__` passes the check meant to reject every
  critical option (`packages/n8n-nodes/src/SshServer.ts:334`), because assigning that property of a plain
  object a string adds no key. `ProtoOptionAccepted` gives one; `OptionMapEmptyIff` and `AcceptedIff` say
  exactly when.
- A device whose certificate has an empty key id is accepted, but its forwarding request is refused
  (`packages/n8n-nodes/src/SshServer.ts:223`), so it is never reached (`EmptyNickNeverServed`).
- After an SDK rejection other subscribers of the key stay live but unserved, until a later subscribe asks
  again (`StarvingRun`, `AskingAgainServes`); `RejectionHarmlessIff` says exactly when none is.
- `provide` takes a stored name for registered, which fails after a replay in which the name timed out
  (`ProviderLost`), and `onNotify` stores its name before the registration is answered (`SubscriptionLost`).
  What counts is the name's own registration: `AcknowledgedAreRouted` says that one acknowledged on this
  connection is routed, and one never asked for on it is not. In between the router may have registered a
  name without its answer having arrived (`RoutedUnacknowledged`).
- In-flight requests are tracked by id alone, so a handler can answer a later request of the same id, on one
  connection (`ReusedIdAnswered`) or after a reconnect (`StaleHandlerAnswers`). `HandlerAnswersOwnIff` says
  exactly when, and `UnusedIdsSuffice` that a router which never reuses a running id is safe.

Windows of the limiter are half open, like the source's comparison: two calls exactly one window apart do
not share a window.

## Model

| member | source | states |
|---|---|---|
| `Codec.StreamDecoder.Feed` | packages/bridge/src/codec.ts:84-109 | one `feed` returns what the loop below sees in the buffer and the chunk, and drops as many bytes as it counted |
| `Codec.StreamDecoder.DecodeAndMeasure` | packages/bridge/src/codec.ts:93-105 | the loop returns each decoded value and counts its re-encoded length, up to the end of what can be decoded or to a value the encoder throws on, returned but not counted |
| `Codec.FeedPrefix` | packages/bridge/src/codec.ts:84-109 | after any chunks of a stream of smallest formats and no wide float the complete messages ahead of the first nested deeper than 100 levels were returned once each, the buffer is exactly the rest, and if that begins with such a message it was returned again and again |
| `Codec.ChunkInvariance` | packages/bridge/src/codec.ts:84-109 | a stream of smallest formats and no wide float yields the same messages and an empty buffer however it is split if and only if no message is nested deeper than 100 levels; otherwise the buffer keeps everything from the first such message on |
| `Codec.StuckForever` | packages/bridge/src/codec.ts:93-107 | once a complete message nested deeper than that heads the buffer every `feed` returns it alone, whatever arrives, and nothing is ever taken off the buffer |
| `Codec.DeepRequestRepeats` | packages/bridge/src/codec.ts:93-107 | a request with a parameter of 99 levels, which this side could not send, is returned once for every chunk from its arrival on |
| `Codec.ChunkInvarianceOfEncoded` | packages/bridge/src/codec.ts:49-109 | for every list of values the encoder accepts and every split of their encodings, the outputs of `Feed` concatenate to the list |
| `Codec.NeverDropsLaterBytes` | packages/bridge/src/codec.ts:93-107 | for every well-formed stream without wide floats no byte after the messages counted is dropped, and nothing but the incomplete message is kept if and only if every message uses smallest formats and none is nested too deep |
| `Codec.WideFloatsSwallow` | packages/bridge/src/codec.ts:93-107 | for every well-formed stream at most four of the bytes not counted are dropped per wide float counted, a 32-bit float that is no integer of up to 32 bits; if every other format is smallest exactly that many are, so that those bytes survive whole if and only if there is no such float or none of them |
| `Codec.LongFormReplayed` | packages/bridge/src/codec.ts:96-99 | a small integer sent in 16-bit form leaves two bytes in the buffer, which the next `feed` returns as two messages nobody sent |
| `Codec.SingleSwallowsNext` | packages/bridge/src/codec.ts:96-107 | after any wide float up to four bytes of the next message are dropped |
| `Codec.OnePointFiveIsSingle` | packages/bridge/src/codec.ts:96-99 | 1.5 sent in 32 bits is a wide float |
| `Codec.IntegersBeyond32BitsAreWide` | packages/bridge/src/codec.ts:96-99 | 2^33 sent as a 32-bit float is wide although it is an integer; 2^31 is not, and is measured exactly |
| `Codec.CallsEncodable` | packages/bridge/src/codec.ts:49-61 | `encodeRequest` and `encodeNotify` succeed if and only if no parameter is nested deeper than 98 levels, and throw otherwise |
| `Codec.ResponsesEncodable` | packages/bridge/src/codec.ts:54-56 | `encodeResponse` succeeds if and only if neither error nor result is nested deeper than 99 levels |
| `Codec.MessagesDecode` | packages/bridge/src/codec.ts:49-61 | what a peer reads from each of the three encoders, whatever follows: `[0, msgid, method, params]`, `[1, msgid, error, result]` and `[2, method, params]`, whole and in that order |
| `MsgPack.DecodeWire` | packages/bridge/src/codec.ts:94 | decoding is self-delimiting: whatever follows a well-formed input, its value and exactly its own bytes are read |
| `MsgPack.PrefixAsksForMore` | packages/bridge/src/codec.ts:101-105 | every strict prefix of a well-formed input is reported incomplete, never decoded or rejected |
| `MsgPack.AcceptedIsWire` | packages/bridge/src/codec.ts:94 | whatever the decoder accepts is the bytes of some well-formed input with that value |
| `MsgPack.LastPairWins` | packages/bridge/src/codec.ts:94 | an object read with a repeated key holds the last value given for it, and every other key its own |
| `Floats.DoubleAsIntIff` | packages/bridge/src/codec.ts:94-99 | a 64-bit float is read as an integer if and only if that is its IEEE 754 value and a safe integer |
| `Floats.SingleAsIntIff` | packages/bridge/src/codec.ts:94-99 | the same for 32-bit floats |
| `Smallest.MeasureWire` | packages/bridge/src/codec.ts:99 | the re-encoded length of a decoded value is at most the bytes it was read from plus four per wide float among them, and equal to that if and only if all other formats were smallest |
| `Smallest.EncodeDecodes` | packages/bridge/src/codec.ts:49-61 | the encoder throws exactly on values nested deeper than 100 levels; on others decode after encode is the identity, whatever bytes follow |
| `Smallest.WrittenFaithful` | packages/bridge/src/codec.ts:49-61 | what the encoder writes when it does not throw is a well-formed input in smallest formats that means the value it was given |
| `BridgeClass.Bridge.NextMsgId` | packages/bridge/src/bridge.ts:380-383 | the id drawn is the number of draws so far plus one, modulo 2^31 |
| `BridgeClass.Bridge.TryCall` | packages/bridge/src/bridge.ts:431-450 | one attempt: reject at once while disconnected, otherwise a fresh id, a pending entry and a timer for what is left of the budget |
| `BridgeClass.Bridge.CatchLost` | packages/bridge/src/bridge.ts:471-478 | on a ConnectionError: rethrow unless idempotent, time out when the budget is spent, otherwise wait for the next 'reconnect' |
| `BridgeClass.Bridge.CallWithOptions` | packages/bridge/src/bridge.ts:422-484 | starting a call is its first attempt under the deadline fixed at the call |
| `BridgeClass.Bridge.HandleResponse` | packages/bridge/src/bridge.ts:276-303 | a RESPONSE settles the attempt pending under its id and runs its awaiter in the same turn; an unknown id does nothing |
| `BridgeClass.Bridge.AttemptTimerFires` | packages/bridge/src/bridge.ts:443-446 | an attempt's timer deletes its id and settles its call with a timeout |
| `BridgeClass.Bridge.RejectPending` | packages/bridge/src/bridge.ts:206-210 | the loop of onTransportClose rejects every pending attempt and runs each call's catch clause |
| `BridgeClass.Bridge.RetryAll` | packages/bridge/src/bridge.ts:452-483 | every call that waited for 'reconnect' makes its next attempt, in the order it began to wait |
| `BridgeClass.Bridge.TransportClosed` | packages/bridge/src/bridge.ts:204-221 | after a drop nothing is pending or in flight, a reconnect is scheduled unless one is or close() began, and a replay under way has run to its end |
| `BridgeClass.Bridge.ScheduleReconnect` | packages/bridge/src/bridge.ts:223-235 | the backoff delay doubles per attempt up to its cap; a live timer or close() suppresses it |
| `BridgeClass.Bridge.Reconnected` | packages/bridge/src/bridge.ts:237-245 | a successful reconnect resets the backoff and starts replaying the registrations |
| `BridgeClass.Bridge.ReconnectFailed` | packages/bridge/src/bridge.ts:246-251 | a failed reconnect schedules the next unless close() began |
| `BridgeClass.Bridge.ReRegister` | packages/bridge/src/bridge.ts:558-572 | the replay loop up to its next await: the next name's call, or 'reconnect' once none is left |
| `BridgeClass.Bridge.ProvideMethod` | packages/bridge/src/bridge.ts:514-522 | a known name swaps its handler without a call; a new one is stored only after its registration |
| `BridgeClass.Bridge.OnNotify` | packages/bridge/src/bridge.ts:538-551 | the first subscriber of a name registers it unless a provider has |
| `BridgeClass.Bridge.HandleRequest` | packages/bridge/src/bridge.ts:304-364 | a REQUEST starts its handler and is tracked by id, or is answered at once when no handler exists |
| `BridgeClass.Bridge.HandlerSettled` | packages/bridge/src/bridge.ts:319-335 | a settling handler answers only if its id could still be deleted |
| `BridgeClass.Bridge.DrainInFlight` | packages/bridge/src/bridge.ts:634-644 | the drain loop answers every in-flight id exactly once and leaves none |
| `BridgeClass.Bridge.Close` | packages/bridge/src/bridge.ts:621-665 | close() stops reconnects, drains, and sends `$/reset` with its own 500 ms budget |
| `BridgeRuns.StepKeeps` | packages/bridge/src/bridge.ts:204-484 | every turn keeps the invariant of calls, attempts, ids, timers, connections and inbound requests |
| `BridgeTheorems.BoundedReplay` | packages/bridge/src/bridge.ts:422-484 | in every run a call puts at most one REQUEST on a connection, at most one in all unless idempotent, at most 1 + budget / least delay otherwise, and is settled by its deadline |
| `BridgeTheorems.SettledForGood` | packages/bridge/src/bridge.ts:422-484 | once settled, by timeout or otherwise, a call keeps its outcome and never sends another REQUEST |
| `BridgeRetry.StartsHow` | packages/bridge/src/bridge.ts:422-450 | a call started while connected makes one attempt at once under a timer for its whole time; started while disconnected it makes none, and waits for 'reconnect' if it is idempotent and has time, is timed out if it has none, and otherwise loses its connection at once |
| `BridgeRetry.SettledHow` | packages/bridge/src/bridge.ts:468-484 | in every run what each turn makes of an unsettled call: timers time it out, its response answers it, and on a drop a call in flight is told so if it is not idempotent, timed out if out of time, and otherwise waits for 'reconnect'; nothing else settles it |
| `BridgeRetry.ReconnectRetries` | packages/bridge/src/bridge.ts:452-483 | in every run the turn that ends a replay, and emits 'reconnect', gives each waiting call exactly one new attempt, in the order they began to wait, on the live connection and under its original deadline |
| `BridgeRetry.OutcomesMean` | packages/bridge/src/bridge.ts:471-478 | in every run only a call that is not idempotent ends with a ConnectionError, and a call times out exactly at its deadline, or at once if it was given no time |
| `BridgeRetry.OwnCalls` | packages/bridge/src/bridge.ts:392-405 | in every run the bridge's own calls have five seconds, `$/reset` 500 ms, and are never retried |
| `BridgeTheorems.InboundConservation` | packages/bridge/src/bridge.ts:304-364 | in every run responses written plus requests in flight never exceed requests read, per connection and id; on a writable connection the difference is exactly the reused ids |
| `BridgeTheorems.CloseAnswersOnce` | packages/bridge/src/bridge.ts:628-644 | every request in flight when close() begins gets exactly one response, and no handler settling later adds another |
| `BridgeTheorems.NoConnectAfterClose` | packages/bridge/src/bridge.ts:218-252 | once close() has begun no connect attempt starts, whether or not one was in progress |
| `BridgeTurns.BackoffHow` | packages/bridge/src/bridge.ts:218-252 | in every run a drop schedules a reconnect after the base delay, each failed attempt the next after twice the delay before it up to the cap, success starts over and close() cancels |
| `BridgeTurns.CloseHow` | packages/bridge/src/bridge.ts:621-665 | close() while connected drains and sends `$/reset`; while disconnected it sends nothing |
| `BridgeTurns.ResetEnds` | packages/bridge/src/bridge.ts:655-663 | the socket is ended once `$/reset` is answered or times out |
| `BridgeTurns.ProvidersHow` | packages/bridge/src/bridge.ts:514-522 | a name provided again swaps its handler at once without a call, a new one takes effect when the router acknowledges it, and nothing else changes a handler |
| `BridgeTurns.SubscribeHow` | packages/bridge/src/bridge.ts:538-551 | a first subscription stores the name and calls the router unless the name has a provider; a later one does neither |
| `BridgeTurns.RequestHow` | packages/bridge/src/bridge.ts:304-364 | a request runs the handler then stored for its name and is in flight under it, or is answered at once when there is none |
| `BridgeSettlement.SettledByItsCause` | packages/bridge/src/bridge.ts:204-210 | each turn settles an unsettled attempt exactly when it is its response, its timer or the transport closing, and records which |
| `BridgeSettlement.PendingIsUnsettled` | packages/bridge/src/bridge.ts:380-450 | with fewer than 2^31 ids drawn in any attempt's life an id is in `pending` exactly while its attempt is unsettled, no two unsettled attempts share one, and none outlives its timer |
| `Outbound.SameIdIff` | packages/bridge/src/bridge.ts:380-383 | two attempts get the same id if and only if a multiple of 2^31 draws separates them |
| `Outbound.DrawExactIff` | packages/bridge/src/bridge.ts:440-447 | drawing an id keeps `pending` exact if and only if no unsettled attempt holds that id already |
| `Inbound.DrainAnswersAll` | packages/bridge/src/bridge.ts:634-644 | right after the drain every id read once on the connection has been answered exactly once |
| `BridgeRegistration.TurnKeepsReg` | packages/bridge/src/bridge.ts:558-572 | every turn keeps the replay's bookkeeping: sent and queued names make up the snapshot; while all were acknowledged, each sent so far was on this connection; and each provider was, or is in the snapshot |
| `BridgeReplay.ProvidersAreRouted` | packages/bridge/src/bridge.ts:514-522 | while connected after a replay whose names were all acknowledged every provider, and every name replayed, was acknowledged on this connection and is routed, so `provide` may skip the round trip |
| `BridgeReplay.ReplaysEachNameOnce` | packages/bridge/src/bridge.ts:558-572 | each reconnect sends `$/register` once, in order, for exactly the providers and notification names known at that moment |
| `BridgeScenarios.TimedOutReplayTrusted` | packages/bridge/src/bridge.ts:558-572 | a replay one of whose names times out goes on, or ends, without being trusted as a whole; but the name stays a provider the router does not route, and providing it again makes no call |
| `BridgeScenarios.ProviderLost` | packages/bridge/src/bridge.ts:514-522 | that comes about: provided and acknowledged, dropped, reconnected and timed out, a name is left so with the bridge up and idle |
| `BridgeScenarios.FailedSubscriptionKept` | packages/bridge/src/bridge.ts:538-551 | a notification name whose registration fails is kept, and later subscribers make no call for it |
| `BridgeNames.AcknowledgedAreRouted` | packages/bridge/src/bridge.ts:514-572 | in every run, while connected and before close(), the router has every name whose `$/register` it acknowledged on this connection, whatever became of other names, and none it was not asked for on it |
| `BridgeScenarios.RoutedUnacknowledged` | packages/bridge/src/bridge.ts:514-522 | the router may have a name whose acknowledgement is still to come |
| `BridgeScenarios.SubscriptionLost` | packages/bridge/src/bridge.ts:538-551 | that comes about: after one refused registration the bridge is connected and idle, holds the name, and will not ask the router for it |
| `BridgeTheorems.HandlerAnswersOwnIff` | packages/bridge/src/bridge.ts:319-335 | in every run a settling handler answers just when its id is in flight, and then answers its own request if and only if no handler was started since for the same id, on this connection or a later one; otherwise it answers that request, whose own handler then writes nothing |
| `BridgeTheorems.UnusedIdsSuffice` | packages/bridge/src/bridge.ts:304-335 | in every run in which no request reuses the id of a running handler, every handler that may answer answers its own request |
| `BridgeScenarios.ReusedIdAnswered` | packages/bridge/src/bridge.ts:304-335 | two requests of one id on one connection: the first handler answers while the id is the second's, and the second then writes nothing |
| `BridgeScenarios.StaleHandlerAnswers` | packages/bridge/src/bridge.ts:211-215 | request, drop, reconnect, request of the same id: the handler left over answers the new request, and the new one then writes nothing |
| `SshWire.Reader.ReadUint` | packages/n8n-nodes/src/sshCertParser.ts:287-298 | an integer is read exactly when its bytes are there, moving past them; no read leaves the buffer |
| `SshWire.Reader.ReadString` | packages/n8n-nodes/src/sshCertParser.ts:299-314 | a string is read exactly when its length prefix and that many bytes are there |
| `SshWire.ParseStringList` | packages/n8n-nodes/src/sshCertParser.ts:215-220 | the loop returns the strings that fill the buffer, or fails where it is cut short |
| `SshWire.ParseOptions` | packages/n8n-nodes/src/sshCertParser.ts:225-234 | the loop builds the map of the buffer's name and value pairs |
| `SshWire.TakeListOf` | packages/n8n-nodes/src/sshCertParser.ts:215-220 | a serialised list of strings parses back to itself |
| `SshWire.ListTaken` | packages/n8n-nodes/src/sshCertParser.ts:215-220 | a buffer that parses is the serialised form of the list |
| `SshWire.OptionMapHolds` | packages/n8n-nodes/src/sshCertParser.ts:231 | in an option map the last pair of a name wins, and `__proto__` is never a key |
| `SshWire.OptionMapEmptyIff` | packages/n8n-nodes/src/sshCertParser.ts:231 | an option map is empty if and only if every option in the buffer is named `__proto__` |
| `SshCert.ParseSshUserCert` | packages/n8n-nodes/src/sshCertParser.ts:94-144 | the parser returns or throws what reading the certificate's fields in order gives, errors included |
| `SshCert.ParseSerialized` | packages/n8n-nodes/src/sshCertParser.ts:94-144 | any serialised user certificate, whatever follows it, parses to its fields, and `tbs` is exactly the bytes before the signature's length prefix |
| `SshCert.Layout` | packages/n8n-nodes/src/sshCertParser.ts:94-126 | a serialised certificate is the fields of PROTOCOL.certkeys in their order, with type 1, and the signature last |
| `SshCert.FieldsReturned` | packages/n8n-nodes/src/sshCertParser.ts:127-144 | parsing a serialised certificate returns every field as it was written, options as maps |
| `SshCert.ChecksFail` | packages/n8n-nodes/src/sshCertParser.ts:94-112 | a blob of another algorithm, with a key of another length, or of another certificate type is refused with the error for that check |
| `SshCert.ParsedIsSerialized` | packages/n8n-nodes/src/sshCertParser.ts:94-144 | any blob that parses is the serialised form of the fields read, then bytes nobody reads |
| `SshCert.ParsesIff` | packages/n8n-nodes/src/sshCertParser.ts:94-144 | a blob parses if and only if it begins with a serialised certificate |
| `SshCert.TbsDetermines` | packages/n8n-nodes/src/sshCertParser.ts:119-126 | certificates with the same signed bytes differ at most in their signatures |
| `SshCert.SignedBytesDetermineFields` | packages/n8n-nodes/src/sshCertParser.ts:94-144 | two blobs that parse with equal `tbs` agree on every returned field but the signature |
| `SshCert.InnerIff` | packages/n8n-nodes/src/sshCertParser.ts:244-275 | a signature or key blob decodes to `v` if and only if `v` has the right length and its encoding begins the blob |
| `SshCert.DecodeInner` | packages/n8n-nodes/src/sshCertParser.ts:244-275 | the decoders return null wherever the reader throws |
| `SshCert.VerifySshUserCert` | packages/n8n-nodes/src/sshCertParser.ts:163-211 | a certificate verifies exactly when its CA key is the configured one and its signature over `tbs` is valid under it |
| `SshCert.HandleAuth` | packages/n8n-nodes/src/SshServer.ts:266-343 | the authentication callback accepts or rejects as its checks on the parsed certificate say |
| `SshCert.AcceptedIff` | packages/n8n-nodes/src/SshServer.ts:266-343 | a connection is accepted under a nickname if and only if its blob begins with a certificate of that key id that is signed, current, for the principal, permits forwarding and has no critical option other than `__proto__` |
| `SshCert.SerializedAccepted` | packages/n8n-nodes/src/SshServer.ts:266-343 | any serialised certificate the policy allows, signed by the CA, is accepted under its key id |
| `SshCert.ProtoOptionAccepted` | packages/n8n-nodes/src/SshServer.ts:334-340 | a certificate whose one critical option is named `__proto__` is accepted when it is otherwise in order |
| `SshCert.SameSignedBytesSameNick` | packages/n8n-nodes/src/SshServer.ts:266-343 | two accepted blobs with the same signed bytes are routed to the same nickname |
| `SshServerClass.SshServer.InstallEntry` | packages/n8n-nodes/src/SshServer.ts:353-375 | installing evicts another client's entry, stores this one and resolves every waiter for the nickname, clearing its timer |
| `SshServerClass.SshServer.AwaitDevice` | packages/n8n-nodes/src/SshServer.ts:378-396 | an entry is returned at once, otherwise a waiter with a timer joins the list |
| `SshServerClass.SshServer.OnTimer` | packages/n8n-nodes/src/SshServer.ts:382-390 | a timer takes its own waiter off the list, and the list off the map when it empties |
| `SshServerClass.SshServer.OnClientClose` | packages/n8n-nodes/src/SshServer.ts:251-259 | a closing client with a nickname removes the entry only if it is its own |
| `SshServerClass.SshServer.Close` | packages/n8n-nodes/src/SshServer.ts:147-170 | shutdown ends every client, empties both maps and rejects every waiter |
| `SshRegistry.EntryOrWaiters` | packages/n8n-nodes/src/SshServer.ts:353-396 | in every run no nickname has both an entry and waiters, and a waiter's timer is live exactly while it is unsettled and listed |
| `SshRegistry.SettledByFirst` | packages/n8n-nodes/src/SshServer.ts:353-396 | a waiter is settled by the first of install, its timer and shutdown, and never again |
| `SshRegistry.RegistryIsLastInstalled` | packages/n8n-nodes/src/SshServer.ts:251-259 | in every run a nickname maps to a client exactly when that client was installed for it and has not since closed, been replaced, or seen the server close |
| `SshRegistry.EndedAreTaken` | packages/n8n-nodes/src/SshServer.ts:353-358 | in every run the server has told a client to end if and only if it served some nickname when another client was installed for it or the open server closed |
| `SshRegistry.ConnectAnswered` | packages/n8n-nodes/src/SshServer.ts:378-396 | in every run a connect() gets the client serving its nickname at once if there is one, waits if there is none, and is not taken while the server is closed |
| `SshRegistry.EmptyNickNeverServed` | packages/n8n-nodes/src/SshServer.ts:215-236 | in every run the empty nickname has no entry and none of its waiters is resolved, so a device whose certificate has an empty key id is accepted but never reached |
| `RestThrottle.BucketState.RefillAt` | packages/n8n-nodes-arduino-cloud/src/restThrottle.ts:58-63 | refilling adds one unit per elapsed millisecond up to the capacity |
| `RestThrottle.BucketState.Link` | packages/n8n-nodes-arduino-cloud/src/restThrottle.ts:78-86 | one link of the chain: refill, sleep if short of a token, take one |
| `RestThrottle.Throttle.AcquireRestToken` | packages/n8n-nodes-arduino-cloud/src/restThrottle.ts:74-91 | a caller is served by its own credential's bucket; every other bucket is untouched |
| `RestThrottle.ServeMovesClock` | packages/n8n-nodes-arduino-cloud/src/restThrottle.ts:58-86 | a grant leaves at most nine whole tokens, moves the moment the bucket would be full on by 100 ms from the later of itself and now, and comes at once or as soon as one token is there and the sleep is over |
| `RestThrottle.AtMostTenPlusRate` | packages/n8n-nodes-arduino-cloud/src/restThrottle.ts:58-91 | however callers arrive and links are delayed, grants in any interval number at most 10 plus one per 100 ms |
| `RestThrottle.GrantsInOrder` | packages/n8n-nodes-arduino-cloud/src/restThrottle.ts:78-90 | grants are first in, first out |
| `RestThrottle.EarliestSchedule` | packages/n8n-nodes-arduino-cloud/src/restThrottle.ts:78-90 | with exact sleeps every caller is granted no later than under any other schedule within the same bound |
| `RestThrottle.GrantsAdmissible` | packages/n8n-nodes-arduino-cloud/src/restThrottle.ts:78-90 | and that schedule itself keeps arrival order and the bound |
| `RestThrottle.Burst` | packages/n8n-nodes-arduino-cloud/src/restThrottle.ts:78-90 | a burst at t on a new credential grants its first ten callers at t and each later one 100 ms after the one before |
| `RateLimiter.ActiveIsSuffix` | packages/n8n-nodes/src/rateLimiter.ts:44-48 | in a sorted history the active timestamps are the last ones, so `active[0]` is the oldest call in the window |
| `RateLimiter.TrimmedRefinesFull` | packages/n8n-nodes/src/rateLimiter.ts:98-104 | after any calls every window of a day or less holds on the trimmed store what it holds on the full history |
| `RateLimiter.VerdictOfFullHistory` | packages/n8n-nodes/src/rateLimiter.ts:55-68 | so every verdict is the one the full history would give |
| `RateLimiter.RefusedUntil` | packages/n8n-nodes/src/rateLimiter.ts:55-68 | a refusal is lifted exactly when the call `maxCalls` from the newest leaves the window |
| `RateLimiter.RetryTime` | packages/n8n-nodes/src/rateLimiter.ts:63-66 | until `retryAfterMs` has passed a call stays refused; then it is allowed if and only if the oldest active call is as old as the one `maxCalls` from the newest |
| `RateLimiter.LoweredCapRetriesEarly` | packages/n8n-nodes/src/rateLimiter.ts:63-66 | two calls recorded under a cap of two and then refused under a cap of one stay refused when `retryAfterMs` has passed |
| `RateLimiter.OldestLeaves` | packages/n8n-nodes/src/rateLimiter.ts:83-92 | the oldest active call counts against the window at every instant before it is `windowMs` old, and not from then on |
| `RateLimiter.SlotFrees` | packages/n8n-nodes/src/rateLimiter.ts:83-92 | until the oldest active call leaves, the window holds the same calls; from then on it holds fewer |
| `CallGate.LoweredCapRefusesTwice` | packages/n8n-nodes/src/nodes/UnoQTool/UnoQTool.node.ts:279-313 | the gates reach such a history, and refuse a third call before and at the time they named |
| `CallGate.Store.CheckRateLimit` | packages/n8n-nodes/src/rateLimiter.ts:55-68 | the verdict on the stored history, with its retry time |
| `CallGate.Store.RecordCall` | packages/n8n-nodes/src/rateLimiter.ts:98-104 | recording trims to a day and appends, for this key only |
| `CallGate.Store.ResetsInMs` | packages/n8n-nodes/src/rateLimiter.ts:83-92 | null exactly when the window is empty; otherwise the oldest active call counts against the window at every instant before the time returned has passed, and not from then on |
| `CallGate.Store.BuildBudget` | packages/n8n-nodes/src/nodes/UnoQTool/UnoQTool.node.ts:377-387 | `remaining` is how many more calls would pass now and not one more, `resetsInMs` how long the oldest active call counts, and when none remains the refusal's retry time |
| `CallGate.Store.ExecuteItem` | packages/n8n-nodes/src/nodes/UnoQTool/UnoQTool.node.ts:247-334 | one item: refusals leave the store alone, and the call is recorded only after both gates, before it is made |
| `CallGate.Store.Execute` | packages/n8n-nodes/src/nodes/UnoQTool/UnoQTool.node.ts:241-337 | the loop throws if and only if some item fails and the node does not continue on failure, and then stops at the first that does; otherwise it handles every item in turn |
| `CallGate.OutcomeMeans` | packages/n8n-nodes/src/nodes/UnoQTool/UnoQTool.node.ts:247-334 | a call is made if and only if the item is valid, under its cap and accepted by the guard; which gate refused it, or that it failed, is what its outcome says; and it is recorded exactly when accepted, after trimming to a day |
| `CallGate.GlobalCap` | packages/n8n-nodes/src/nodes/UnoQTool/UnoQTool.node.ts:283-313 | over any number of interleaved executions every span of a minute, an hour or a day, as the window says, holds at most `cap` of all calls ever recorded under a key |
| `CloudClientManagerClass.CloudClientManager.Subscribe` | packages/n8n-nodes-arduino-cloud/src/cloudClientManager.ts:91-103 | subscribe up to its first await: one more reference, and an existing client, a shared connect or a new one |
| `CloudClientManagerClass.CloudClientManager.Continue` | packages/n8n-nodes-arduino-cloud/src/cloudClientManager.ts:103-122 | after the connection: join the demux table and ask the SDK once per key, or give the reference back |
| `CloudClientManagerClass.CloudClientManager.SdkSettled` | packages/n8n-nodes-arduino-cloud/src/cloudClientManager.ts:123-147 | an SDK rejection frees the key, removes the handler and releases the reference |
| `CloudClientManagerClass.CloudClientManager.Unsubscribe` | packages/n8n-nodes-arduino-cloud/src/cloudClientManager.ts:149-157 | unsubscribing removes the handler and tears down with the last reference |
| `CloudClientManagerClass.CloudClientManager.TeardownEntry` | packages/n8n-nodes-arduino-cloud/src/cloudClientManager.ts:188-202 | teardown empties the entry, takes its credential off the map and disconnects a client if there is one |
| `CloudClientManagerClass.ClientEntry.EnsureConnected` | packages/n8n-nodes-arduino-cloud/src/cloudClientManager.ts:160-186 | an existing client or promise is shared, otherwise a connect begins |
| `CloudClientManagerClass.ClientEntry.Deliver` | packages/n8n-nodes-arduino-cloud/src/cloudClientManager.ts:124-138 | every handler of the key is called exactly once even if some throw |
| `CloudClients.TurnKeeps` | packages/n8n-nodes-arduino-cloud/src/cloudClientManager.ts:91-202 | every step, with interleaving at every await, keeps the invariant of references, tables and subscriptions |
| `CloudClients.ReferencesCounted` | packages/n8n-nodes-arduino-cloud/src/cloudClientManager.ts:98-107 | in every run refCount is the subscribes in flight plus the live subscriptions, a non-null client has references, and an entry in use is its credential's |
| `CloudClients.DisconnectedOnce` | packages/n8n-nodes-arduino-cloud/src/cloudClientManager.ts:188-202 | in every run each client that connected has been disconnected exactly once if no reference is left, and never otherwise |
| `CloudClients.DisconnectsAtLastRelease` | packages/n8n-nodes-arduino-cloud/src/cloudClientManager.ts:155-156 | a step disconnects a client exactly when it takes the last reference |
| `CloudClients.DeliversToLive` | packages/n8n-nodes-arduino-cloud/src/cloudClientManager.ts:117-138 | at most one SDK subscription per client and key ever succeeds, and a delivered value reaches exactly the live subscriptions to that key |
| `CloudClients.LiveAreServed` | packages/n8n-nodes-arduino-cloud/src/cloudClientManager.ts:121-147 | in runs where the SDK rejects nothing, it has accepted or is considering every live subscription |
| `CloudClients.RejectionServes` | packages/n8n-nodes-arduino-cloud/src/cloudClientManager.ts:139-146 | after a rejection a live subscription is served if and only if it was before and has another client or key |
| `CloudClients.RejectionHarmlessIff` | packages/n8n-nodes-arduino-cloud/src/cloudClientManager.ts:139-146 | a rejection leaves every live subscription served if and only if none is live for the client and key rejected |
| `CloudClients.RejectionStarves` | packages/n8n-nodes-arduino-cloud/src/cloudClientManager.ts:139-146 | a rejection leaves every other subscription to that key live, with its client connected, and not served |
| `CloudClients.StarvingRun` | packages/n8n-nodes-arduino-cloud/src/cloudClientManager.ts:117-147 | that comes about: a second subscriber to a key joins while the SDK considers the first, which it then rejects |
| `CloudClients.AskingAgainServes` | packages/n8n-nodes-arduino-cloud/src/cloudClientManager.ts:117-122 | once the next subscribe for a client and key goes on, the SDK has accepted that key or is being asked for it, even after a rejection |

## Left out

- BridgeReplay.ProvidersAreRouted: assumes, as does ReplaysEachNameOnce, that fewer than 2^31 ids are drawn in any one attempt's life; otherwise a replay's call can be orphaned under a reused id.
- BridgeTheorems.CloseAnswersOnce: needs a socket that still takes bytes, since a write to one that has failed is dropped, and says nothing of requests that arrive after close() has begun, for which the code promises nothing.
- BridgeClass.Bridge.RejectPending: rejects oldest attempt first; the source goes by insertion into `pending`, which differs only if an id was reused while pending.
- BridgeClass.Bridge.Close: does not model removeAllListeners (`packages/bridge/src/bridge.ts:664`): a call still waiting for 'reconnect' when close() ends is retried by the model at a later 'reconnect', where the source lets it time out.
- Messages that arrive in one chunk are separate turns in the model, so others may come between them; the source handles them in one (`packages/bridge/src/bridge.ts:255-266`).
- Codec.StreamDecoder.Feed: one connection from an empty buffer; the source does not reset the decoder when it reconnects.
- MessagePack extension types and map keys that are not strings count as undecodable; a numeric key comes back as a string and re-encodes longer. The key `__proto__` and the order of integer-like keys are not modelled, and strings are bytes, without UTF-8.
- CallGate.Store.Execute: one execution on its own; other executions running at its awaits are covered by GlobalCap, which takes the gates in any interleaving.
- The encoders on `undefined`, dates and other values with no MessagePack type of their own.
- Calls, handler results and notifications whose values the encoder throws on, once inside the bridge: the state machine takes every call's parameters to be encodable, where the source rejects such a call at once and leaves its id pending until its timer.
- Notifications: dispatch to notification handlers and `notify`, which keep no state.
- `waitForActiveHandlers` and `activeHandlers`, which only observe handlers.
- Listeners of the bridge's events that throw; an 'error' listener is taken to be attached.
- The router is a set of names per connection that acknowledges only what it has registered.
- SSH text is bytes: UTF-8 decoding, which can map different invalid bytes to the same string, is not modelled. Ed25519 is a predicate on signed bytes, key and signature; splitting the CA line and base64 are parameters.
- SshCert.AcceptedIff: speaks of the certificate alone, as the callback does; that the client holds its key, by a signature over the session, is not checked there (`packages/n8n-nodes/src/SshServer.ts:266-343`).
- Sockets, SSH sessions and forwarded channels beyond opening, closing and the tcpip-forward request; a second `listen` with another configuration.
- The throttle's arithmetic is in whole hundredths of a token, without the rounding of the source's doubles.
- The limiter's refusal text, parameter coercion and what a guard may compute; a guard accepts, rejects or throws.
- Two subscribe calls passing the same handler function; each call here has its own.
- CloudClientManagerClass.ClientEntry.Deliver: goes through the handlers present when delivery begins, where the iteration of a JavaScript Set also sees handlers added or removed by those it calls (`packages/n8n-nodes-arduino-cloud/src/cloudClientManager.ts:127`).
- `packages/n8n-nodes/src/BridgeManager.ts`, `PendingRequests.ts`, token caching, transport resolution and value coercion, which are not part of this model.
