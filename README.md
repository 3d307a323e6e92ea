# b2ghald client: request correlation, verified in Dafny

This project models the blocking client of the b2ghald hardware daemon
(`src/client.rs`). The client multiplexes calls over one Unix-socket
connection. `HalClient` keeps a request-id counter (`req_id`) and a table of
pending listeners (`listeners`, id to `Sender<Response>`):

- `send` takes the current id, advances the counter, registers the listener
  under that id and writes the envelope;
- `get_next_message` decodes one inbound envelope, removes the listener its id
  names and hands it the response, reporting `NoListener` for an unknown id
  and `StreamError` for a decode failure.

`SimpleClient` makes one `send` and one pump per call. It blocks on the
caller's own channel and absorbs every failure (a no-op, or `0` for
`get_screen_brightness`).

Files:

- `messages.dfy` (module `Messages`): the requests, responses and the two
  envelope shapes, as far as the client uses them.
- `client_spec.dfy` (module `ClientSpec`): the client's transitions as pure
  functions over `ClientState<S>` (counter, table, frames still to be read,
  envelopes written), generic in the sink type `S`. It also holds the
  invariant `Inv` ("every pending id is below the counter") and lemmas about
  runs of sends and pumps and about sessions of facade calls.
- `client.dfy` (module `Client`): the classes `Channel`, `HalClient` and
  `SimpleClient`. Their methods update fields in place and are proved to make
  exactly the `ClientSpec` transitions.

How the environment is abstracted:

- The socket is two fields of `HalClient`. `incoming: seq<Frame>` holds what
  each future decode attempt yields (`Decoded(envelope)` or `DecodeFailure`);
  an exhausted stream fails to decode like a malformed one. `outgoing` records
  the envelopes written.
- Whether a write succeeds is a parameter (`WriteOutcome`) of `Send` and of
  each facade call.
- Whether `connect` succeeds, and which frames the daemon will then send, is
  the `ConnectAttempt` parameter.
- A listener `Sender<Response>` is a `Channel` object whose `inbox` receives
  the delivered response.
- `receiver.recv()` reads that inbox. If nothing was delivered and the sender
  is still in the table, `recv` waits forever. The model calls this `Blocked`,
  and a facade call that waits forever in `recv` returns `Hangs`.

## Model

| member | source | states |
|---|---|---|
| `ClientSpec.Connected` | src/client.rs:23-35 | a fresh connection has counter 0 and an empty listener table, so the table invariant holds from the start |
| `ClientSpec.Send` | src/client.rs:37-50 | the envelope id is the pre-call counter and the counter ends one larger; the listener is registered under that id (one not already present when the invariant holds), the invariant is kept and every other entry is unchanged; the outcome fails, with the serialisation error, exactly when the write fails, and the registration remains in that case |
| `ClientSpec.GetNextMessage` | src/client.rs:52-68 | no frame or a decode failure gives `StreamError`; an id with no listener gives `NoListener`; on either failure the table is unchanged; on success exactly the named entry is removed, its sink gets the decoded response and the other entries are unchanged; the counter never changes and the invariant is kept |
| `ClientSpec.Call` | src/client.rs:84-135 | one facade round trip allocates the counter's id, and `recv` runs exactly when the pump succeeds; from a valid table with a fresh sink the caller receives a response exactly when the next envelope names the id just sent, and then gets that response and the table is back as before; the caller blocks exactly when the envelope names another pending id; it is never `Disconnected`; a failed pump leaves the caller's entry registered |
| `ClientSpec.Recv` | src/client.rs:96-99 | `recv()` on the caller's sink yields the response delivered to that sink exactly when one was delivered; it blocks exactly when nothing was delivered and the sender is still pending in the table; otherwise the sender was dropped (`Err`); `Client.SimpleClient.Exchange` proves the inbox-based `Client.SimpleClient.Receive` equals it |
| `ClientSpec.UnitReply` | src/client.rs:84-90 | a state-changing facade call ignores whatever `recv` yields, so it returns unless `recv` blocks |
| `ClientSpec.Brightness` | src/client.rs:92-103 | a nonzero return is the level of a `GetBrightnessSuccess` received after a successful pump, and that level is returned exactly then; 0 is returned on a pump failure, on another response variant and on a disconnected channel; the call hangs exactly when `recv` blocks |
| `ClientSpec.RunKeepsInv` | src/client.rs:37-68 | every sequence of sends and pumps keeps every pending id below the counter, and advances the counter once per send |
| `ClientSpec.ResolvedStaysResolved` | src/client.rs:55-60 | an allocated id that is no longer pending never becomes pending again, whatever sends and pumps follow |
| `ClientSpec.SecondResolutionHasNoListener` | src/client.rs:55-61 | after an id is resolved, any later envelope naming it yields `NoListener`, after any further sends and pumps |
| `ClientSpec.StaleReplyBlocksCaller` | src/client.rs:84-90 | a reply naming an older pending id is handed to that older listener, and the caller's `recv` blocks; the stale entry is removed and the caller's entry stays |
| `ClientSpec.EchoedSession` | src/client.rs:84-135 | with an empty table and a daemon that echoes each id just sent, successive facade calls issue consecutive ids, each caller receives its own reply, and the table is empty after each call |
| `ClientSpec.FreshSessionIssuesConsecutiveIds` | src/client.rs:37-41 | from a fresh connection, N echoed facade calls issue the ids 0, 1, ..., N-1 in order and leave the table empty after each call |
| `Client.Channel.Deliver` | src/client.rs:57 | `listener.send` appends the response to the channel's inbox |
| `Client.Channel.constructor` | src/client.rs:85 | `channel()` creates a channel with an empty inbox |
| `Client.HalClient.Open` | src/client.rs:25-29 | the constructed client holds the `Connected` state |
| `Client.HalClient.Connect` | src/client.rs:23-35 | a connection yields a fresh valid client in the `Connected` state; a refusal yields the connection error |
| `Client.HalClient.Send` | src/client.rs:37-50 | the in-place update performs `ClientSpec.Send` and returns its outcome, keeping the invariant |
| `Client.HalClient.GetNextMessage` | src/client.rs:52-68 | the in-place update performs `ClientSpec.GetNextMessage` and returns its outcome; the named listener's channel gets the response and no other channel changes |
| `Client.SimpleClient.New` | src/client.rs:77-82 | a refused connection gives no client; an accepted one gives a fresh client wrapping a fresh `HalClient` in the `Connected` state |
| `Client.SimpleClient.Wrap` | src/client.rs:79 | `Some(Self { client })` wraps the given valid `HalClient` unchanged |
| `Client.SimpleClient.Receive` | src/client.rs:88 | `receiver.recv()` on a channel returns the first response in its inbox exactly when the inbox is non-empty, blocks exactly when the inbox is empty and the channel is still registered in the table, and otherwise reports the dropped sender; `Exchange` proves it equals `ClientSpec.Recv` after the pump |
| `Client.SimpleClient.Exchange` | src/client.rs:84-90 | a fresh channel, `send` with its error discarded, one pump and `recv` after a successful pump together perform `ClientSpec.Call` with the fresh channel as the caller's sink; the caller's inbox holds exactly what was delivered to it, and `Receive` on it equals `ClientSpec.Recv` |
| `Client.SimpleClient.SetScreenBrightness` | src/client.rs:84-90 | sends `SetBrightness(level)`, performs `ClientSpec.Call` and returns `UnitReply` of what `recv` yields |
| `Client.SimpleClient.GetScreenBrightness` | src/client.rs:92-103 | sends `GetBrightness`, performs `ClientSpec.Call` and returns `Brightness` of what `recv` yields |
| `Client.SimpleClient.EnableScreen` | src/client.rs:105-111 | sends `EnableScreen(screen)`, performs `ClientSpec.Call` and returns `UnitReply` of what `recv` yields |
| `Client.SimpleClient.DisableScreen` | src/client.rs:113-119 | sends `DisableScreen(screen)`, performs `ClientSpec.Call` and returns `UnitReply` of what `recv` yields |
| `Client.SimpleClient.Reboot` | src/client.rs:121-127 | sends `Reboot`, performs `ClientSpec.Call` and returns `UnitReply` of what `recv` yields |
| `Client.SimpleClient.PowerOff` | src/client.rs:129-135 | sends `PowerOff`, performs `ClientSpec.Call` and returns `UnitReply` of what `recv` yields |
| `Client.BrightnessRoundTrip` | src/client.rs:92-103 | a fresh client whose daemon answers id 0 with `GetBrightnessSuccess(77)` makes `get_screen_brightness` return 77 |

## Left out

- The Unix socket and its fixed path `/tmp/b2ghald.sock` are I/O. Connecting is the `ConnectAttempt` parameter, and the stream is the `incoming`/`outgoing` fields.
- bincode encoding and decoding (native endianness, no length prefix) are a foreign library. A write is only `Written` or `WriteFailed`, and a decode is only a `Frame`. No encode/decode round trip is stated.
- A read that never completes is not modelled. With a connected daemon that sends nothing, `deserialize_from` would wait forever. In the model an exhausted `incoming` counts as a closed stream, so the pump reports `StreamError` and the facade falls back (a no-op, or `Returns(0)`) instead of hanging.
- A half-written envelope is not modelled: a failed write leaves `outgoing` as it was.
- After a decode failure the real stream position is undefined. The model drops that frame and goes on with the next one. It does not capture the desynchronisation.
- The full response catalogue is not modelled. Every response other than `GetBrightnessSuccess` is collapsed into `Acknowledgement(discriminant)`.
- `std::sync::mpsc` is cross-thread machinery. A channel is a `Channel` object with an inbox, and a `recv` that would wait forever is the `Blocked` outcome, not a real wait.
- `recv` failing with a dropped sender (`Disconnected`, the `Err(_)` arm) is modelled. `ClientSpec.Call` proves it unreachable, because the facade's sender stays in the table until it is resolved.
- `log::error!` calls are logging only and are left out.
- Client.HalClient.Send: `req_id` is an unbounded `nat`; the wrap-around or overflow panic of the `u64` counter after 2^64 requests is not modelled.
- Correlation with more than one outstanding request is only described, not claimed correct. `StaleReplyBlocksCaller` shows that the listener named by the envelope gets the reply, whoever is waiting.
