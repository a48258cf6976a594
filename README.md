# Interchain-query invoker: a Dafny model

This project models the protocol core of a CosmWasm contract that asks a remote chain's
interchain-query (ICQ) module for an account balance over an IBC channel, and records the
answer. It covers three parts:

- **Handshake validation and channel lifecycle.** `ValidateOrderAndVersion` accepts only an
  unordered channel whose version is `icq-1`. The counterparty's version must also be `icq-1`
  when it is known at that step. The validator runs at `OpenInit`/`OpenTry` (open) and at
  `OpenAck`/`OpenConfirm` (connect), the steps of the opening handshake in ICS-004 (Channel
  and Packet Semantics). A successful connect fills the single channel slot. Close empties it.
- **Packet lifecycle.** An acknowledgement is a one-key envelope, `{"result": ...}` or
  `{"error": ...}`, which is the ICS-004 convention. An `Error(e)` acknowledgement records `e`
  under the original packet's sequence number. A `Result` acknowledgement runs the success
  path, which is meant to store the first coin of a decoded balance response. As written,
  that path is handed the whole envelope rather than the payload inside it, so it always
  fails to decode and no answer is ever stored (see "Findings"). The corrected handler
  `Ibc.IbcPacketAckInner` decodes the payload and stores the first coin. Inbound packets are
  answered with a generic success acknowledgement. Timeouts change nothing.
- **Query dispatch and listing.** `SendQueryBalance` builds one `SendPacket` on the stored
  channel. Its payload copies the three request fields, and its timeout is block time plus
  120 seconds. `QueryAllBalances` lists the stored answers in ascending sequence order.

Storage is the class `State.Store`. It has an optional `channelInfo` slot and two maps keyed
by sequence number, `icqResponses` and `icqErrors`. Handlers that write storage are methods
that take the store, so their `modifies` clauses name exactly the fields they may change.
Handlers that do not touch storage are functions that take no store.

JSON is modelled as a small tree (`Json.Json`). A `Binary` is either the encoding of a JSON
document (`Doc`) or bytes that are not one (`Raw`). The derived decoders follow serde's
rules:

- every required field must be present;
- duplicate keys are rejected;
- `cw_serde` types reject unknown keys, while the host's `Coin` ignores them;
- an externally tagged enum is an object with exactly one key.

A Rust panic is modelled as the outcome `Errors.ContractError.Panic`. The code has two
panic sites: `unwrap` on an empty coin list, and timestamp overflow in `plus_seconds`. With
the acknowledgement handler as written the `unwrap` panic cannot be reached, because the
success path never decodes a balance response; it is reachable only through the corrected
handler. Every handler runs all of its checks before its one write, so a failing call
changes nothing.

Behaviour of the code worth stating outright:

- The ordering error is named `OnlyOrderedChannel`, even though it rejects every channel that
  is not unordered.
- A second save under a sequence number replaces the first value; a stored result or error
  is not write-once.
- Close leaves both maps untouched, so answers and errors stored before it stay.
- Responses arrive only through acknowledgements. `ibc_packet_receive` ignores the inbound
  packet and answers with the generic success acknowledgement.

The empty coin list is handled as an explicit outcome. `balances.coins.first().unwrap()`
panics on an empty list, so `Ibc.FirstCoin` returns `Panic` and nothing is stored. Only the
corrected handler reaches this case (`Scenarios.EmptyAnswerStoresNothing` runs through
`Ibc.IbcPacketAckInner`). The intended behaviour for an empty list is not stated
anywhere. The model therefore keeps the panic, flags it here, and does not pick a
replacement.

## Model

| member | source | states |
|---|---|---|
| `Ibc.ValidateOrderAndVersion` | src/ibc.rs:93-129 | a non-unordered channel fails with `OnlyOrderedChannel` whatever the versions; an unordered one with local version other than "icq-1" fails with `InvalidIbcVersion{actual: version, expected: "icq-1"}`; then a known counterparty version other than "icq-1" fails the same way with that version; it passes iff unordered, version "icq-1", counterparty unknown or "icq-1" |
| `Ibc.IbcChannelOpen` | src/ibc.rs:14-21 | succeeds exactly when the validator passes, then proposes no version (`None`); otherwise returns exactly the validator's error; it takes no store, so it changes none |
| `Ibc.ChannelInfoOf` | src/ibc.rs:31-36 | the record keeps the local channel id, the counterparty endpoint and the connection id of the channel |
| `Ibc.IbcChannelConnect` | src/ibc.rs:24-40 | on a rejected step returns the validator's error and leaves the slot as it was; on an accepted one sets the slot to the channel's record, replacing any earlier one; neither map changes |
| `Ibc.IbcChannelClose` | src/ibc.rs:43-54 | empties the slot unconditionally, leaves both maps unchanged, succeeds with the `channel` attribute set to the closed channel's id |
| `Ibc.IbcPacketReceive` | src/ibc.rs:57-63 | never fails, takes no store, and answers with an acknowledgement that decodes as the `Result` envelope |
| `Ibc.IbcPacketTimeout` | src/ibc.rs:85-91 | always succeeds and takes no store, so a timeout leaves no trace |
| `Ibc.FirstCoin` | src/ibc.rs:132-135 | fails with a parse error when the data is not a balance response, panics when its coin list is empty, and otherwise yields the first coin |
| `Ibc.OnPacketSuccess` | src/ibc.rs:131-143 | stores the first coin under the packet's sequence and nothing else; on a decode error or an empty list returns that error and stores nothing |
| `Ibc.EnvelopeIsNotBalanceResponse` | src/ibc.rs:71-73 | data that decodes as an acknowledgement envelope never decodes as a balance response, so the success path fed the envelope always fails |
| `Ibc.IbcPacketAck` | src/ibc.rs:66-82 | as written: an undecodable envelope is a parse error with no write; `Error(e)` sets `icq_errors[sequence] := e` and leaves answers unchanged; `Result(_)` fails to decode; answers are never changed; the slot is never touched |
| `Ibc.IbcPacketAckInner` | src/ibc.rs:66-82 | as `IbcPacketAck`, except that `Result(p)` decodes the payload `p`: a non-empty coin list sets `icq_responses[sequence] := coins[0]` and leaves errors unchanged |
| `Ack.DecodeAck` | src/ibc.rs:71-72 | accepts only the two one-key envelope shapes: whatever it accepts is the encoding of the value it returns |
| `Ack.AckRoundTrip` | src/ibc.rs:6 | every envelope, success or error, decodes back to itself |
| `Ack.MakeAckSuccess` | src/ibc.rs:62 | the generic success acknowledgement decodes as the `Result` envelope |
| `Msg.BalanceResponseRoundTrip` | src/msg.rs:34-44 | any balance response, including one with an empty coin list, decodes back to itself |
| `Msg.RegisterQueryRoundTrip` | src/msg.rs:28-32 | the outbound payload decodes back to the same chain id, address and denomination |
| `Json.Decimal` | src/ibc.rs:141 | the text `to_string` writes for an unsigned number is non-empty, all ASCII digits, and has no leading zero unless the number is 0 |
| `Json.ParseDecimal` | src/ibc.rs:141 | the decimal text written for a sequence number or an amount parses back to that number |
| `State.Store.constructor` | src/state.rs:5-10 | storage starts with an empty slot and two empty maps |
| `State.Store.SaveChannelInfo` | src/state.rs:6 | the slot holds exactly the saved record afterwards; both maps are unchanged |
| `State.Store.RemoveChannelInfo` | src/state.rs:6 | the slot is empty afterwards; both maps are unchanged |
| `State.Store.SaveResponse` | src/state.rs:8 | the answer map gains or replaces one key; the error map and the slot are unchanged |
| `State.Store.SaveError` | src/state.rs:10 | the error map gains or replaces one key; the answer map and the slot are unchanged |
| `State.AscendingEntries` | src/contract.rs:82-84 | a map's ascending range scan: strictly ascending keys, every listed pair is an entry of the map, every entry is listed, and the length equals the map's size |
| `Contract.GetChannelId` | src/contract.rs:67-72 | fails with "Channel to ICQ module is not setup" exactly when the slot is empty; otherwise yields the stored channel's id |
| `Contract.SendQueryBalance` | src/contract.rs:38-65 | fails with the not-set-up error when the slot is empty; succeeds iff the slot is full and the deadline fits in 64 bits, and with a full slot any failure is the overflow `Panic`; on success it emits exactly one `SendPacket` on the stored channel id with timeout `time + 120 * 10^9` ns, a payload that decodes to the request's chain id, address and denomination, and the `channel` attribute equal to that id; it only reads the store |
| `Contract.PlusSeconds` | src/contract.rs:51-52 | the deadline is the block time plus the seconds in nanoseconds; exactly when that leaves the 64-bit range the call ends in the `Panic("attempt to add with overflow")` outcome |
| `Contract.Execute` | src/contract.rs:27-36 | the one execute message sends a balance query, failing when no channel is stored |
| `Contract.QueryAllBalances` | src/contract.rs:81-88 | lists exactly the stored answers, strictly ascending by sequence and without duplicates |
| `Contract.Query` | src/contract.rs:75-79 | the serialized listing has one element per stored answer and each element decodes to the corresponding listed pair |
| `Scenarios.QueryUsesConnectedChannel` | src/contract.rs:43-64 | after a connect, the query goes out on the connected channel with a deadline 120 seconds later |
| `Scenarios.AnswerIsListed` | src/contract.rs:81-84 | connect, then a `Result` acknowledgement for sequence 7 carrying 500uosmo (payload decoded): the listing is exactly `[(7, 500uosmo)]` |
| `Scenarios.AnswerIsLostAsWritten` | src/ibc.rs:73 | the same acknowledgement through the handler as written fails with a parse error and the listing stays empty |
| `Scenarios.RemoteErrorIsRecorded` | src/ibc.rs:74-75 | an `Error("remote module not found")` for sequence 9 is listed nowhere as an answer and is the only recorded error |
| `Scenarios.EmptyAnswerStoresNothing` | src/ibc.rs:135 | through the corrected handler, an answer with an empty coin list ends in the panic outcome and stores nothing |
| `Scenarios.CloseKeepsAnswers` | src/ibc.rs:48-50 | after close, a query fails with the not-set-up error while the earlier answer stays listed |
| `Scenarios.OrderedChannelIsRefused` | src/ibc.rs:100-102 | an ordered channel with a wrong version is refused with `OnlyOrderedChannel` at open and connect, and no channel is stored |
| `Scenarios.ConnectThenSend` | src/ibc.rs:29-37 | after an accepted connect, a query goes out on that channel's id; after a rejected one, the slot is as before, and a query fails if there was none |
| `Scenarios.ReplayedAckIsIdempotent` | src/state.rs:8-10 | delivering the same acknowledgement twice to the corrected handler leaves both maps as one delivery does |
| `Scenarios.ReplayedAckIsIdempotentAsWritten` | src/ibc.rs:74-75 | delivering the same acknowledgement twice to the handler as written leaves both maps as one delivery does: a repeated error save under the same sequence replaces the value with itself |

## Findings

| source | as written | input that shows it | evidently intended | confidence | as-written member | corrected member |
|---|---|---|---|---|---|---|
| src/ibc.rs:73 | on `Ack::Result(_)` the whole acknowledgement data is passed to `on_packet_success`, which decodes it as `BalanceResponse` (src/ibc.rs:132) | ack data `{"result": <base64 of {"balances":{"coins":[{"denom":"uosmo","amount":"500"}]},"last_submitted_local_height":100}>}`: it decodes as `Ack::Result`, but a one-key object lacks the two required `BalanceResponse` fields, so the handler fails and stores nothing | decode the payload carried inside `Result` and store its first coin | not executed; follows from the envelope being an externally tagged one-key object | `Ibc.IbcPacketAck` | `Ibc.IbcPacketAckInner` |

`Ibc.EnvelopeIsNotBalanceResponse` and `Scenarios.AnswerIsLostAsWritten` show the discrepancy.
`Scenarios.AnswerIsListed`, `Scenarios.EmptyAnswerStoresNothing`, `Scenarios.CloseKeepsAnswers`
and `Scenarios.ReplayedAckIsIdempotent` run against the corrected handler.

## Left out

- `instantiate`, `set_contract_version` and the debug print (src/contract.rs:14-24) are not modelled. They are one-time bootstrap with no protocol behaviour. The store simply starts empty.
- Byte-level JSON text, base64 and serde's error messages are not modelled. A `Binary` is a JSON tree or non-JSON bytes. A base64 field is its own leaf, so it is accepted only where a `Binary` is expected, not where a `String` is. A parse error carries only the short name of the target type.
- The `crate::ack` module and the `ContractError` and `Never` definitions are not part of this model. The variants are taken from their uses.
- Ack.MakeAckSuccess: the payload inside the generic success acknowledgement is a fixed value of the model's choosing; its contract states only the envelope shape.
- IBC host plumbing is not modelled: relaying, delivery, sequence assignment, packet ports, the packet's own timeout, the `timeout.into()` conversion and `entry_point` attributes. A `SendPacket` timeout is kept as a nanosecond timestamp.
- cw-storage-plus internals are not modelled: key encoding, the iterator, and storage read and write failures. The store is a slot and two maps.
- Contract.QueryAllBalances: returns its list directly, not a `StdResult`, because storage reads cannot fail in this model.
- Concurrency and transaction rollback are not modelled. Each handler is one serialized call, and a failing call has made no write.
- A mode in which answers arrive as fresh inbound packets rather than acknowledgements is not in this code and is not modelled.
- The Uint128 amount is decoded from its decimal string with an optional `+`, as `u128::from_str` does. A height is a JSON number below 2^64. JSON floats are not modelled.
