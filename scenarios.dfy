/**
 * Client programs that drive the handlers in the orders the protocol
 * describes and state what a caller observes afterwards.
 */
module Scenarios {
  import opened Wrappers
  import opened Json
  import opened Host
  import opened Errors
  import opened Msg
  import opened Ack
  import opened State
  import opened Ibc
  import opened Contract

  const LocalEnd := IbcEndpoint("wasm.contract", "channel-0")
  const RemoteEnd := IbcEndpoint("icqhost", "channel-1")

  function Channel(order: IbcOrder, version: string): IbcChannel
  {
    IbcChannel(LocalEnd, RemoteEnd, order, version, "connection-0")
  }

  const Now: Env := Env(BlockInfo(100, 1_700_000_000_000_000_000, "local-1"))

  const OsmoQuery := QueryBalanceMsg("osmosis-1", "osmo1abc", "uosmo")

  function OutboundPacket(sequence: u64): IbcPacket
  {
    IbcPacket(Doc(EncodeRegisterQuery(IbcRegisterBalanceQuery("osmosis-1", "osmo1abc", "uosmo"))), sequence)
  }

  /** An acknowledgement whose `Result` payload is the given balance response. */
  function ResultAck(response: BalanceResponse, sequence: u64): IbcPacketAckMsg
  {
    IbcPacketAckMsg(
      IbcAcknowledgement(Doc(EncodeAck(Result(Doc(EncodeBalanceResponse(response)))))),
      OutboundPacket(sequence))
  }

  function ErrorAck(message: string, sequence: u64): IbcPacketAckMsg
  {
    IbcPacketAckMsg(IbcAcknowledgement(Doc(EncodeAck(Error(message)))), OutboundPacket(sequence))
  }

  const Uosmo500 := BalanceResponse(Balances([Coin("uosmo", 500)]), 100)

  lemma ResultAckDecodes(response: BalanceResponse, sequence: u64)
    ensures FromJsonAck(ResultAck(response, sequence).acknowledgement.data)
      == Some(Result(Doc(EncodeBalanceResponse(response))))
    ensures FirstCoin(Doc(EncodeBalanceResponse(response))) ==
      if response.balances.coins == [] then Failure(Panic(UNWRAP_NONE))
      else Success(response.balances.coins[0])
  {
    AckRoundTrip(Result(Doc(EncodeBalanceResponse(response))));
    BalanceResponseRoundTrip(response);
  }

  /** Once the channel is connected, a query goes out on it with a deadline 120 seconds away. */
  method QueryUsesConnectedChannel() returns (sent: Result<Response, ContractError>)
    ensures sent.Success? && |sent.value.messages| == 1
    ensures sent.value.messages[0].channelId == "channel-0"
    ensures sent.value.messages[0].timeout == Now.block.time + 120_000_000_000
  {
    var store := new Store();
    var connected := IbcChannelConnect(store, OpenConfirm(Channel(Unordered, IBC_VERSION)));
    sent := Contract.SendQueryBalance(store, Now, OsmoQuery);
  }

  /**
   * Connect, receive the answer to query 7 as its acknowledgement, decoding
   * the payload, then list: the answer is there.
   */
  method AnswerIsListed() returns (acked: Result<IbcBasicResponse, ContractError>, listing: seq<(u64, Coin)>)
    ensures acked.Success?
    ensures listing == [(7, Coin("uosmo", 500))]
  {
    var store := new Store();
    var connected := IbcChannelConnect(store, OpenConfirm(Channel(Unordered, IBC_VERSION)));
    ResultAckDecodes(Uosmo500, 7);
    acked := IbcPacketAckInner(store, ResultAck(Uosmo500, 7));
    listing := QueryAllBalances(store);
    assert store.icqResponses == map[7 := Coin("uosmo", 500)];
    assert listing[0].0 in store.icqResponses;
  }

  /** The same exchange through the handler as written: the answer is rejected and nothing is listed. */
  method AnswerIsLostAsWritten() returns (acked: Result<IbcBasicResponse, ContractError>, listing: seq<(u64, Coin)>)
    ensures acked == Failure(Std(ParseErr("BalanceResponse")))
    ensures listing == []
  {
    var store := new Store();
    var connected := IbcChannelConnect(store, OpenConfirm(Channel(Unordered, IBC_VERSION)));
    ResultAckDecodes(Uosmo500, 7);
    acked := IbcPacketAck(store, ResultAck(Uosmo500, 7));
    listing := QueryAllBalances(store);
  }

  /** A remote error for packet 9 is recorded as an error and never listed as an answer. */
  method RemoteErrorIsRecorded() returns (listing: seq<(u64, Coin)>, errors: map<u64, string>)
    ensures listing == []
    ensures errors == map[9 := "remote module not found"]
  {
    var store := new Store();
    var connected := IbcChannelConnect(store, OpenConfirm(Channel(Unordered, IBC_VERSION)));
    AckRoundTrip(Error("remote module not found"));
    var acked := IbcPacketAck(store, ErrorAck("remote module not found", 9));
    listing := QueryAllBalances(store);
    errors := store.icqErrors;
  }

  /** An answer whose coin list is empty makes the success path panic and stores nothing. */
  method EmptyAnswerStoresNothing() returns (acked: Result<IbcBasicResponse, ContractError>, listing: seq<(u64, Coin)>)
    ensures acked == Failure(Panic(UNWRAP_NONE))
    ensures listing == []
  {
    var store := new Store();
    var empty := BalanceResponse(Balances([]), 100);
    ResultAckDecodes(empty, 3);
    acked := IbcPacketAckInner(store, ResultAck(empty, 3));
    listing := QueryAllBalances(store);
  }

  /**
   * Closing the channel makes later queries fail with the not-set-up error,
   * while the answers stored before the close stay listed.
   */
  method CloseKeepsAnswers() returns (sent: Result<Response, ContractError>, listing: seq<(u64, Coin)>)
    ensures sent == Failure(Std(GenericErr(NOT_SETUP)))
    ensures listing == [(7, Coin("uosmo", 500))]
  {
    var store := new Store();
    var connected := IbcChannelConnect(store, OpenConfirm(Channel(Unordered, IBC_VERSION)));
    ResultAckDecodes(Uosmo500, 7);
    var acked := IbcPacketAckInner(store, ResultAck(Uosmo500, 7));
    var closed := IbcChannelClose(store, CloseInit(Channel(Unordered, IBC_VERSION)));
    sent := Contract.SendQueryBalance(store, Now, OsmoQuery);
    listing := QueryAllBalances(store);
    assert store.icqResponses == map[7 := Coin("uosmo", 500)];
    assert listing[0].0 in store.icqResponses;
  }

  /** An ordered channel is refused with the ordering error even when its version is also wrong. */
  method OrderedChannelIsRefused() returns (openResult: Result<Option<string>, ContractError>,
                                            connected: Result<IbcBasicResponse, ContractError>,
                                            sent: Result<Response, ContractError>)
    ensures openResult == Failure(OnlyOrderedChannel)
    ensures connected == Failure(OnlyOrderedChannel)
    ensures sent == Failure(Std(GenericErr(NOT_SETUP)))
  {
    var store := new Store();
    openResult := IbcChannelOpen(OpenTry(Channel(Ordered, "ics20-1"), "ics20-1"));
    connected := IbcChannelConnect(store, OpenAck(Channel(Ordered, "ics20-1"), "ics20-1"));
    sent := Contract.SendQueryBalance(store, Now, OsmoQuery);
  }

  /**
   * After a connect step the validator accepts, a query goes out on exactly
   * the connected channel; after one it rejects, the slot is as it was.
   */
  method ConnectThenSend(store: Store, msg: IbcChannelConnectMsg, env: Env, query: QueryBalanceMsg)
    returns (sent: Result<Response, ContractError>)
    requires env.block.time + TIMEOUT_SECONDS * NANOS_PER_SECOND < U64_LIMIT
    modifies store`channelInfo
    ensures ValidateOrderAndVersion(msg.channel, msg.CounterpartyVersion()) == Pass ==>
      sent.Success? && |sent.value.messages| == 1 && sent.value.messages[0].channelId == msg.channel.endpoint.channelId
    ensures ValidateOrderAndVersion(msg.channel, msg.CounterpartyVersion()) != Pass ==>
      store.channelInfo == old(store.channelInfo) && (old(store.channelInfo).None? ==> sent.Failure?)
  {
    var connected := IbcChannelConnect(store, msg);
    sent := Contract.SendQueryBalance(store, env, query);
  }

  /** Delivering the same acknowledgement twice leaves the store as delivering it once. */
  method ReplayedAckIsIdempotent(store: Store, msg: IbcPacketAckMsg)
    returns (responsesOnce: map<u64, Coin>, errorsOnce: map<u64, string>)
    modifies store`icqResponses, store`icqErrors
    ensures store.icqResponses == responsesOnce && store.icqErrors == errorsOnce
  {
    var first := IbcPacketAckInner(store, msg);
    responsesOnce, errorsOnce := store.icqResponses, store.icqErrors;
    var second := IbcPacketAckInner(store, msg);
  }

  /** The same holds for the handler as written, whose only write is the error save. */
  method ReplayedAckIsIdempotentAsWritten(store: Store, msg: IbcPacketAckMsg)
    returns (responsesOnce: map<u64, Coin>, errorsOnce: map<u64, string>)
    modifies store`icqResponses, store`icqErrors
    ensures store.icqResponses == responsesOnce && store.icqErrors == errorsOnce
  {
    var first := IbcPacketAck(store, msg);
    responsesOnce, errorsOnce := store.icqResponses, store.icqErrors;
    var second := IbcPacketAck(store, msg);
  }
}
