/**
 * The channel handshake validator and the channel and packet event
 * handlers. Handlers that write storage are methods on the contract's
 * `Store`; the others take no store and so cannot change it.
 */
module Ibc {
  import opened Wrappers
  import opened Json
  import opened Host
  import opened Errors
  import opened Msg
  import opened Ack
  import opened State

  /** The one protocol version this contract speaks. */
  const IBC_VERSION: string := "icq-1"

  /** The panic message of `Option::unwrap` on `None`. */
  const UNWRAP_NONE: string := "called `Option::unwrap()` on a `None` value"

  /**
   * Accepts an unordered channel whose version is `IBC_VERSION`, with a
   * counterparty that is either not yet known or speaks the same version. The
   * ordering is checked first, then the local version, then the counterparty's.
   * The ordering error is named `OnlyOrderedChannel` although it rejects
   * every channel that is not unordered.
   */
  function ValidateOrderAndVersion(channel: IbcChannel, counterpartyVersion: Option<string>): (r: Outcome<ContractError>)
    ensures channel.order != Unordered ==> r == Fail(OnlyOrderedChannel)
    ensures channel.order == Unordered && channel.version != IBC_VERSION ==>
      r == Fail(InvalidIbcVersion(channel.version, IBC_VERSION))
    ensures
      (channel.order == Unordered && channel.version == IBC_VERSION &&
       counterpartyVersion.Some? && counterpartyVersion.value != IBC_VERSION) ==>
      r == Fail(InvalidIbcVersion(counterpartyVersion.value, IBC_VERSION))
    ensures r == Pass <==>
      && channel.order == Unordered
      && channel.version == IBC_VERSION
      && (counterpartyVersion.None? || counterpartyVersion.value == IBC_VERSION)
  {
    if channel.order != Unordered then
      Fail(OnlyOrderedChannel)
    else if channel.version != IBC_VERSION then
      Fail(InvalidIbcVersion(channel.version, IBC_VERSION))
    else if counterpartyVersion.Some? && counterpartyVersion.value != IBC_VERSION then
      Fail(InvalidIbcVersion(counterpartyVersion.value, IBC_VERSION))
    else
      Pass
  }

  /** `OpenInit` / `OpenTry`: accept or reject, never propose another version. */
  function IbcChannelOpen(msg: IbcChannelOpenMsg): (r: Result<Option<string>, ContractError>)
    ensures r.Success? <==> ValidateOrderAndVersion(msg.channel, msg.CounterpartyVersion()) == Pass
    ensures r.Success? ==> r.value == None
    ensures r.Failure? ==> ValidateOrderAndVersion(msg.channel, msg.CounterpartyVersion()) == Fail(r.error)
  {
    match ValidateOrderAndVersion(msg.channel, msg.CounterpartyVersion())
    case Fail(e) => Failure(e)
    case Pass => Success(None)
  }

  /** The record kept for a connected channel. */
  function ChannelInfoOf(channel: IbcChannel): (info: ChannelInfo)
    ensures info.id == channel.endpoint.channelId
    ensures info.counterpartyEndpoint == channel.counterpartyEndpoint
    ensures info.connectionId == channel.connectionId
  {
    ChannelInfo(channel.endpoint.channelId, channel.counterpartyEndpoint, channel.connectionId)
  }

  /**
   * `OpenAck` / `OpenConfirm`: validates again and, on success, records the
   * channel, replacing any record already in the slot. A rejected step
   * leaves the slot as it was.
   */
  method IbcChannelConnect(store: Store, msg: IbcChannelConnectMsg) returns (r: Result<IbcBasicResponse, ContractError>)
    modifies store`channelInfo
    ensures store.icqResponses == old(store.icqResponses) && store.icqErrors == old(store.icqErrors)
    ensures match ValidateOrderAndVersion(msg.channel, msg.CounterpartyVersion())
      case Fail(e) => r == Failure(e) && store.channelInfo == old(store.channelInfo)
      case Pass => r == Success(IbcBasicResponse([])) && store.channelInfo == Some(ChannelInfoOf(msg.channel))
  {
    var valid := ValidateOrderAndVersion(msg.channel, msg.CounterpartyVersion());
    if valid.Fail? {
      return Failure(valid.error);
    }
    store.SaveChannelInfo(ChannelInfoOf(msg.channel));
    r := Success(IbcBasicResponse([]));
  }

  /** Empties the channel slot unconditionally; stored answers and errors stay. */
  method IbcChannelClose(store: Store, msg: IbcChannelCloseMsg) returns (r: Result<IbcBasicResponse, ContractError>)
    modifies store`channelInfo
    ensures store.channelInfo == None
    ensures store.icqResponses == old(store.icqResponses) && store.icqErrors == old(store.icqErrors)
    ensures r == Success(IbcBasicResponse([
      Attribute("method", "ibc_channel_close"),
      Attribute("channel", msg.channel.endpoint.channelId)]))
  {
    var channel := msg.channel.endpoint.channelId;
    store.RemoveChannelInfo();
    r := Success(IbcBasicResponse([Attribute("method", "ibc_channel_close"), Attribute("channel", channel)]));
  }

  /** Inbound packets are not expected: every one is answered with the generic success acknowledgement. */
  function IbcPacketReceive(msg: IbcPacketReceiveMsg): (r: IbcReceiveResponse)
    ensures FromJsonAck(r.acknowledgement) == Some(Result(SuccessPayload))
    ensures r.attributes == [Attribute("method", "ibc_packet_receive")]
  {
    IbcReceiveResponse(MakeAckSuccess(), [Attribute("method", "ibc_packet_receive")])
  }

  /** A timed-out query leaves no trace in storage. */
  function IbcPacketTimeout(msg: IbcPacketTimeoutMsg): (r: Result<IbcBasicResponse, ContractError>)
    ensures r.Success? && r.value.attributes == [Attribute("method", "ibc_packet_timeout")]
  {
    Success(IbcBasicResponse([Attribute("method", "ibc_packet_timeout")]))
  }

  /**
   * What the success path makes of a binary value: it must decode as a
   * balance response, and the first coin of its list is the answer; an empty
   * list makes `unwrap` panic.
   */
  function FirstCoin(result: Binary): (r: Result<Coin, ContractError>)
    ensures FromJsonBalanceResponse(result).None? ==> r == Failure(Std(ParseErr("BalanceResponse")))
    ensures FromJsonBalanceResponse(result).Some? && FromJsonBalanceResponse(result).value.balances.coins == [] ==>
      r == Failure(Panic(UNWRAP_NONE))
    ensures r.Success? <==>
      FromJsonBalanceResponse(result).Some? && FromJsonBalanceResponse(result).value.balances.coins != []
    ensures r.Success? ==> r.value == FromJsonBalanceResponse(result).value.balances.coins[0]
  {
    match FromJsonBalanceResponse(result)
    case None => Failure(Std(ParseErr("BalanceResponse")))
    case Some(response) =>
      if |response.balances.coins| == 0 then Failure(Panic(UNWRAP_NONE))
      else Success(response.balances.coins[0])
  }

  function SuccessAttributes(packet: IbcPacket): seq<Attribute>
  {
    [Attribute("method", "ibc_packet_ack"), Attribute("sequence", Decimal(packet.sequence))]
  }

  function ErrorAttributes(error: string, packet: IbcPacket): seq<Attribute>
  {
    [Attribute("method", "ibc_packet_ack"), Attribute("error", error), Attribute("sequence", Decimal(packet.sequence))]
  }

  /** Stores the first coin of `result` under the packet's sequence; on any failure stores nothing. */
  method OnPacketSuccess(store: Store, result: Binary, packet: IbcPacket) returns (r: Result<IbcBasicResponse, ContractError>)
    modifies store`icqResponses
    ensures store.channelInfo == old(store.channelInfo) && store.icqErrors == old(store.icqErrors)
    ensures match FirstCoin(result)
      case Failure(e) => r == Failure(e) && store.icqResponses == old(store.icqResponses)
      case Success(coin) =>
        && r == Success(IbcBasicResponse(SuccessAttributes(packet)))
        && store.icqResponses == old(store.icqResponses)[packet.sequence := coin]
  {
    var balance := FirstCoin(result);
    if balance.Failure? {
      return Failure(balance.error);
    }
    store.SaveResponse(packet.sequence, balance.value);
    r := Success(IbcBasicResponse(SuccessAttributes(packet)));
  }

  /**
   * No binary value decodes both as an acknowledgement envelope (an object
   * with one key) and as a balance response (an object with two keys).
   */
  lemma EnvelopeIsNotBalanceResponse(data: Binary)
    requires FromJsonAck(data).Some?
    ensures FromJsonBalanceResponse(data).None?
    ensures FirstCoin(data) == Failure(Std(ParseErr("BalanceResponse")))
  {
    var fs := data.doc.fields;
    OneField(fs[0].0, fs[0].1);
    assert fs == [(fs[0].0, fs[0].1)];
    assert !HasFields(fs, {"balances", "last_submitted_local_height"}, true);
  }

  /**
   * The acknowledgement handler as written: an undecodable envelope is an
   * error and stores nothing; `Error(e)` records `e` under the original
   * packet's sequence; `Result(_)` runs the success path on the whole
   * acknowledgement data, not on the payload inside it, so it always fails
   * to decode and no answer is ever stored.
   */
  method IbcPacketAck(store: Store, msg: IbcPacketAckMsg) returns (r: Result<IbcBasicResponse, ContractError>)
    modifies store`icqResponses, store`icqErrors
    ensures store.channelInfo == old(store.channelInfo)
    ensures store.icqResponses == old(store.icqResponses)
    ensures match FromJsonAck(msg.acknowledgement.data)
      case None => r == Failure(Std(ParseErr("Ack"))) && store.icqErrors == old(store.icqErrors)
      case Some(Error(e)) =>
        && r == Success(IbcBasicResponse(ErrorAttributes(e, msg.originalPacket)))
        && store.icqErrors == old(store.icqErrors)[msg.originalPacket.sequence := e]
      case Some(Result(_)) =>
        && r == Failure(Std(ParseErr("BalanceResponse")))
        && store.icqErrors == old(store.icqErrors)
  {
    var icqMsg := FromJsonAck(msg.acknowledgement.data);
    match icqMsg
    case None =>
      r := Failure(Std(ParseErr("Ack")));
    case Some(Result(_)) =>
      EnvelopeIsNotBalanceResponse(msg.acknowledgement.data);
      r := OnPacketSuccess(store, msg.acknowledgement.data, msg.originalPacket);
    case Some(Error(error)) =>
      store.SaveError(msg.originalPacket.sequence, error);
      r := Success(IbcBasicResponse(ErrorAttributes(error, msg.originalPacket)));
  }

  /**
   * The acknowledgement handler with the success path decoding the payload
   * carried inside `Result`: a remote answer with a non-empty coin list is
   * stored under the original packet's sequence.
   */
  method IbcPacketAckInner(store: Store, msg: IbcPacketAckMsg) returns (r: Result<IbcBasicResponse, ContractError>)
    modifies store`icqResponses, store`icqErrors
    ensures store.channelInfo == old(store.channelInfo)
    ensures match FromJsonAck(msg.acknowledgement.data)
      case None =>
        && r == Failure(Std(ParseErr("Ack")))
        && store.icqResponses == old(store.icqResponses) && store.icqErrors == old(store.icqErrors)
      case Some(Error(e)) =>
        && r == Success(IbcBasicResponse(ErrorAttributes(e, msg.originalPacket)))
        && store.icqErrors == old(store.icqErrors)[msg.originalPacket.sequence := e]
        && store.icqResponses == old(store.icqResponses)
      case Some(Result(payload)) =>
        && store.icqErrors == old(store.icqErrors)
        && match FirstCoin(payload)
           case Failure(e) => r == Failure(e) && store.icqResponses == old(store.icqResponses)
           case Success(coin) =>
             && r == Success(IbcBasicResponse(SuccessAttributes(msg.originalPacket)))
             && store.icqResponses == old(store.icqResponses)[msg.originalPacket.sequence := coin]
  {
    var icqMsg := FromJsonAck(msg.acknowledgement.data);
    match icqMsg
    case None =>
      r := Failure(Std(ParseErr("Ack")));
    case Some(Result(payload)) =>
      r := OnPacketSuccess(store, payload, msg.originalPacket);
    case Some(Error(error)) =>
      store.SaveError(msg.originalPacket.sequence, error);
      r := Success(IbcBasicResponse(ErrorAttributes(error, msg.originalPacket)));
  }
}
