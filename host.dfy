/**
 * The shapes of the host environment's types that the contract uses
 * (channels, packets, handshake messages, responses, block time, coins).
 * Only the fields the contract reads or writes are kept.
 */
module Host {
  import opened Wrappers
  import opened Json

  type u64 = n: int | 0 <= n < 0x1_0000_0000_0000_0000
  type u128 = n: int | 0 <= n < 0x1_0000_0000_0000_0000_0000_0000_0000_0000

  /** A coin amount of one denomination. */
  datatype Coin = Coin(denom: string, amount: u128)

  datatype IbcOrder = Unordered | Ordered

  datatype IbcEndpoint = IbcEndpoint(portId: string, channelId: string)

  datatype IbcChannel = IbcChannel(
    endpoint: IbcEndpoint,
    counterpartyEndpoint: IbcEndpoint,
    order: IbcOrder,
    version: string,
    connectionId: string)

  /** The first handshake step on either chain; only `OpenTry` knows the counterparty's version. */
  datatype IbcChannelOpenMsg =
    | OpenInit(channel: IbcChannel)
    | OpenTry(channel: IbcChannel, counterpartyVersion: string)
  {
    function CounterpartyVersion(): Option<string>
    {
      match this
      case OpenInit(_) => None
      case OpenTry(_, v) => Some(v)
    }
  }

  /** The last handshake step on either chain; only `OpenAck` knows the counterparty's version. */
  datatype IbcChannelConnectMsg =
    | OpenAck(channel: IbcChannel, counterpartyVersion: string)
    | OpenConfirm(channel: IbcChannel)
  {
    function CounterpartyVersion(): Option<string>
    {
      match this
      case OpenAck(_, v) => Some(v)
      case OpenConfirm(_) => None
    }
  }

  datatype IbcChannelCloseMsg =
    | CloseInit(channel: IbcChannel)
    | CloseConfirm(channel: IbcChannel)

  /** A packet: its payload and the sequence number the host chain assigned to it. */
  datatype IbcPacket = IbcPacket(data: Binary, sequence: u64)

  datatype IbcAcknowledgement = IbcAcknowledgement(data: Binary)

  datatype IbcPacketReceiveMsg = IbcPacketReceiveMsg(packet: IbcPacket)

  datatype IbcPacketAckMsg = IbcPacketAckMsg(acknowledgement: IbcAcknowledgement, originalPacket: IbcPacket)

  datatype IbcPacketTimeoutMsg = IbcPacketTimeoutMsg(packet: IbcPacket)

  /** Block time is a timestamp in nanoseconds since the epoch. */
  datatype BlockInfo = BlockInfo(height: u64, time: u64, chainId: string)

  datatype Env = Env(block: BlockInfo)

  datatype Attribute = Attribute(key: string, value: string)

  /** An outbound message; the timeout is a block timestamp in nanoseconds. */
  datatype IbcMsg = SendPacket(channelId: string, data: Binary, timeout: u64)

  datatype Response = Response(attributes: seq<Attribute>, messages: seq<IbcMsg>)

  datatype IbcBasicResponse = IbcBasicResponse(attributes: seq<Attribute>)

  datatype IbcReceiveResponse = IbcReceiveResponse(acknowledgement: Binary, attributes: seq<Attribute>)

  /** The host library's error, in the two forms the contract can raise. */
  datatype StdError =
    | GenericErr(msg: string)
    | ParseErr(targetType: string)
}
