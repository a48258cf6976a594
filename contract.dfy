/**
 * The contract's execute and query entry points: sending a balance query
 * over the stored channel, and listing the answers stored so far. Each
 * reads storage and writes none of it.
 */
module Contract {
  import opened Wrappers
  import opened Json
  import opened Host
  import opened Errors
  import opened Msg
  import opened State

  const NOT_SETUP: string := "Channel to ICQ module is not setup"

  /** The fixed relative deadline of an outbound query. */
  const TIMEOUT_SECONDS: nat := 120

  const NANOS_PER_SECOND: nat := 1_000_000_000

  const U64_LIMIT: nat := 0x1_0000_0000_0000_0000

  /** The id of the stored channel, or an error when no channel is connected. */
  function GetChannelId(store: Store): (r: Result<string, StdError>)
    reads store
    ensures r.Failure? <==> store.channelInfo.None?
    ensures r.Failure? ==> r.error == GenericErr(NOT_SETUP)
    ensures r.Success? ==> r.value == store.channelInfo.value.id
  {
    match store.channelInfo
    case Some(info) => Success(info.id)
    case None => Failure(GenericErr(NOT_SETUP))
  }

  /** A block timestamp moved `seconds` later; a result past the 64-bit range panics. */
  function PlusSeconds(time: u64, seconds: nat): (r: Result<u64, ContractError>)
    ensures r.Success? <==> time + seconds * NANOS_PER_SECOND < U64_LIMIT
    ensures r.Success? ==> r.value == time + seconds * NANOS_PER_SECOND
    ensures r.Failure? ==> r.error == Panic("attempt to add with overflow")
  {
    var nanos := time + seconds * NANOS_PER_SECOND;
    if nanos < U64_LIMIT then Success(nanos) else Failure(Panic("attempt to add with overflow"))
  }

  /**
   * Builds one `SendPacket` on the stored channel carrying the request's three
   * fields, with a timeout of block time plus 120 seconds, and echoes the
   * channel id as the `channel` attribute. Fails when no channel is stored.
   */
  function SendQueryBalance(store: Store, env: Env, msg: QueryBalanceMsg): (r: Result<Response, ContractError>)
    reads store
    ensures store.channelInfo.None? ==> r == Failure(Std(GenericErr(NOT_SETUP)))
    ensures store.channelInfo.Some? && r.Failure? ==> r.error == Panic("attempt to add with overflow")
    ensures r.Success? <==>
      store.channelInfo.Some? && env.block.time + TIMEOUT_SECONDS * NANOS_PER_SECOND < U64_LIMIT
    ensures r.Success? ==>
      var id := store.channelInfo.value.id;
      && |r.value.messages| == 1
      && r.value.messages[0].channelId == id
      && r.value.messages[0].timeout == env.block.time + TIMEOUT_SECONDS * NANOS_PER_SECOND
      && r.value.messages[0].data.Doc?
      && DecodeRegisterQuery(r.value.messages[0].data.doc)
           == Some(IbcRegisterBalanceQuery(msg.chainId, msg.addr, msg.denom))
      && r.value.attributes == [Attribute("method", "send_query_balance"), Attribute("channel", id)]
  {
    match GetChannelId(store)
    case Failure(e) => Failure(Std(e))
    case Success(channelId) =>
      var packetData := IbcRegisterBalanceQuery(msg.chainId, msg.addr, msg.denom);
      RegisterQueryRoundTrip(packetData);
      match PlusSeconds(env.block.time, TIMEOUT_SECONDS)
      case Failure(e) => Failure(e)
      case Success(timeout) =>
        var ibcMsg := SendPacket(channelId, Doc(EncodeRegisterQuery(packetData)), timeout);
        Success(Response(
          [Attribute("method", "send_query_balance"), Attribute("channel", channelId)],
          [ibcMsg]))
  }

  /** The execute entry point: its one message kind sends a balance query. */
  function Execute(store: Store, env: Env, msg: ExecuteMsg): (r: Result<Response, ContractError>)
    reads store
    ensures store.channelInfo.None? ==> r == Failure(Std(GenericErr(NOT_SETUP)))
    ensures r == SendQueryBalance(store, env, msg.query)
  {
    match msg
    case SendQueryBalance(query) => SendQueryBalance(store, env, query)
  }

  /** Every stored answer, once each, in ascending sequence order. */
  function QueryAllBalances(store: Store): (r: seq<(u64, Coin)>)
    reads store
    ensures ListsExactly(r, store.icqResponses)
    ensures |r| == |store.icqResponses|
  {
    AscendingEntries(store.icqResponses)
  }

  /** One listed entry as the serializer writes a `(u64, Coin)` pair: a two-element array. */
  function EncodeEntry(entry: (u64, Coin)): Json
  {
    JArr([JNum(entry.0), EncodeCoin(entry.1)])
  }

  function DecodeEntry(j: Json): Option<(u64, Coin)>
  {
    if j.JArr? && |j.items| == 2 && j.items[0].JNum? && 0 <= j.items[0].n < U64_LIMIT then
      match DecodeCoin(j.items[1])
      case Some(c) => Some((j.items[0].n, c))
      case None => None
    else None
  }

  lemma EntryRoundTrip(entry: (u64, Coin))
    ensures DecodeEntry(EncodeEntry(entry)) == Some(entry)
  {
    CoinRoundTrip(entry.1);
  }

  /** The query entry point: the listing of all stored answers, serialized element by element. */
  function Query(store: Store, msg: QueryMsg): (r: Binary)
    reads store
    ensures r.Doc? && r.doc.JArr? && |r.doc.items| == |store.icqResponses|
    ensures forall i :: 0 <= i < |r.doc.items| ==> DecodeEntry(r.doc.items[i]) == Some(QueryAllBalances(store)[i])
  {
    var listing := QueryAllBalances(store);
    var items := seq(|listing|, i requires 0 <= i < |listing| => EncodeEntry(listing[i]));
    assert forall i :: 0 <= i < |items| ==> DecodeEntry(items[i]) == Some(listing[i]) by {
      forall i | 0 <= i < |items| { EntryRoundTrip(listing[i]); }
    }
    Doc(JArr(items))
  }
}
