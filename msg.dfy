/**
 * The contract's message types and the payloads exchanged with the remote
 * query module, with the JSON shapes their derived serializers produce and
 * accept. Types marked `cw_serde` in the source reject unknown fields; the
 * host's `Coin` does not.
 */
module Msg {
  import opened Wrappers
  import opened Json
  import opened Host

  /** The caller's request to query a balance on a remote chain. */
  datatype QueryBalanceMsg = QueryBalanceMsg(chainId: string, addr: string, denom: string)

  datatype ExecuteMsg = SendQueryBalance(query: QueryBalanceMsg)

  datatype QueryMsg = AllBalances

  /** The outbound packet payload. */
  datatype IbcRegisterBalanceQuery = IbcRegisterBalanceQuery(chainId: string, addr: string, denom: string)

  datatype Balances = Balances(coins: seq<Coin>)

  /** The remote module's answer to a balance query. */
  datatype BalanceResponse = BalanceResponse(balances: Balances, lastSubmittedLocalHeight: u64)

  function EncodeCoin(c: Coin): Json
  {
    JObj([("denom", JStr(c.denom)), ("amount", JStr(Decimal(c.amount)))])
  }

  function DecodeCoin(j: Json): Option<Coin>
  {
    if !j.JObj? || !HasFields(j.fields, {"denom", "amount"}, false) then None
    else
      match (Lookup(j.fields, "denom"), Lookup(j.fields, "amount"))
      case (Some(JStr(d)), Some(JStr(a))) =>
        (match ParseU128(a)
         case Some(n) => Some(Coin(d, n))
         case None => None)
      case _ => None
  }

  function EncodeCoins(coins: seq<Coin>): (items: seq<Json>)
    ensures |items| == |coins|
  {
    seq(|coins|, i requires 0 <= i < |coins| => EncodeCoin(coins[i]))
  }

  /** Decodes a JSON array element by element; one bad element rejects the whole list. */
  function DecodeCoins(items: seq<Json>): (r: Option<seq<Coin>>)
    ensures r.Some? ==> |r.value| == |items|
    ensures r.Some? ==> forall i :: 0 <= i < |items| ==> DecodeCoin(items[i]) == Some(r.value[i])
  {
    if |items| == 0 then Some([])
    else
      match (DecodeCoin(items[0]), DecodeCoins(items[1..]))
      case (Some(c), Some(cs)) =>
        assert forall i :: 1 <= i < |items| ==> items[i] == items[1..][i - 1];
        Some([c] + cs)
      case _ => None
  }

  function EncodeBalances(b: Balances): Json
  {
    JObj([("coins", JArr(EncodeCoins(b.coins)))])
  }

  function DecodeBalances(j: Json): Option<Balances>
  {
    if !j.JObj? || !HasFields(j.fields, {"coins"}, true) then None
    else
      match Lookup(j.fields, "coins")
      case Some(JArr(items)) =>
        (match DecodeCoins(items)
         case Some(cs) => Some(Balances(cs))
         case None => None)
      case _ => None
  }

  function EncodeBalanceResponse(r: BalanceResponse): Json
  {
    JObj([("balances", EncodeBalances(r.balances)),
          ("last_submitted_local_height", JNum(r.lastSubmittedLocalHeight))])
  }

  function DecodeBalanceResponse(j: Json): Option<BalanceResponse>
  {
    if !j.JObj? || !HasFields(j.fields, {"balances", "last_submitted_local_height"}, true) then None
    else
      match (Lookup(j.fields, "balances"), Lookup(j.fields, "last_submitted_local_height"))
      case (Some(b), Some(JNum(h))) =>
        if !(0 <= h < 0x1_0000_0000_0000_0000) then None
        else
          (match DecodeBalances(b)
           case Some(bs) => Some(BalanceResponse(bs, h))
           case None => None)
      case _ => None
  }

  /** `from_json::<BalanceResponse>` on a binary value. */
  function FromJsonBalanceResponse(data: Binary): Option<BalanceResponse>
  {
    match data
    case Doc(j) => DecodeBalanceResponse(j)
    case Raw(_) => None
  }

  function EncodeRegisterQuery(q: IbcRegisterBalanceQuery): Json
  {
    JObj([("chain_id", JStr(q.chainId)), ("addr", JStr(q.addr)), ("denom", JStr(q.denom))])
  }

  function DecodeRegisterQuery(j: Json): Option<IbcRegisterBalanceQuery>
  {
    if !j.JObj? || !HasFields(j.fields, {"chain_id", "addr", "denom"}, true) then None
    else
      match (Lookup(j.fields, "chain_id"), Lookup(j.fields, "addr"), Lookup(j.fields, "denom"))
      case (Some(JStr(c)), Some(JStr(a)), Some(JStr(d))) => Some(IbcRegisterBalanceQuery(c, a, d))
      case _ => None
  }

  /** A coin survives encoding and decoding unchanged. */
  lemma CoinRoundTrip(c: Coin)
    ensures DecodeCoin(EncodeCoin(c)) == Some(c)
  {
    TwoFields("denom", JStr(c.denom), "amount", JStr(Decimal(c.amount)));
    ParseU128Decimal(c.amount);
  }

  lemma {:induction false} CoinsRoundTrip(coins: seq<Coin>)
    ensures DecodeCoins(EncodeCoins(coins)) == Some(coins)
  {
    if |coins| > 0 {
      var items := EncodeCoins(coins);
      assert items[1..] == EncodeCoins(coins[1..]);
      CoinRoundTrip(coins[0]);
      CoinsRoundTrip(coins[1..]);
      assert [coins[0]] + coins[1..] == coins;
    }
  }

  /** A balance response survives encoding and decoding unchanged, whatever its coin list. */
  lemma BalanceResponseRoundTrip(r: BalanceResponse)
    ensures DecodeBalanceResponse(EncodeBalanceResponse(r)) == Some(r)
  {
    OneField("coins", JArr(EncodeCoins(r.balances.coins)));
    CoinsRoundTrip(r.balances.coins);
    assert DecodeBalances(EncodeBalances(r.balances)) == Some(r.balances);
    TwoFields("balances", EncodeBalances(r.balances),
              "last_submitted_local_height", JNum(r.lastSubmittedLocalHeight));
  }

  /** The outbound payload survives encoding and decoding unchanged. */
  lemma RegisterQueryRoundTrip(q: IbcRegisterBalanceQuery)
    ensures DecodeRegisterQuery(EncodeRegisterQuery(q)) == Some(q)
  {
    ThreeFields("chain_id", JStr(q.chainId), "addr", JStr(q.addr), "denom", JStr(q.denom));
  }
}
