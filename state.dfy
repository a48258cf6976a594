/**
 * The contract's persistent state: a single optional slot holding the
 * active channel's record, and two maps keyed by packet sequence number,
 * one for answers and one for remote errors.
 */
module State {
  import opened Wrappers
  import opened Host

  /** Static information about the one channel this contract talks over. */
  datatype ChannelInfo = ChannelInfo(
    id: string,
    counterpartyEndpoint: IbcEndpoint,
    connectionId: string)

  /**
   * The storage: `channel_info` is a slot that holds at most one record,
   * `icq_responses` and `icq_errors` are separate maps from sequence numbers.
   * Each write touches one of the three and nothing else.
   */
  class Store {
    var channelInfo: Option<ChannelInfo>
    var icqResponses: map<u64, Coin>
    var icqErrors: map<u64, string>

    constructor ()
      ensures channelInfo == None && icqResponses == map[] && icqErrors == map[]
    {
      channelInfo := None;
      icqResponses := map[];
      icqErrors := map[];
    }

    /** Fills the slot, replacing whatever it held. */
    method SaveChannelInfo(info: ChannelInfo)
      modifies this`channelInfo
      ensures channelInfo == Some(info)
      ensures icqResponses == old(icqResponses) && icqErrors == old(icqErrors)
    {
      channelInfo := Some(info);
    }

    /** Empties the slot, whether or not it held a record. */
    method RemoveChannelInfo()
      modifies this`channelInfo
      ensures channelInfo == None
      ensures icqResponses == old(icqResponses) && icqErrors == old(icqErrors)
    {
      channelInfo := None;
    }

    /** Stores an answer; an answer already stored under the same sequence is replaced. */
    method SaveResponse(sequence: u64, coin: Coin)
      modifies this`icqResponses
      ensures icqResponses == old(icqResponses)[sequence := coin]
      ensures channelInfo == old(channelInfo) && icqErrors == old(icqErrors)
    {
      icqResponses := icqResponses[sequence := coin];
    }

    /** Stores a remote error; an error already stored under the same sequence is replaced. */
    method SaveError(sequence: u64, error: string)
      modifies this`icqErrors
      ensures icqErrors == old(icqErrors)[sequence := error]
      ensures channelInfo == old(channelInfo) && icqResponses == old(icqResponses)
    {
      icqErrors := icqErrors[sequence := error];
    }
  }

  predicate StrictlyAscending<V>(entries: seq<(u64, V)>)
  {
    forall i, j :: 0 <= i < j < |entries| ==> entries[i].0 < entries[j].0
  }

  /** `entries` lists every entry of `m` exactly once, in ascending key order. */
  predicate ListsExactly<V(==)>(entries: seq<(u64, V)>, m: map<u64, V>)
  {
    && StrictlyAscending(entries)
    && (forall i :: 0 <= i < |entries| ==> entries[i].0 in m && m[entries[i].0] == entries[i].1)
    && (forall k :: k in m ==> (k, m[k]) in entries)
  }

  /** Every non-empty set of keys has a least element. */
  lemma {:induction false} LeastKey(keys: set<u64>) returns (k: u64)
    requires keys != {}
    ensures k in keys && forall j :: j in keys ==> k <= j
  {
    var x :| x in keys;
    if keys == {x} {
      k := x;
    } else {
      var rest := keys - {x};
      var r := LeastKey(rest);
      k := if x < r then x else r;
      forall j | j in keys
        ensures k <= j
      {
        if j != x { assert j in rest; }
      }
    }
  }

  lemma MinKeyExists(keys: set<u64>)
    requires keys != {}
    ensures exists k :: k in keys && forall j :: j in keys ==> k <= j
  {
    var k := LeastKey(keys);
  }

  /** Putting the smallest key in front of a listing of the remaining entries lists the whole map. */
  lemma ListsWithMinFirst<V>(m: map<u64, V>, k: u64, tail: seq<(u64, V)>)
    requires k in m && forall j :: j in m ==> k <= j
    requires ListsExactly(tail, m - {k})
    ensures ListsExactly([(k, m[k])] + tail, m)
  {
    var entries := [(k, m[k])] + tail;
    forall i | 0 < i < |entries|
      ensures entries[i].0 in m - {k} && m[entries[i].0] == entries[i].1
    {
      assert entries[i] == tail[i - 1];
    }
    forall k' | k' in m
      ensures (k', m[k']) in entries
    {
      if k' != k {
        assert k' in m - {k};
      }
    }
  }

  function MinKey(keys: set<u64>): (k: u64)
    requires keys != {}
    ensures k in keys && forall j :: j in keys ==> k <= j
  {
    MinKeyExists(keys);
    var k :| k in keys && forall j :: j in keys ==> k <= j;
    k
  }

  /** A map's range scan in ascending key order. */
  function AscendingEntries<V(==)>(m: map<u64, V>): (entries: seq<(u64, V)>)
    ensures ListsExactly(entries, m)
    ensures |entries| == |m|
    decreases |m|
  {
    if |m| == 0 then []
    else
      var k := MinKey(m.Keys);
      var rest := m - {k};
      assert |rest| == |m| - 1 by { assert rest.Keys == m.Keys - {k}; }
      var tail := AscendingEntries(rest);
      ListsWithMinFirst(m, k, tail);
      [(k, m[k])] + tail
  }
}
