/**
 * A small model of the JSON documents that `from_json` and `to_json_binary`
 * read and write. Byte-level JSON text and base64 are not modelled: a binary
 * value is either the encoding of a JSON document or bytes that are not one,
 * and a base64 field inside a document is a leaf of its own.
 */
module Json {
  import opened Wrappers

  type byte = b: int | 0 <= b < 256

  datatype Json =
    | JNull
    | JBool(b: bool)
    | JNum(n: int)
    | JStr(s: string)
    | JBin(bin: Binary)
    | JArr(items: seq<Json>)
    | JObj(fields: seq<(string, Json)>)

  /** The contents of a `Binary`: a serialized JSON document, or bytes that do not parse as one. */
  datatype Binary = Doc(doc: Json) | Raw(bytes: seq<byte>)

  /** The set of keys of an object's fields. */
  function KeySet(fields: seq<(string, Json)>): (ks: set<string>)
    ensures forall i :: 0 <= i < |fields| ==> fields[i].0 in ks
  {
    if |fields| == 0 then {} else {fields[0].0} + KeySet(fields[1..])
  }

  /** No key appears twice (serde rejects a duplicate field). */
  predicate DistinctKeys(fields: seq<(string, Json)>)
  {
    forall i, j :: 0 <= i < j < |fields| ==> fields[i].0 != fields[j].0
  }

  /**
   * The field shape a derived `Deserialize` accepts: no duplicates, every
   * required key present, and with `deny_unknown_fields` no other key.
   */
  predicate HasFields(fields: seq<(string, Json)>, required: set<string>, denyUnknown: bool)
  {
    && DistinctKeys(fields)
    && required <= KeySet(fields)
    && (denyUnknown ==> KeySet(fields) <= required)
  }

  /** The value stored under `key`, if any. */
  function Lookup(fields: seq<(string, Json)>, key: string): (r: Option<Json>)
    ensures r.Some? <==> key in KeySet(fields)
    ensures r.Some? ==> (key, r.value) in fields
  {
    if |fields| == 0 then None
    else if fields[0].0 == key then Some(fields[0].1)
    else Lookup(fields[1..], key)
  }

  /** The fields of a one-key object are what the decoders expect. */
  lemma OneField(k: string, v: Json)
    ensures KeySet([(k, v)]) == {k} && DistinctKeys([(k, v)])
    ensures Lookup([(k, v)], k) == Some(v)
  {
    assert [(k, v)][1..] == [];
  }

  lemma TwoFields(k1: string, v1: Json, k2: string, v2: Json)
    requires k1 != k2
    ensures var fs := [(k1, v1), (k2, v2)];
      KeySet(fs) == {k1, k2} && DistinctKeys(fs) && Lookup(fs, k1) == Some(v1) && Lookup(fs, k2) == Some(v2)
  {
    var fs := [(k1, v1), (k2, v2)];
    assert fs[1..] == [(k2, v2)];
    OneField(k2, v2);
  }

  lemma ThreeFields(k1: string, v1: Json, k2: string, v2: Json, k3: string, v3: Json)
    requires k1 != k2 && k1 != k3 && k2 != k3
    ensures var fs := [(k1, v1), (k2, v2), (k3, v3)];
      && KeySet(fs) == {k1, k2, k3} && DistinctKeys(fs)
      && Lookup(fs, k1) == Some(v1) && Lookup(fs, k2) == Some(v2) && Lookup(fs, k3) == Some(v3)
  {
    var fs := [(k1, v1), (k2, v2), (k3, v3)];
    assert fs[1..] == [(k2, v2), (k3, v3)];
    TwoFields(k2, v2, k3, v3);
  }

  function DigitChar(d: nat): (c: char)
    requires d < 10
    ensures '0' <= c <= '9'
  {
    ('0' as int + d) as char
  }

  /** The canonical decimal text of `n` (Rust's `to_string` on an unsigned integer). */
  function Decimal(n: nat): (s: string)
    ensures |s| > 0
    ensures forall i :: 0 <= i < |s| ==> '0' <= s[i] <= '9'
    ensures n > 0 ==> s[0] != '0'
  {
    if n < 10 then [DigitChar(n)] else Decimal(n / 10) + [DigitChar(n % 10)]
  }

  /** The value of a non-empty string of ASCII digits; leading zeros are accepted. */
  function ParseDigits(s: string): (r: Option<nat>)
    ensures r.Some? <==> |s| > 0 && forall i :: 0 <= i < |s| ==> '0' <= s[i] <= '9'
  {
    if |s| == 0 then None
    else
      var last := s[|s| - 1];
      if !('0' <= last <= '9') then None
      else
        var d := last as int - '0' as int;
        if |s| == 1 then Some(d)
        else match ParseDigits(s[..|s| - 1])
          case None => None
          case Some(v) => Some(10 * v + d)
  }

  /**
   * Rust's `u128::from_str` as used by `Uint128`'s deserializer: an optional
   * leading `+`, then decimal digits, with a value below 2^128.
   */
  function ParseU128(s: string): (r: Option<nat>)
    ensures r.Some? ==> r.value < 0x1_0000_0000_0000_0000_0000_0000_0000_0000
  {
    var digits := if |s| > 0 && s[0] == '+' then s[1..] else s;
    match ParseDigits(digits)
    case Some(v) => if v < 0x1_0000_0000_0000_0000_0000_0000_0000_0000 then Some(v) else None
    case None => None
  }

  /** Parsing the canonical decimal text of a number gives the number back. */
  lemma {:induction false} ParseDecimal(n: nat)
    ensures ParseDigits(Decimal(n)) == Some(n)
  {
    if n >= 10 {
      var s := Decimal(n);
      assert s[..|s| - 1] == Decimal(n / 10);
      ParseDecimal(n / 10);
    }
  }

  lemma ParseU128Decimal(n: nat)
    requires n < 0x1_0000_0000_0000_0000_0000_0000_0000_0000
    ensures ParseU128(Decimal(n)) == Some(n)
  {
    ParseDecimal(n);
  }
}
