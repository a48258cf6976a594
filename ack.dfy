/**
 * The acknowledgement envelope: exactly one of a success payload or an
 * error message, carried as a one-key JSON object (`{"result": <base64>}` or
 * `{"error": <string>}`), the convention of section "Acknowledgement
 * envelope" of ICS-004. The module that defines it is not part of this
 * model; its shape is taken from the places the contract uses it.
 */
module Ack {
  import opened Wrappers
  import opened Json

  datatype Ack = Result(payload: Binary) | Error(message: string)

  function EncodeAck(a: Ack): Json
  {
    match a
    case Result(p) => JObj([("result", JBin(p))])
    case Error(e) => JObj([("error", JStr(e))])
  }

  /** Accepts exactly the two envelope shapes and nothing else. */
  function DecodeAck(j: Json): (r: Option<Ack>)
    ensures r.Some? ==> EncodeAck(r.value) == j
    ensures r.Some? ==> j.JObj? && |j.fields| == 1
  {
    if j.JObj? && |j.fields| == 1 then
      var (key, value) := j.fields[0];
      if key == "result" && value.JBin? then Some(Result(value.bin))
      else if key == "error" && value.JStr? then Some(Error(value.s))
      else None
    else None
  }

  /** `from_json::<Ack>` on a binary value. */
  function FromJsonAck(data: Binary): Option<Ack>
  {
    match data
    case Doc(j) => DecodeAck(j)
    case Raw(_) => None
  }

  /** Every envelope decodes back to itself. */
  lemma AckRoundTrip(a: Ack)
    ensures DecodeAck(EncodeAck(a)) == Some(a)
  {
  }

  /**
   * The payload of the generic success acknowledgement. Only its envelope
   * shape is relied on; the value itself is a modelling choice.
   */
  const SuccessPayload: Binary := Doc(JNum(1))

  /** The generic success acknowledgement, serialized. */
  function MakeAckSuccess(): (ack: Binary)
    ensures FromJsonAck(ack) == Some(Result(SuccessPayload))
  {
    Doc(EncodeAck(Result(SuccessPayload)))
  }
}
