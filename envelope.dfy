/**
 * The wire envelope shared by both directions of the bridge (`EventBusMessage`).
 * Every field may be absent; the serializer leaves absent fields out of the JSON object.
 */
module Envelopes {

  import opened Wrappers

  /**
   * A message payload. The bridge passes bodies through uninterpreted, so a body is an
   * opaque token, except the one body the bridge builds itself: the object
   * `{"address": address}` that acknowledges a registration.
   */
  datatype Body = Opaque(id: nat) | AddressObject(address: string)

  /** The six fields of the envelope; `kind` is the JSON property `type`. */
  datatype Envelope = Envelope(
    kind: Option<string>,
    data: Option<string>,
    address: Option<string>,
    replyAddress: Option<string>,
    trackId: Option<string>,
    body: Option<Body>)

  /** No field is set. */
  predicate IsBlank(e: Envelope)
  {
    e.kind.None? && e.data.None? && e.address.None? && e.replyAddress.None?
    && e.trackId.None? && e.body.None?
  }

  /** The envelope built by the no-argument constructor. */
  function Blank(): (e: Envelope)
    ensures IsBlank(e)
    ensures forall f: Envelope :: IsBlank(f) ==> f == e
  {
    Envelope(None, None, None, None, None, None)
  }

  /** `t` is the type and no other field is set. */
  predicate OnlyKind(e: Envelope, t: string)
  {
    e.kind == Some(t) && IsBlank(e.(kind := None))
  }

  /** The constant `PONG`: a blank envelope whose type is then set to "pong". */
  function Pong(): (e: Envelope)
    ensures OnlyKind(e, "pong")
  {
    Blank().(kind := Some("pong"))
  }

  /** The constant `DONE`: a blank envelope whose type is then set to "done". */
  function Done(): (e: Envelope)
    ensures OnlyKind(e, "done")
  {
    Blank().(kind := Some("done"))
  }
}
