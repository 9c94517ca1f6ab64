/** The package-level operations: the tag sniffer, the dispatcher that loads
    or marshals any of the three shapes, and the accessors that read a field
    from whichever shape carries it. */
module Teapack {
  import opened Binary
  import opened Packets

  /** The tag byte a packet is written with. */
  function TagOf<V>(p: Packet<V>): PacketType
  {
    match p
    case Request(_, _, _, _) => TypeRequest
    case Response(_, _, _, _) => TypeResponse
    case Event(_, _, _) => TypeEvent
  }

  /** Type: which shape a buffer holds, from its first byte alone. */
  function Type(data: Bytes): (t: PacketType)
    ensures t == TypeUnknown <==> |data| == 0 || !(TypeRequest <= data[0] <= TypeEvent)
    ensures t != TypeUnknown ==> t == data[0]
  {
    if |data| <= 0 then TypeUnknown
    else if data[0] == TypeRequest then TypeRequest
    else if data[0] == TypeResponse then TypeResponse
    else if data[0] == TypeEvent then TypeEvent
    else TypeUnknown
  }

  /** Type reads nothing past byte 0: buffers that agree on it agree on the tag. */
  lemma TypeReadsOnlyTag(a: Bytes, b: Bytes)
    requires |a| > 0 && |b| > 0 && a[0] == b[0]
    ensures Type(a) == Type(b) && Type(a) == Type(a[..1])
  {
  }

  /** Load: sniff the tag, load that shape, or fail with UnknownType before
      touching anything else. */
  function Load<V>(data: Bytes): (r: Result<Packet<V>>)
    ensures r == Err(UnknownType) <==> Type(data) == TypeUnknown
    ensures r.Err? && Type(data) != TypeUnknown ==> r.error == OutOfRange
    ensures r.Ok? <==> || (Type(data) == TypeEvent && ContextFits(data, 2, 4))
                       || (Type(data) in {TypeRequest, TypeResponse} && ContextFits(data, 3, 6))
    ensures r.Ok? ==> TagOf(r.value) == Type(data) == data[0]
    ensures r.Ok? ==> r.value.context.Raw? && r.value.data.Raw?
  {
    var t := Type(data);
    if t == TypeRequest then LoadRequest(data)
    else if t == TypeResponse then LoadResponse(data)
    else if t == TypeEvent then LoadEvent(data)
    else Err(UnknownType)
  }

  /** Marshal: the variant's own encoder. It fails only through the codec,
      and what it writes is sniffed as the variant's own tag. */
  function Marshal<V>(p: Packet<V>, enc: Encoder<V>): (r: Result<Bytes>)
    ensures r.Err? <==> enc(p.context).Err? || enc(p.data).Err?
    ensures r.Ok? ==> Type(r.value) == TagOf(p)
  {
    match p
    case Request(m, id, c, d) => MarshalRequest(m, id, c, d, enc)
    case Response(id, s, c, d) => MarshalResponse(id, s, c, d, enc)
    case Event(m, c, d) => MarshalEvent(m, c, d, enc)
  }

  /** ID: the job id of a request or response; 0 for an event. */
  function ID<V>(p: Packet<V>): (id: uint16)
    ensures p.Event? ==> id == 0
    ensures !p.Event? ==> id == p.id
  {
    if p.Event? then 0 else p.id
  }

  /** Method: the method of a request or event; 0 for a response. */
  function Method<V>(p: Packet<V>): (m: byte)
    ensures p.Response? ==> m == 0
    ensures !p.Response? ==> m == p.methodCode
  {
    if p.Response? then 0 else p.methodCode
  }

  /** Status: the status of a response; StatusOK for a request or event. */
  function Status<V>(p: Packet<V>): (s: StatusCode)
    ensures !p.Response? ==> s == StatusOK
    ensures p.Response? ==> s == p.status
  {
    if p.Response? then p.status else StatusOK
  }
}
