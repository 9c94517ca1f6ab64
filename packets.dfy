/** The three packet shapes, their wire layout, and the per-variant encode,
    load and deferred-decode operations (packet.go and teapack.go declare the
    same layout; both are modelled here once). */
module Packets {
  import opened Binary

  /** Tag byte at offset 0 of every packet. */
  type PacketType = byte
  const TypeUnknown: PacketType := 0
  const TypeRequest: PacketType := 1
  const TypeResponse: PacketType := 2
  const TypeEvent: PacketType := 3

  /** Outcome carried by a response; the values are wire constants. */
  type StatusCode = byte
  const StatusOK: StatusCode := 1
  const StatusProcessing: StatusCode := 2
  const StatusNoChanges: StatusCode := 3
  const StatusError: StatusCode := 50
  const StatusFull: StatusCode := 51
  const StatusExists: StatusCode := 52
  const StatusInvalid: StatusCode := 53
  const StatusNotFound: StatusCode := 54
  const StatusNotAuthorized: StatusCode := 55
  const StatusNoPermission: StatusCode := 56
  const StatusUnimplemented: StatusCode := 57
  const StatusTooManyRequests: StatusCode := 58
  const StatusResourceExhausted: StatusCode := 59
  const StatusBusy: StatusCode := 60
  const StatusDead: StatusCode := 61

  /** Length of the fixed fields before the context block: tag, id, length
      prefix and method or status for a request or response; tag, method
      and length prefix for an event. */
  const RequestHeaderLength: uint16 := 6
  const EventHeaderLength: uint16 := 4

  datatype Option<T> = None | Some(value: T)

  /** ErrUnknownType and ErrNotLoaded of the source; OutOfRange stands for the
      run-time panic of an out-of-bounds slice in `load`; Codec is an error
      reported by the MessagePack codec, passed through unchanged. */
  datatype Error = UnknownType | NotLoaded | OutOfRange | Codec(reason: string)

  datatype Result<T> = Ok(value: T) | Err(error: Error)

  /** A payload field (`Context` or `Data`, of Go type interface{}) by its
      dynamic type: nil, as in a zero-value packet; any value that is not a
      byte slice; or a byte slice, whether `load` sliced it out of a buffer or
      the caller set it. Only the last is decoded by `unmarshal`. */
  datatype Slot<V> = Nil | Typed(value: V) | Raw(bytes: Bytes)

  datatype Packet<V> =
    | Request(methodCode: byte, id: uint16, context: Slot<V>, data: Slot<V>)
    | Response(id: uint16, status: StatusCode, context: Slot<V>, data: Slot<V>)
    | Event(methodCode: byte, context: Slot<V>, data: Slot<V>)

  /** The MessagePack encoder applied to a payload field (msgpack.Marshal).
      Its error is any Error value, normally Codec; marshal passes whatever it
      returns through unchanged. */
  type Encoder<!V> = Slot<V> -> Result<Bytes>

  /** Both payloads through the codec, context first; the first failure wins. */
  function EncodePayloads<V>(context: Slot<V>, data: Slot<V>, enc: Encoder<V>): (r: Result<(Bytes, Bytes)>)
    ensures r.Ok? <==> enc(context).Ok? && enc(data).Ok?
    ensures r.Ok? ==> r.value == (enc(context).value, enc(data).value)
    ensures r.Err? ==> r.error == if enc(context).Err? then enc(context).error else enc(data).error
  {
    match enc(context)
    case Err(e) => Err(e)
    case Ok(c) =>
      match enc(data)
      case Err(e) => Err(e)
      case Ok(d) => Ok((c, d))
  }

  // ---------------------------------------------------------------------------
  // Wire layout

  /** `b` is a request (tag 1) or response (tag 2) frame: tag, id, 16-bit
      context length, method or status byte, context bytes, data bytes. */
  predicate IdFrame(b: Bytes, tag: PacketType, id: uint16, third: byte, c: Bytes, d: Bytes)
  {
    && |b| == RequestHeaderLength as int + |c| + |d|
    && b[0] == tag
    && b[1..3] == LE16(id)
    && b[3..5] == LE16(Wrap16(|c|))
    && b[5] == third
    && b[6..6 + |c|] == c
    && b[6 + |c|..] == d
  }

  /** `b` is an event frame: tag 3, method byte, 16-bit context length,
      context bytes, data bytes. */
  predicate EventFrame(b: Bytes, methodCode: byte, c: Bytes, d: Bytes)
  {
    && |b| == EventHeaderLength as int + |c| + |d|
    && b[0] == TypeEvent
    && b[1] == methodCode
    && b[2..4] == LE16(Wrap16(|c|))
    && b[4..4 + |c|] == c
    && b[4 + |c|..] == d
  }

  /** Flatten of a literal segment list, one segment at a time. */
  lemma Flatten5(s0: Bytes, s1: Bytes, s2: Bytes, s3: Bytes, s4: Bytes)
    ensures Flatten([s0, s1, s2, s3, s4]) == s0 + s1 + s2 + s3 + s4
  {
    assert Flatten([s4]) == s4 by { assert [s4][1..] == []; }
    assert Flatten([s3, s4]) == s3 + s4 by { assert [s3, s4][1..] == [s4]; }
    assert Flatten([s2, s3, s4]) == s2 + s3 + s4 by { assert [s2, s3, s4][1..] == [s3, s4]; }
    assert Flatten([s1, s2, s3, s4]) == s1 + s2 + s3 + s4 by { assert [s1, s2, s3, s4][1..] == [s2, s3, s4]; }
    assert [s0, s1, s2, s3, s4][1..] == [s1, s2, s3, s4];
  }

  lemma Flatten6(s0: Bytes, s1: Bytes, s2: Bytes, s3: Bytes, s4: Bytes, s5: Bytes)
    ensures Flatten([s0, s1, s2, s3, s4, s5]) == s0 + s1 + s2 + s3 + s4 + s5
  {
    Flatten5(s1, s2, s3, s4, s5);
    assert [s0, s1, s2, s3, s4, s5][1..] == [s1, s2, s3, s4, s5];
  }

  // ---------------------------------------------------------------------------
  // Encoding (marshal)

  /** The segment list a request or response is assembled from. */
  function IdSegments(tag: PacketType, id: uint16, third: byte, c: Bytes, d: Bytes): seq<Bytes>
  {
    [[tag], LE16(id), LE16(Wrap16(|c|)), [third], c, d]
  }

  function EventSegments(methodCode: byte, c: Bytes, d: Bytes): seq<Bytes>
  {
    [[TypeEvent], [methodCode], LE16(Wrap16(|c|)), c, d]
  }

  lemma IdSegmentsLayout(tag: PacketType, id: uint16, third: byte, c: Bytes, d: Bytes)
    ensures IdFrame(Flatten(IdSegments(tag, id, third, c, d)), tag, id, third, c, d)
  {
    Flatten6([tag], LE16(id), LE16(Wrap16(|c|)), [third], c, d);
  }

  lemma EventSegmentsLayout(methodCode: byte, c: Bytes, d: Bytes)
    ensures EventFrame(Flatten(EventSegments(methodCode, c, d)), methodCode, c, d)
  {
    Flatten5([TypeEvent], [methodCode], LE16(Wrap16(|c|)), c, d);
  }

  /** PacketRequest.marshal: fails exactly when the codec fails on a payload
      (with the codec's error, the context's first); otherwise a request frame
      around the encoded context and data. */
  function MarshalRequest<V>(methodCode: byte, id: uint16, context: Slot<V>, data: Slot<V>, enc: Encoder<V>): (r: Result<Bytes>)
    ensures r.Err? <==> enc(context).Err? || enc(data).Err?
    ensures r.Err? ==> r.error == if enc(context).Err? then enc(context).error else enc(data).error
    ensures r.Ok? ==> IdFrame(r.value, TypeRequest, id, methodCode, enc(context).value, enc(data).value)
  {
    match EncodePayloads(context, data, enc)
    case Err(e) => Err(e)
    case Ok((c, d)) =>
      IdSegmentsLayout(TypeRequest, id, methodCode, c, d);
      Ok(Flatten(IdSegments(TypeRequest, id, methodCode, c, d)))
  }

  /** PacketResponse.marshal: the request layout with tag 2 and the status
      byte where a request has its method. */
  function MarshalResponse<V>(id: uint16, status: StatusCode, context: Slot<V>, data: Slot<V>, enc: Encoder<V>): (r: Result<Bytes>)
    ensures r.Err? <==> enc(context).Err? || enc(data).Err?
    ensures r.Err? ==> r.error == if enc(context).Err? then enc(context).error else enc(data).error
    ensures r.Ok? ==> IdFrame(r.value, TypeResponse, id, status, enc(context).value, enc(data).value)
  {
    match EncodePayloads(context, data, enc)
    case Err(e) => Err(e)
    case Ok((c, d)) =>
      IdSegmentsLayout(TypeResponse, id, status, c, d);
      Ok(Flatten(IdSegments(TypeResponse, id, status, c, d)))
  }

  /** PacketEvent.marshal: tag 3, then the method before the length prefix. */
  function MarshalEvent<V>(methodCode: byte, context: Slot<V>, data: Slot<V>, enc: Encoder<V>): (r: Result<Bytes>)
    ensures r.Err? <==> enc(context).Err? || enc(data).Err?
    ensures r.Err? ==> r.error == if enc(context).Err? then enc(context).error else enc(data).error
    ensures r.Ok? ==> EventFrame(r.value, methodCode, enc(context).value, enc(data).value)
  {
    match EncodePayloads(context, data, enc)
    case Err(e) => Err(e)
    case Ok((c, d)) =>
      EventSegmentsLayout(methodCode, c, d);
      Ok(Flatten(EventSegments(methodCode, c, d)))
  }

  // ---------------------------------------------------------------------------
  // Loading (load)

  /** The 16-bit context length stored at offset `at`. */
  function ContextLength(b: Bytes, at: nat): uint16
    requires at + 2 <= |b|
  {
    Uint16LE(b[at..at + 2])
  }

  /** Without wrap-around, the context declared at `at` starts at `start` and
      ends inside the buffer. */
  predicate ContextFits(b: Bytes, at: nat, start: nat)
  {
    at + 2 <= start <= |b| && start + ContextLength(b, at) < 0x1_0000 && start + ContextLength(b, at) <= |b|
  }

  /** The context and data slices of `load`: `b[start : start+ctxLen]` and
      `b[start+ctxLen:]`, the end offset computed in uint16 as Go does; None
      where Go panics (the offset wrapped below `start`, or passed the end). */
  function SliceBody(b: Bytes, at: nat, start: uint16): (r: Option<(Bytes, Bytes)>)
    requires at + 2 <= start <= |b|
    ensures r.Some? <==> ContextFits(b, at, start)
    ensures r.Some? ==> |r.value.0| == ContextLength(b, at) && b[start..] == r.value.0 + r.value.1
  {
    var end := Add16(start, ContextLength(b, at));
    if end < start || end > |b| then None else Some((b[start..end], b[end..]))
  }

  /** PacketRequest.load: id from bytes 1-2, context length from bytes 3-4,
      method from byte 5, then the raw context and data. OutOfRange exactly
      where Go panics. */
  function LoadRequest<V>(b: Bytes): (r: Result<Packet<V>>)
    ensures r.Ok? <==> ContextFits(b, 3, 6)
    ensures r.Err? ==> r.error == OutOfRange
    ensures r.Ok? ==> r.value.Request? && r.value.id == Uint16LE(b[1..3]) && r.value.methodCode == b[5]
    ensures r.Ok? ==> r.value.context.Raw? && r.value.data.Raw?
    ensures r.Ok? ==> |r.value.context.bytes| == ContextLength(b, 3)
                      && b[6..] == r.value.context.bytes + r.value.data.bytes
  {
    if |b| < RequestHeaderLength then Err(OutOfRange)
    else
      match SliceBody(b, 3, RequestHeaderLength)
      case None => Err(OutOfRange)
      case Some((c, d)) => Ok(Request(b[5], Uint16LE(b[1..3]), Raw(c), Raw(d)))
  }

  /** PacketResponse.load: as a request, with the status in byte 5. */
  function LoadResponse<V>(b: Bytes): (r: Result<Packet<V>>)
    ensures r.Ok? <==> ContextFits(b, 3, 6)
    ensures r.Err? ==> r.error == OutOfRange
    ensures r.Ok? ==> r.value.Response? && r.value.id == Uint16LE(b[1..3]) && r.value.status == b[5]
    ensures r.Ok? ==> r.value.context.Raw? && r.value.data.Raw?
    ensures r.Ok? ==> |r.value.context.bytes| == ContextLength(b, 3)
                      && b[6..] == r.value.context.bytes + r.value.data.bytes
  {
    if |b| < RequestHeaderLength then Err(OutOfRange)
    else
      match SliceBody(b, 3, RequestHeaderLength)
      case None => Err(OutOfRange)
      case Some((c, d)) => Ok(Response(Uint16LE(b[1..3]), b[5], Raw(c), Raw(d)))
  }

  /** PacketEvent.load: method from byte 1, context length from bytes 2-3,
      then the raw context and data; no id. */
  function LoadEvent<V>(b: Bytes): (r: Result<Packet<V>>)
    ensures r.Ok? <==> ContextFits(b, 2, 4)
    ensures r.Err? ==> r.error == OutOfRange
    ensures r.Ok? ==> r.value.Event? && r.value.methodCode == b[1]
    ensures r.Ok? ==> r.value.context.Raw? && r.value.data.Raw?
    ensures r.Ok? ==> |r.value.context.bytes| == ContextLength(b, 2)
                      && b[4..] == r.value.context.bytes + r.value.data.bytes
  {
    if |b| < EventHeaderLength then Err(OutOfRange)
    else
      match SliceBody(b, 2, EventHeaderLength)
      case None => Err(OutOfRange)
      case Some((c, d)) => Ok(Event(b[1], Raw(c), Raw(d)))
  }

  // ---------------------------------------------------------------------------
  // Deferred decoding (unmarshal, unmarshalContext)

  /** unmarshal: decode the data if it is a byte slice (as after `load`);
      any other data is refused as not loaded. */
  function Unmarshal<V, D>(p: Packet<V>, dec: Bytes -> Result<D>): (r: Result<D>)
    ensures !p.data.Raw? ==> r == Err(NotLoaded)
    ensures p.data.Raw? ==> r == dec(p.data.bytes)
  {
    match p.data
    case Raw(bytes) => dec(bytes)
    case _ => Err(NotLoaded)
  }

  /** unmarshalContext: the same type test on the context slot. */
  function UnmarshalContext<V, D>(p: Packet<V>, dec: Bytes -> Result<D>): (r: Result<D>)
    ensures !p.context.Raw? ==> r == Err(NotLoaded)
    ensures p.context.Raw? ==> r == dec(p.context.bytes)
  {
    match p.context
    case Raw(bytes) => dec(bytes)
    case _ => Err(NotLoaded)
  }
}
