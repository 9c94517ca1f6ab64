/** The three packet structs as objects: `load` overwrites their fields in
    place, and the teapack.go revision of `marshal` builds its output by
    appending one segment after another. Each method is proved to agree with
    the value-level definition in module Packets. */
module Variants {
  import opened Binary
  import opened Packets

  /** PacketRequest. */
  class RequestPacket<V> {
    var methodCode: byte
    var id: uint16
    var context: Slot<V>
    var data: Slot<V>

    /** A struct literal; `&PacketRequest{}` is the one with zero fields and nil payloads. */
    constructor (methodCode: byte, id: uint16, context: Slot<V>, data: Slot<V>)
      ensures Value() == Request(methodCode, id, context, data)
    {
      this.methodCode, this.id, this.context, this.data := methodCode, id, context, data;
    }

    function Value(): Packet<V>
      reads this
    {
      Request(methodCode, id, context, data)
    }

    /** marshal (teapack.go): encode both payloads, then append the tag, the
        id, the context length, the method, the context and the data. On a
        codec error: an empty slice and that error. */
    method Marshal(enc: Encoder<V>) returns (b: Bytes, err: Option<Error>)
      ensures MarshalRequest(methodCode, id, context, data, enc).Ok? ==>
                err == None && b == MarshalRequest(methodCode, id, context, data, enc).value
      ensures MarshalRequest(methodCode, id, context, data, enc).Err? ==>
                b == [] && err == Some(MarshalRequest(methodCode, id, context, data, enc).error)
    {
      var c := enc(context);
      if c.Err? {
        return [], Some(c.error);
      }
      var d := enc(data);
      if d.Err? {
        return [], Some(d.error);
      }
      ghost var segs: seq<Bytes> := [];
      b := [];
      var typ: Bytes := [TypeRequest];
      FlattenAppend(segs, typ);
      b, segs := b + typ, segs + [typ];
      var idBytes := LE16(id);
      FlattenAppend(segs, idBytes);
      b, segs := b + idBytes, segs + [idBytes];
      var ctxLen := LE16(Wrap16(|c.value|));
      FlattenAppend(segs, ctxLen);
      b, segs := b + ctxLen, segs + [ctxLen];
      var m: Bytes := [methodCode];
      FlattenAppend(segs, m);
      b, segs := b + m, segs + [m];
      FlattenAppend(segs, c.value);
      b, segs := b + c.value, segs + [c.value];
      FlattenAppend(segs, d.value);
      b, segs := b + d.value, segs + [d.value];
      assert segs == IdSegments(TypeRequest, id, methodCode, c.value, d.value);
      err := None;
    }

    /** load: slice the id, context length, method, context and data out of
        `b` and store them; OutOfRange, with nothing changed, where Go panics. */
    method Load(b: Bytes) returns (err: Option<Error>)
      modifies this
      ensures LoadRequest<V>(b).Ok? ==> err == None && Value() == LoadRequest<V>(b).value
      ensures LoadRequest<V>(b).Err? ==> err == Some(OutOfRange) && unchanged(this)
    {
      if |b| < RequestHeaderLength as int {
        return Some(OutOfRange);
      }
      var end := Add16(RequestHeaderLength, Uint16LE(b[3..5]));
      if end < RequestHeaderLength || end > |b| {
        return Some(OutOfRange);
      }
      id := Uint16LE(b[1..3]);
      methodCode := b[5];
      context := Raw(b[RequestHeaderLength..end]);
      data := Raw(b[end..]);
      err := None;
    }
  }

  /** PacketResponse. */
  class ResponsePacket<V> {
    var id: uint16
    var status: StatusCode
    var context: Slot<V>
    var data: Slot<V>

    /** A struct literal; `&PacketResponse{}` is the one with zero fields and nil payloads. */
    constructor (id: uint16, status: StatusCode, context: Slot<V>, data: Slot<V>)
      ensures Value() == Response(id, status, context, data)
    {
      this.id, this.status, this.context, this.data := id, status, context, data;
    }

    function Value(): Packet<V>
      reads this
    {
      Response(id, status, context, data)
    }

    /** marshal (teapack.go): as for a request, with tag 2 and the status
        byte in the method's place. */
    method Marshal(enc: Encoder<V>) returns (b: Bytes, err: Option<Error>)
      ensures MarshalResponse(id, status, context, data, enc).Ok? ==>
                err == None && b == MarshalResponse(id, status, context, data, enc).value
      ensures MarshalResponse(id, status, context, data, enc).Err? ==>
                b == [] && err == Some(MarshalResponse(id, status, context, data, enc).error)
    {
      var c := enc(context);
      if c.Err? {
        return [], Some(c.error);
      }
      var d := enc(data);
      if d.Err? {
        return [], Some(d.error);
      }
      ghost var segs: seq<Bytes> := [];
      b := [];
      var typ: Bytes := [TypeResponse];
      FlattenAppend(segs, typ);
      b, segs := b + typ, segs + [typ];
      var idBytes := LE16(id);
      FlattenAppend(segs, idBytes);
      b, segs := b + idBytes, segs + [idBytes];
      var ctxLen := LE16(Wrap16(|c.value|));
      FlattenAppend(segs, ctxLen);
      b, segs := b + ctxLen, segs + [ctxLen];
      var st: Bytes := [status];
      FlattenAppend(segs, st);
      b, segs := b + st, segs + [st];
      FlattenAppend(segs, c.value);
      b, segs := b + c.value, segs + [c.value];
      FlattenAppend(segs, d.value);
      b, segs := b + d.value, segs + [d.value];
      assert segs == IdSegments(TypeResponse, id, status, c.value, d.value);
      err := None;
    }

    /** load: as for a request, with the status read from byte 5. */
    method Load(b: Bytes) returns (err: Option<Error>)
      modifies this
      ensures LoadResponse<V>(b).Ok? ==> err == None && Value() == LoadResponse<V>(b).value
      ensures LoadResponse<V>(b).Err? ==> err == Some(OutOfRange) && unchanged(this)
    {
      if |b| < RequestHeaderLength as int {
        return Some(OutOfRange);
      }
      var end := Add16(RequestHeaderLength, Uint16LE(b[3..5]));
      if end < RequestHeaderLength || end > |b| {
        return Some(OutOfRange);
      }
      id := Uint16LE(b[1..3]);
      status := b[5];
      context := Raw(b[RequestHeaderLength..end]);
      data := Raw(b[end..]);
      err := None;
    }
  }

  /** PacketEvent. */
  class EventPacket<V> {
    var methodCode: byte
    var context: Slot<V>
    var data: Slot<V>

    /** A struct literal; `&PacketEvent{}` is the one with a zero method and nil payloads. */
    constructor (methodCode: byte, context: Slot<V>, data: Slot<V>)
      ensures Value() == Event(methodCode, context, data)
    {
      this.methodCode, this.context, this.data := methodCode, context, data;
    }

    function Value(): Packet<V>
      reads this
    {
      Event(methodCode, context, data)
    }

    /** marshal (teapack.go): append the tag, the method, the context
        length, the context and the data. */
    method Marshal(enc: Encoder<V>) returns (b: Bytes, err: Option<Error>)
      ensures MarshalEvent(methodCode, context, data, enc).Ok? ==>
                err == None && b == MarshalEvent(methodCode, context, data, enc).value
      ensures MarshalEvent(methodCode, context, data, enc).Err? ==>
                b == [] && err == Some(MarshalEvent(methodCode, context, data, enc).error)
    {
      var c := enc(context);
      if c.Err? {
        return [], Some(c.error);
      }
      var d := enc(data);
      if d.Err? {
        return [], Some(d.error);
      }
      ghost var segs: seq<Bytes> := [];
      b := [];
      var typ: Bytes := [TypeEvent];
      FlattenAppend(segs, typ);
      b, segs := b + typ, segs + [typ];
      var m: Bytes := [methodCode];
      FlattenAppend(segs, m);
      b, segs := b + m, segs + [m];
      var ctxLen := LE16(Wrap16(|c.value|));
      FlattenAppend(segs, ctxLen);
      b, segs := b + ctxLen, segs + [ctxLen];
      FlattenAppend(segs, c.value);
      b, segs := b + c.value, segs + [c.value];
      FlattenAppend(segs, d.value);
      b, segs := b + d.value, segs + [d.value];
      assert segs == EventSegments(methodCode, c.value, d.value);
      err := None;
    }

    /** load: method from byte 1, context length from bytes 2-3, then the
        raw context and data; OutOfRange, with nothing changed, where Go panics. */
    method Load(b: Bytes) returns (err: Option<Error>)
      modifies this
      ensures LoadEvent<V>(b).Ok? ==> err == None && Value() == LoadEvent<V>(b).value
      ensures LoadEvent<V>(b).Err? ==> err == Some(OutOfRange) && unchanged(this)
    {
      if |b| < EventHeaderLength as int {
        return Some(OutOfRange);
      }
      var end := Add16(EventHeaderLength, Uint16LE(b[2..4]));
      if end < EventHeaderLength || end > |b| {
        return Some(OutOfRange);
      }
      methodCode := b[1];
      context := Raw(b[EventHeaderLength..end]);
      data := Raw(b[end..]);
      err := None;
    }
  }
}
