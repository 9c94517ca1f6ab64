/** What Load does with the bytes Marshal writes: the round trip, the exact
    bound on the context length under which it holds, and what happens past
    that bound (the end offset wraps in uint16, or the length prefix is
    truncated to 16 bits). */
module RoundTrip {
  import opened Binary
  import opened Packets
  import opened Teapack

  /** The longest context a shape survives Marshal then Load with: `load`
      adds its fixed-field length to the context length in uint16. */
  function MaxContextLength<V>(p: Packet<V>): nat
  {
    if p.Event? then 0xFFFF - EventHeaderLength else 0xFFFF - RequestHeaderLength
  }

  /** `p` as Load gives it back: the same shape and scalar fields, with the
      payloads held as the codec's bytes. */
  function Loaded<V>(p: Packet<V>, c: Bytes, d: Bytes): Packet<V>
  {
    p.(context := Raw(c), data := Raw(d))
  }

  /** Offset of the context block in the frame of `p`. */
  function ContextStart<V>(p: Packet<V>): nat
  {
    if p.Event? then EventHeaderLength as nat else RequestHeaderLength as nat
  }

  /** Offset of the context length prefix in the frame of `p`. */
  function LengthAt<V>(p: Packet<V>): nat
  {
    if p.Event? then 2 else 3
  }

  /** What Load sees in a marshalled frame: the right tag, the context length
      truncated to 16 bits, and context then data after the fixed fields. */
  lemma MarshalledFrame<V>(p: Packet<V>, enc: Encoder<V>)
    requires Marshal(p, enc).Ok?
    ensures var b, c, d := Marshal(p, enc).value, enc(p.context).value, enc(p.data).value;
            && |b| == ContextStart(p) + |c| + |d|
            && Type(b) == TagOf(p)
            && ContextLength(b, LengthAt(p)) == Wrap16(|c|)
            && b[ContextStart(p)..] == c + d
  {
  }

  /** Load(Marshal(p)) gives back p's shape and scalar fields with the
      codec's bytes as payloads, for every context up to the bound. */
  lemma LoadMarshal<V>(p: Packet<V>, enc: Encoder<V>)
    requires Marshal(p, enc).Ok?
    requires |enc(p.context).value| <= MaxContextLength(p)
    ensures Load<V>(Marshal(p, enc).value) == Ok(Loaded(p, enc(p.context).value, enc(p.data).value))
  {
  }

  /** A context longer than the bound but still below 65536 bytes gets an
      exact length prefix, yet `load` computes the end offset in uint16, it
      wraps below the context start, and the slice panics. */
  lemma OffsetWrapPanics<V>(p: Packet<V>, enc: Encoder<V>)
    requires Marshal(p, enc).Ok?
    requires MaxContextLength(p) < |enc(p.context).value| < 0x1_0000
    ensures Load<V>(Marshal(p, enc).value) == Err(OutOfRange)
  {
  }

  /** A context of 65536 bytes or more has its length prefix truncated to
      16 bits; whatever Load then makes of the frame, it never holds the whole
      context: at most its first `|c| mod 65536` bytes. */
  lemma TruncatedLengthLosesContext<V>(p: Packet<V>, enc: Encoder<V>)
    requires Marshal(p, enc).Ok?
    requires |enc(p.context).value| >= 0x1_0000
    ensures var c := enc(p.context).value;
            var r := Load<V>(Marshal(p, enc).value);
            r.Ok? ==> r.value.context == Raw(c[..|c| % 0x1_0000]) && r.value.context != Raw(c)
  {
    var b, c, d := Marshal(p, enc).value, enc(p.context).value, enc(p.data).value;
    MarshalledFrame(p, enc);
    var r := Load<V>(b);
    if r.Ok? {
      var k := |c| % 0x1_0000;
      assert r.value.context.bytes == b[ContextStart(p)..][..k];
      assert b[ContextStart(p)..][..k] == (c + d)[..k] == c[..k];
    }
  }

  /** The round trip holds exactly when the context is within the bound. */
  lemma RoundTripExactly<V>(p: Packet<V>, enc: Encoder<V>)
    requires Marshal(p, enc).Ok?
    ensures var c, d := enc(p.context).value, enc(p.data).value;
            Load<V>(Marshal(p, enc).value) == Ok(Loaded(p, c, d)) <==> |c| <= MaxContextLength(p)
  {
    var c := enc(p.context).value;
    if |c| <= MaxContextLength(p) {
      LoadMarshal(p, enc);
    } else if |c| < 0x1_0000 {
      OffsetWrapPanics(p, enc);
    } else {
      TruncatedLengthLosesContext(p, enc);
    }
  }

  /** ID, Method and Status read the same values before and after the round trip. */
  lemma AccessorsRoundTrip<V>(p: Packet<V>, enc: Encoder<V>)
    requires Marshal(p, enc).Ok?
    requires |enc(p.context).value| <= MaxContextLength(p)
    ensures Load<V>(Marshal(p, enc).value).Ok?
    ensures var q := Load<V>(Marshal(p, enc).value).value;
            ID(q) == ID(p) && Method(q) == Method(p) && Status(q) == Status(p)
  {
  }

  /** After the round trip, unmarshal and unmarshalContext hand the codec's
      own bytes to its decoder; if the decoder inverts the encoder on those
      values, the caller gets back the typed values it marshalled. */
  lemma MaterializeRoundTrip<V>(p: Packet<V>, enc: Encoder<V>, dec: Bytes -> Result<V>)
    requires Marshal(p, enc).Ok?
    requires |enc(p.context).value| <= MaxContextLength(p)
    requires p.context.Typed? && dec(enc(p.context).value) == Ok(p.context.value)
    requires p.data.Typed? && dec(enc(p.data).value) == Ok(p.data.value)
    ensures Load<V>(Marshal(p, enc).value).Ok?
    ensures var q := Load<V>(Marshal(p, enc).value).value;
            UnmarshalContext(q, dec) == Ok(p.context.value) && Unmarshal(q, dec) == Ok(p.data.value)
  {
  }

  /** On a loaded packet the accessors report the bytes of the frame, or the
      fixed default where the shape has no such field. */
  lemma LoadedAccessors<V>(b: Bytes)
    requires Load<V>(b).Ok?
    ensures var q := Load<V>(b).value;
            && ID(q) == (if b[0] == TypeEvent then 0 else Uint16LE(b[1..3]))
            && Method(q) == (if b[0] == TypeRequest then b[5] else if b[0] == TypeEvent then b[1] else 0)
            && Status(q) == (if b[0] == TypeResponse then b[5] else StatusOK)
  {
  }

  /** A buffer cut short inside the fixed fields of its tag's shape makes
      `load` panic, for every cut point. */
  lemma ShortBufferPanics<V>(b: Bytes)
    requires Type(b) != TypeUnknown
    requires |b| < (if Type(b) == TypeEvent then EventHeaderLength else RequestHeaderLength) as int
    ensures Load<V>(b) == Err(OutOfRange)
  {
  }

  /** The round trip of the package's own test: a request with method 12
      and id 12345 comes back with that method and id, and its context and
      data decode to what was put in. */
  lemma RequestExample<V>(context: V, data: V, enc: Encoder<V>, dec: Bytes -> Result<V>)
    requires enc(Typed(context)).Ok? && |enc(Typed(context)).value| <= 0xFFFF - 6
    requires enc(Typed(data)).Ok?
    requires dec(enc(Typed(context)).value) == Ok(context) && dec(enc(Typed(data)).value) == Ok(data)
    ensures var r := Load<V>(Marshal(Request(12, 12345, Typed(context), Typed(data)), enc).value);
            && r.Ok? && ID(r.value) == 12345 && Method(r.value) == 12
            && UnmarshalContext(r.value, dec) == Ok(context) && Unmarshal(r.value, dec) == Ok(data)
  {
  }
}
