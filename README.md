# teapack packet framing in Dafny

teapack frames three kinds of message for exchange between peers:

- **request**: tag 1, a 16-bit job id and a method byte;
- **response**: tag 2, the same id and a status byte;
- **event**: tag 3, a method byte and no id.

Every packet carries two payloads encoded by MessagePack. The *context* is preceded by a 16-bit little-endian length. The *data* runs to the end of the buffer. Loading a buffer keeps both payloads as raw bytes. They are decoded later, on request.

This project models that framing. The source exists in two revisions with the same wire layout: `teapack.go` and `packet.go`. The layout is modelled once, and both revisions are proved to agree with it.

- `binary.dfy` (module `Binary`): bytes, `uint16`, Go's truncating `uint16(n)` conversion and wrapping `uint16` addition, little-endian 16-bit encoding, and `Flatten`, the segment concatenation that packet.go calls `concatCopyPreAllocate`.
- `packets.dfy` (module `Packets`): the tag and status constants, the `Packet` datatype, and per variant:
  - the encoder of packet.go, a segment list flattened in one step;
  - the loader, which slices at fixed offsets;
  - the `unmarshal` / `unmarshalContext` guards.
- `variants.dfy` (module `Variants`): one class per Go struct.
  - `Load` overwrites the object's fields in place, as Go's `load` does on its receiver.
  - `Marshal` is teapack.go's encoder. It appends segment after segment onto a growing buffer, and is proved to return exactly the bytes of the packet.go encoder.
- `teapack.dfy` (module `Teapack`): the tag sniffer `Type`, the dispatchers `Load` and `Marshal`, and the accessors `ID`, `Method` and `Status`.
- `roundtrip.dfy` (module `RoundTrip`): the round trip `Load(Marshal(p))` and the exact bound under which it holds.

A payload field (`Context`, `Data`) is a `Slot`, which takes one of three forms:

- `Nil`: Go's nil interface, as in a zero-value struct;
- `Typed(v)`: any value that is not a `[]byte`;
- `Raw(bytes)`: any `[]byte`, whether `load` sliced it out of a buffer or the caller set it.

The `unmarshal` guards test the dynamic type, not whether the packet was loaded: a caller-built packet whose data is already a `[]byte` is decoded, not refused.

The MessagePack codec is a collaborator outside this model. It enters as function parameters:

- an encoder `Slot<V> -> Result<Bytes>`, i.e. `msgpack.Marshal`; any error it returns, normally `Codec`, is passed through unchanged;
- a decoder `Bytes -> Result<D>`, i.e. `msgpack.Unmarshal` into a destination of type `D`.

Sharp edges of the source, modelled as written:

- The context length is written as `uint16(len(ctx))`, so only its low 16 bits reach the wire.
- `load` computes the end of the context as `6 + ctxLen` (event: `4 + ctxLen`) in `uint16`. That sum wraps for lengths of 65530 (event: 65532) and above.
- `load` checks no bounds. Where Go would panic on an out-of-range slice, the model returns the error `OutOfRange`. This happens exactly when the buffer is shorter than the fixed fields, or when the (wrapped) end offset lies before the context start or past the buffer's end.

The round trip is therefore proved as an if-and-only-if (`RoundTripExactly`). `Load(Marshal(p))` gives back p's shape and scalar fields, with the codec's bytes as payloads, exactly when the encoded context is at most 65529 bytes long (event: 65531).

- Above that bound but below 65536 bytes, `load` panics (`OffsetWrapPanics`).
- From 65536 bytes on, a successful load holds only the first `|c| mod 65536` bytes of the context (`TruncatedLengthLosesContext`).

## Model

| member | source | states |
|---|---|---|
| Binary.Wrap16 | teapack.go:95 | `uint16(len(ctx))` keeps lengths below 65536 unchanged and otherwise drops a multiple of 65536, leaving the low 16 bits |
| Binary.Add16 | teapack.go:119 | `uint16` addition is exact below 65536 and otherwise wraps to the sum minus 65536, smaller than the first operand |
| Binary.LE16 | teapack.go:90-91 | PutUint16 writes two bytes, low byte first, whose little-endian value is the input |
| Binary.Uint16LE | teapack.go:123 | LittleEndian.Uint16 reads the value that PutUint16 would write as the first two bytes |
| Binary.LE16RoundTrip | teapack.go:90-92 | reading back a written uint16 gives the same value |
| Binary.Flatten | packet.go:39-41 | concatCopyPreAllocate: the output is exactly as long as the sum of the segment lengths, the size it pre-allocates; how the segments are laid out is stated by FlattenAppend |
| Binary.FlattenAppend | packet.go:39-41 | appending one segment onto a flattened list equals flattening the longer list, so teapack.go's appends and packet.go's single concatenation build the same bytes |
| Packets.EncodePayloads | packet.go:23-30 | both payloads are encoded, context first; success exactly when both encodings succeed, otherwise the context's error if it failed, else the data's |
| Packets.IdSegmentsLayout | packet.go:32-41 | the request/response segment list flattens to tag, LE16 id, LE16 of the truncated context length, method or status, context, then data, at offsets 0, 1, 3, 5, 6 and 6+\|ctx\| |
| Packets.EventSegmentsLayout | packet.go:166-173 | the event segment list flattens to tag 3, method, LE16 of the truncated context length, context, then data, so the method comes before the length prefix |
| Packets.MarshalRequest | packet.go:22-44 | fails exactly when the codec fails on the context or the data, with that error (the context's first); otherwise the result is a tag-1 frame whose length is 6+\|ctx\|+\|data\| |
| Packets.MarshalResponse | packet.go:90-112 | as for a request, with tag 2 and the status byte at offset 5 |
| Packets.MarshalEvent | packet.go:156-176 | fails only through the codec; otherwise a tag-3 frame of length 4+\|ctx\|+\|data\| with the method at offset 1 and the length prefix at offsets 2-3 |
| Packets.SliceBody | packet.go:51-52 | the context and data slices exist exactly when the declared context, with no wrap-around, fits after the fixed fields; the context has the declared length, and context then data make up the rest of the buffer |
| Packets.LoadRequest | packet.go:47-59 | succeeds exactly when the buffer holds the fixed fields and the declared context fits without uint16 wrap-around; the id is read from bytes 1-2 and the method from byte 5; context and data are raw bytes that partition `b[6..]`; otherwise OutOfRange (Go panics) |
| Packets.LoadResponse | packet.go:115-127 | as LoadRequest, with the status read from byte 5 |
| Packets.LoadEvent | packet.go:179-190 | succeeds exactly when the buffer holds 4 fixed bytes and the declared context fits; the method is read from byte 1; context and data partition `b[4..]`; there is no id |
| Packets.Unmarshal | packet.go:62-67 | NotLoaded unless the data slot holds a byte slice (loaded or set by the caller); otherwise exactly the codec's decoding of those bytes |
| Packets.UnmarshalContext | packet.go:70-75 | NotLoaded unless the context slot holds a byte slice (loaded or set by the caller); otherwise exactly the codec's decoding of those bytes |
| Variants.RequestPacket.constructor | teapack.go:62-73 | a struct literal holds exactly the given fields |
| Variants.RequestPacket.Marshal | teapack.go:76-106 | appending the six segments one by one gives exactly the packet.go encoding; on a codec error, an empty slice and that error |
| Variants.RequestPacket.Load | teapack.go:108-128 | when the buffer is in range, the object's fields become the loaded request; otherwise OutOfRange and the object is unchanged |
| Variants.ResponsePacket.constructor | teapack.go:145-156 | a struct literal holds exactly the given fields |
| Variants.ResponsePacket.Marshal | teapack.go:159-189 | the append-built response equals the packet.go encoding; on a codec error, an empty slice and that error |
| Variants.ResponsePacket.Load | teapack.go:191-209 | when the buffer is in range, the fields become the loaded response; otherwise OutOfRange and the object is unchanged |
| Variants.EventPacket.constructor | teapack.go:226-235 | a struct literal holds exactly the given fields |
| Variants.EventPacket.Marshal | teapack.go:238-264 | the append-built event equals the packet.go encoding; on a codec error, an empty slice and that error |
| Variants.EventPacket.Load | teapack.go:266-283 | when the buffer is in range, the fields become the loaded event; otherwise OutOfRange and the object is unchanged |
| Teapack.Type | teapack.go:315-329 | Unknown (0) exactly for an empty buffer or a first byte outside 1..3; otherwise the first byte itself |
| Teapack.TypeReadsOnlyTag | teapack.go:315-329 | buffers with the same first byte get the same tag, and so does that byte alone: nothing past byte 0 is read |
| Teapack.Load | teapack.go:332-347 | UnknownType exactly when Type is Unknown; with a known tag, success exactly when the context fits, otherwise OutOfRange; a loaded packet's shape matches the tag byte, and both of its payloads are raw bytes |
| Teapack.Marshal | teapack.go:350-352 | fails exactly when the codec fails on a payload; the bytes it writes are sniffed as the packet's own tag |
| Teapack.ID | teapack.go:355-363 | the id of a request or response; 0 for an event |
| Teapack.Method | teapack.go:366-374 | the method of a request or event; 0 for a response |
| Teapack.Status | teapack.go:377-382 | the status of a response; StatusOK (1) for a request or event |
| RoundTrip.MarshalledFrame | teapack.go:86-103 | a marshalled frame carries the packet's tag, the context length mod 65536 at the prefix offset, and context then data after the fixed fields |
| RoundTrip.LoadMarshal | teapack_test.go:26-29 | Load(Marshal(p)) returns p's shape, id, method and status, with the codec's context and data bytes as raw payloads, whenever the context is within the bound |
| RoundTrip.OffsetWrapPanics | teapack.go:119-121 | a context of 65530..65535 bytes (event: 65532..65535) gets an exact prefix, but the uint16 end offset wraps and load panics |
| RoundTrip.TruncatedLengthLosesContext | teapack.go:94-96 | a context of 65536 bytes or more gets a truncated prefix; a successful load holds only its first \|ctx\| mod 65536 bytes, never the whole context |
| RoundTrip.RoundTripExactly | teapack.go:115-121 | the round trip gives back the packet exactly when the encoded context is at most 65529 bytes (event: 65531) |
| RoundTrip.AccessorsRoundTrip | teapack.go:355-382 | ID, Method and Status agree on a packet and on its round-tripped copy |
| RoundTrip.MaterializeRoundTrip | teapack_test.go:30-35 | after the round trip, unmarshal and unmarshalContext return the typed values that were marshalled, provided the codec decodes what it encoded |
| RoundTrip.LoadedAccessors | teapack.go:355-382 | on a loaded packet, ID is bytes 1-2 (0 for an event), Method is byte 5 of a request or byte 1 of an event (0 for a response), and Status is byte 5 of a response (StatusOK otherwise) |
| RoundTrip.ShortBufferPanics | teapack.go:113-117 | a buffer with a known tag that is cut inside its shape's fixed fields makes load panic, whatever the cut point |
| RoundTrip.RequestExample | teapack_test.go:11-36 | the package's own test: a request with method 12 and id 12345 comes back with that method and id, and with its context and data |

## Left out

- MessagePack encoding and decoding are not modelled. They are function parameters, an encoder and a decoder, with no properties assumed except where a lemma states one as a precondition.
- `concatCopyPreAllocate` is not part of this model. Its result is specified as `Flatten` of the segment list, and its allocation size as `TotalLength`; how it copies is not modelled.
- The `binary` field of the teapack.go structs is not modelled. It only keeps a reference to the loaded buffer, and nothing reads it.
- Go slice capacity is not represented, and nothing depends on it. The final slice `b[end:]` is bounded by the length, and `end` is at least the fixed-field length unless the offset wraps, in which case `b[start:end]` panics whatever the capacity. So whether `load` panics, and what it returns, is the same for any capacity.
- Aliasing is not modelled. The slices stored by `load` alias the input buffer; in the model they are values.
- Error message text is not modelled, and a Go panic becomes the explicit value `OutOfRange`.
- Go's interface type assertions in `ID`, `Method`, `Status` and in the `unmarshal` guards become a `match` on the `Packet` datatype or on the `Slot`.
- The package-level `Unmarshal` and `UnmarshalContext` of teapack.go:384-392 only forward to the variant's method. `Packets.Unmarshal` and `Packets.UnmarshalContext` model both.
- The caller's destination `v interface{}`, which Go decodes into in place, is modelled as the decoder's result value.
- Packets.MarshalRequest: on a codec error the value-level encoders return only the error, without the empty slice Go returns beside it. The class methods `Variants.*.Marshal` do return that empty slice.
- Packets.MarshalResponse: the same as MarshalRequest, for responses.
- Packets.MarshalEvent: the same as MarshalRequest, for events.
