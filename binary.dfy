/** Fixed-width unsigned integers, their little-endian byte form (Go's
    encoding/binary.LittleEndian) and the concatenation of byte segments
    (concatCopyPreAllocate). */
module Binary {

  type byte = x: int | 0 <= x < 0x100
  type uint16 = x: int | 0 <= x < 0x1_0000
  type Bytes = seq<byte>

  /** Go's conversion `uint16(n)` of a non-negative length: keep the low 16 bits. */
  function Wrap16(n: nat): (r: uint16)
    ensures n < 0x1_0000 ==> r == n
    ensures r <= n && (n - r) % 0x1_0000 == 0
  {
    n % 0x1_0000
  }

  /** Addition of two uint16 values as Go performs it: modulo 2^16. */
  function Add16(a: uint16, b: uint16): (r: uint16)
    ensures a + b < 0x1_0000 ==> r == a + b
    ensures a + b >= 0x1_0000 ==> r == a + b - 0x1_0000 && r < a
  {
    (a + b) % 0x1_0000
  }

  /** binary.LittleEndian.PutUint16: low byte first, then high byte. */
  function LE16(x: uint16): (r: Bytes)
    ensures |r| == 2 && r[0] as int + 0x100 * r[1] as int == x
  {
    [x % 0x100, x / 0x100]
  }

  /** binary.LittleEndian.Uint16: reads the first two bytes (Go panics on fewer). */
  function Uint16LE(b: Bytes): (x: uint16)
    requires |b| >= 2
    ensures LE16(x) == b[..2]
  {
    b[0] as int + 0x100 * b[1] as int
  }

  /** Decoding what PutUint16 wrote gives back the value. */
  lemma LE16RoundTrip(x: uint16)
    ensures Uint16LE(LE16(x)) == x
  {
  }

  /** concatCopyPreAllocate: the segments laid end to end, in order, in a
      buffer exactly as long as all of them together (the allocation size). */
  function Flatten(segs: seq<Bytes>): (r: Bytes)
    ensures |r| == TotalLength(segs)
  {
    if segs == [] then [] else segs[0] + Flatten(segs[1..])
  }

  /** Appending one segment at a time onto a growing buffer builds the same
      bytes as flattening the whole segment list at once. */
  lemma {:induction false} FlattenAppend(segs: seq<Bytes>, s: Bytes)
    ensures Flatten(segs + [s]) == Flatten(segs) + s
  {
    if segs == [] {
      assert [] + [s] == [s];
      assert Flatten([s]) == s + Flatten([]);
    } else {
      assert (segs + [s])[0] == segs[0];
      assert (segs + [s])[1..] == segs[1..] + [s];
      FlattenAppend(segs[1..], s);
    }
  }

  /** The size concatCopyPreAllocate allocates: the sum of the segment lengths. */
  function TotalLength(segs: seq<Bytes>): nat
  {
    if segs == [] then 0 else |segs[0]| + TotalLength(segs[1..])
  }
}
