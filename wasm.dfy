/**
 * The guest's linear memory as the host sees it through wazero's
 * `api.Memory`: a flat byte array addressed by 32-bit offsets, with
 * bounds-checked reads and writes that report failure instead of trapping.
 * The specification functions work on the contents `seq<u8>`; the methods
 * work on the array itself.
 */
module Wasm {
  import opened Values

  /** A 32-bit guest addresses at most 4 GiB. */
  const MaxMemorySize: nat := 0x1_0000_0000

  /** wazero's bounds test: the range [offset, offset + count) lies inside memory. */
  predicate Fits(offset: nat, count: nat, size: nat) {
    offset + count <= size
  }

  /** Little-endian decoding, as `binary.LittleEndian.Uint16` / `Uint32`. */
  function LeU16(b: seq<u8>): u16
    requires |b| == 2
  {
    b[0] as int + 0x100 * (b[1] as int)
  }

  function LeU32(b: seq<u8>): u32
    requires |b| == 4
  {
    b[0] as int + 0x100 * (b[1] as int) + 0x1_0000 * (b[2] as int) + 0x100_0000 * (b[3] as int)
  }

  /** Little-endian encoding, the layout the guest writes its records in. */
  function EncodeU16(v: u16): (b: seq<u8>)
    ensures |b| == 2
  {
    [v % 0x100, v / 0x100]
  }

  function EncodeU32(v: u32): (b: seq<u8>)
    ensures |b| == 4
  {
    [v % 0x100, v / 0x100 % 0x100, v / 0x1_0000 % 0x100, v / 0x100_0000]
  }

  lemma DecodeEncodeU16(v: u16)
    ensures LeU16(EncodeU16(v)) == v
  {
  }

  lemma EncodeDecodeU16(b: seq<u8>)
    requires |b| == 2
    ensures EncodeU16(LeU16(b)) == b
  {
  }

  lemma DecodeEncodeU32(v: u32)
    ensures LeU32(EncodeU32(v)) == v
  {
    var q1 := v / 0x100;
    var q2 := q1 / 0x100;
    assert v == v % 0x100 + 0x100 * q1;
    assert q1 == q1 % 0x100 + 0x100 * q2;
    assert q2 == v / 0x1_0000;
    assert q2 == q2 % 0x100 + 0x100 * (v / 0x100_0000);
  }

  lemma EncodeDecodeU32(b: seq<u8>)
    requires |b| == 4
    ensures EncodeU32(LeU32(b)) == b
  {
    var v := LeU32(b);
    assert v / 0x100 == b[1] as int + 0x100 * (b[2] as int) + 0x1_0000 * (b[3] as int);
    assert v / 0x1_0000 == b[2] as int + 0x100 * (b[3] as int);
    assert v / 0x100_0000 == b[3];
  }

  /** `Memory.Read(offset, byteCount)`: the bytes of the range, or failure. */
  function ReadBytes(m: seq<u8>, offset: u32, count: u32): Option<seq<u8>>
  {
    if Fits(offset, count, |m|) then Some(m[offset..offset + count]) else None
  }

  /** `Memory.ReadUint16Le(offset)`. */
  function ReadU16(m: seq<u8>, offset: u32): Option<u16>
  {
    if Fits(offset, 2, |m|) then Some(LeU16(m[offset..offset + 2])) else None
  }

  /** `Memory.ReadUint32Le(offset)`. */
  function ReadU32(m: seq<u8>, offset: u32): Option<u32>
  {
    if Fits(offset, 4, |m|) then Some(LeU32(m[offset..offset + 4])) else None
  }

  /** `Memory.Write(offset, val)`: the new contents, or failure with nothing written. */
  function WriteBytes(m: seq<u8>, offset: u32, val: seq<u8>): Option<seq<u8>>
  {
    if Fits(offset, |val|, |m|) then Some(m[..offset] + val + m[offset + |val|..]) else None
  }

  /** A successful write puts exactly `val` at `offset`, keeps the size and changes no other byte. */
  lemma WriteBytesEffect(m: seq<u8>, offset: u32, val: seq<u8>)
    requires Fits(offset, |val|, |m|)
    ensures WriteBytes(m, offset, val).Some?
    ensures |WriteBytes(m, offset, val).value| == |m|
    ensures WriteBytes(m, offset, val).value[offset..offset + |val|] == val
    ensures forall i | 0 <= i < |m| && !(offset <= i < offset + |val|) ::
              WriteBytes(m, offset, val).value[i] == m[i]
  {
  }

  /** Reading back what a write stored: the written bytes and the little-endian words they encode. */
  lemma ReadAfterWrite(m: seq<u8>, offset: u32, v: u32)
    requires Fits(offset, 4, |m|)
    ensures ReadU32(WriteBytes(m, offset, EncodeU32(v)).value, offset) == Some(v)
  {
    WriteBytesEffect(m, offset, EncodeU32(v));
    DecodeEncodeU32(v);
  }

  /** Every 32-bit read is the little-endian value of the four bytes it covers, and those bytes are its encoding. */
  lemma ReadU32Bytes(m: seq<u8>, offset: u32)
    requires Fits(offset, 4, |m|)
    ensures ReadU32(m, offset).Some?
    ensures EncodeU32(ReadU32(m, offset).value) == m[offset..offset + 4]
  {
    EncodeDecodeU32(m[offset..offset + 4]);
  }

  /** `Memory.Read`: a view of `byteCount` bytes at `offset`, or nil and false when out of range. */
  method Read(mem: array<u8>, offset: u32, byteCount: u32) returns (bytes: seq<u8>, ok: bool)
    ensures ok <==> Fits(offset, byteCount, mem.Length)
    ensures ok ==> bytes == mem[offset..offset + byteCount]
    ensures !ok ==> bytes == []
  {
    if !Fits(offset, byteCount, mem.Length) {
      return [], false;
    }
    bytes, ok := mem[offset..offset + byteCount], true;
  }

  /** `Memory.ReadUint16Le`: 0 and false when the two bytes are not all in memory. */
  method ReadUint16Le(mem: array<u8>, offset: u32) returns (v: u16, ok: bool)
    ensures ok <==> Fits(offset, 2, mem.Length)
    ensures ReadU16(mem[..], offset) == if ok then Some(v) else None
    ensures !ok ==> v == 0
  {
    if !Fits(offset, 2, mem.Length) {
      return 0, false;
    }
    v, ok := LeU16(mem[offset..offset + 2]), true;
  }

  /** `Memory.ReadUint32Le`: 0 and false when the four bytes are not all in memory. */
  method ReadUint32Le(mem: array<u8>, offset: u32) returns (v: u32, ok: bool)
    ensures ok <==> Fits(offset, 4, mem.Length)
    ensures ReadU32(mem[..], offset) == if ok then Some(v) else None
    ensures !ok ==> v == 0
  {
    if !Fits(offset, 4, mem.Length) {
      return 0, false;
    }
    v, ok := LeU32(mem[offset..offset + 4]), true;
  }

  /** `Memory.Write`: copies `val` to `offset`, or writes nothing and reports false when out of range. */
  method Write(mem: array<u8>, offset: u32, val: seq<u8>) returns (ok: bool)
    modifies mem
    ensures ok <==> Fits(offset, |val|, mem.Length)
    ensures ok ==> Some(mem[..]) == WriteBytes(old(mem[..]), offset, val)
    ensures !ok ==> mem[..] == old(mem[..])
  {
    if !Fits(offset, |val|, mem.Length) {
      return false;
    }
    forall i | 0 <= i < |val| {
      mem[offset + i] := val[i];
    }
    ok := true;
    assert mem[..] == old(mem[..])[..offset] + val + old(mem[..])[offset + |val|..];
  }
}
