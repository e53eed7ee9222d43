/** The two byte streams the record is read from and written to: an input
    stream over a fixed byte source with a cursor (java.io.DataInputStream)
    and an output sink that only grows (java.io.DataOutputStream). */
module Streams {
  import opened Bytes

  class DataInput {
    /** every byte the stream will ever deliver */
    const data: seq<byte>
    /** how many of them have been consumed */
    var pos: nat

    ghost predicate Valid()
      reads this
    {
      pos <= |data|
    }

    constructor (data: seq<byte>, pos: nat)
      requires pos <= |data|
      ensures Valid() && this.data == data && this.pos == pos
    {
      this.data := data;
      this.pos := pos;
    }

    /** Reads `width` bytes as one unsigned big-endian number, a byte at a
        time. When the stream ends first, the bytes that were there are
        consumed and the read fails. */
    method ReadUnsigned(width: nat) returns (r: Result<nat>)
      requires Valid()
      modifies this
      ensures Valid()
      ensures Bytes.ReadUnsigned(data, old(pos), width).Ok? ==>
                r == Ok(Bytes.ReadUnsigned(data, old(pos), width).value.value) &&
                pos == Bytes.ReadUnsigned(data, old(pos), width).value.next
      ensures Bytes.ReadUnsigned(data, old(pos), width).Err? ==>
                r == Err(UnexpectedEndOfInput) && pos == |data|
    {
      if |data| < pos + width {
        pos := |data|;
        return Err(UnexpectedEndOfInput);
      }
      var start := pos;
      var v: nat := 0;
      while pos < start + width
        invariant start <= pos <= start + width <= |data|
        invariant v == BigEndian(data[start..pos])
      {
        assert data[start..pos + 1][..pos - start] == data[start..pos];
        v := v * 0x100 + data[pos];
        pos := pos + 1;
      }
      r := Ok(v);
    }

    method ReadUnsignedByte() returns (r: Result<nat>)
      requires Valid()
      modifies this
      ensures Valid()
      ensures Bytes.ReadUnsigned(data, old(pos), 1).Ok? ==>
                r == Ok(Bytes.ReadUnsigned(data, old(pos), 1).value.value) &&
                pos == Bytes.ReadUnsigned(data, old(pos), 1).value.next
      ensures Bytes.ReadUnsigned(data, old(pos), 1).Err? ==> r.Err? && pos == |data|
    {
      r := ReadUnsigned(1);
    }

    method ReadUnsignedShort() returns (r: Result<nat>)
      requires Valid()
      modifies this
      ensures Valid()
      ensures Bytes.ReadUnsigned(data, old(pos), 2).Ok? ==>
                r == Ok(Bytes.ReadUnsigned(data, old(pos), 2).value.value) &&
                pos == Bytes.ReadUnsigned(data, old(pos), 2).value.next
      ensures Bytes.ReadUnsigned(data, old(pos), 2).Err? ==> r.Err? && pos == |data|
    {
      r := ReadUnsigned(2);
    }

    /** readInt: four bytes read as a signed 32-bit integer. */
    method ReadInt() returns (r: Result<int>)
      requires Valid()
      modifies this
      ensures Valid()
      ensures Bytes.ReadUnsigned(data, old(pos), 4).Ok? ==>
                r == Ok(ToSigned32(Bytes.ReadUnsigned(data, old(pos), 4).value.value)) &&
                pos == Bytes.ReadUnsigned(data, old(pos), 4).value.next
      ensures Bytes.ReadUnsigned(data, old(pos), 4).Err? ==> r.Err? && pos == |data|
    {
      var u := ReadUnsigned(4);
      if u.Err? {
        return Err(u.error);
      }
      r := Ok(ToSigned32(u.value));
    }

    /** readFully into a buffer of n bytes. */
    method ReadFully(n: nat) returns (r: Result<seq<byte>>)
      requires Valid()
      modifies this
      ensures Valid()
      ensures old(pos) + n <= |data| ==> r == Ok(data[old(pos)..old(pos) + n]) && pos == old(pos) + n
      ensures |data| < old(pos) + n ==> r.Err? && pos == |data|
    {
      if |data| < pos + n {
        pos := |data|;
        return Err(UnexpectedEndOfInput);
      }
      r := Ok(data[pos..pos + n]);
      pos := pos + n;
    }

    /** skipBytes: skips n bytes, or to the end of the stream when fewer
        remain, and returns how many were skipped; it never fails. */
    method SkipBytes(n: nat) returns (skipped: nat)
      requires Valid()
      modifies this
      ensures Valid()
      ensures skipped <= n && pos == old(pos) + skipped
      ensures skipped == n || pos == |data|
      ensures pos == Skipped(|data|, old(pos), n)
    {
      skipped := if pos + n <= |data| then n else |data| - pos;
      pos := pos + skipped;
    }
  }

  class DataOutput {
    /** every byte written so far */
    var written: seq<byte>

    constructor ()
      ensures written == []
    {
      written := [];
    }

    method WriteByte(v: int)
      modifies this
      ensures written == old(written) + U8(v)
    {
      written := written + U8(v);
    }

    method WriteShort(v: int)
      modifies this
      ensures written == old(written) + U16(v)
    {
      written := written + U16(v);
    }

    method WriteInt(v: int)
      modifies this
      ensures written == old(written) + U32(v)
    {
      written := written + U32(v);
    }

    method Write(bytes: seq<byte>)
      modifies this
      ensures written == old(written) + bytes
    {
      written := written + bytes;
    }
  }
}
