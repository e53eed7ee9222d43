/** Unsigned big-endian byte layout, as written by java.io.DataOutputStream
    and read back by java.io.DataInputStream. */
module Bytes {

  /** One octet of the wire format. */
  type byte = x: int | 0 <= x < 0x100

  const U16_RANGE: int := 0x1_0000
  const U32_RANGE: int := 0x1_0000_0000

  /** The only decode error: the stream ended before a field was complete
      (Java's EOFException). */
  datatype Error = UnexpectedEndOfInput

  datatype Result<T> = Ok(value: T) | Err(error: Error) {
    predicate IsFailure() { Err? }
    function PropagateFailure<U>(): Result<U>
      requires Err?
    {
      Err(error)
    }
    function Extract(): T
      requires Ok?
    {
      value
    }
  }

  datatype Option<T> = None | Some(value: T)

  /** A decoded value together with the position just after it. */
  datatype Parsed<T> = Parsed(value: T, next: nat)

  /** 256 to the power n: the number of values n bytes can hold. */
  function Pow256(n: nat): (p: nat)
    ensures p >= 1
  {
    if n == 0 then 1 else 0x100 * Pow256(n - 1)
  }

  /** The unsigned big-endian number a byte string denotes. */
  function BigEndian(s: seq<byte>): (v: nat)
    ensures v < Pow256(|s|)
  {
    if s == [] then 0
    else
      var front := BigEndian(s[..|s| - 1]);
      assert front * 0x100 + s[|s| - 1] < Pow256(|s| - 1) * 0x100 by {
        assert front + 1 <= Pow256(|s| - 1);
        assert (front + 1) * 0x100 <= Pow256(|s| - 1) * 0x100;
      }
      front * 0x100 + s[|s| - 1]
  }

  /** writeByte: the low 8 bits of v. */
  function U8(v: int): (r: seq<byte>)
    ensures |r| == 1
  {
    [v % 0x100]
  }

  /** writeShort: the low 16 bits of v, high byte first. */
  function U16(v: int): (r: seq<byte>)
    ensures |r| == 2
  {
    var u := v % U16_RANGE;
    [u / 0x100, u % 0x100]
  }

  /** writeInt: the low 32 bits of v, most significant byte first. */
  function U32(v: int): (r: seq<byte>)
    ensures |r| == 4
  {
    var u := v % U32_RANGE;
    [u / 0x100_0000, (u / 0x1_0000) % 0x100, (u / 0x100) % 0x100, u % 0x100]
  }

  /** The three writers emit the big-endian form of v cut to their width. */
  lemma U8Value(v: int)
    ensures BigEndian(U8(v)) == v % 0x100
  {
    assert U8(v)[..0] == [];
  }

  lemma U16Value(v: int)
    ensures BigEndian(U16(v)) == v % U16_RANGE
  {
    var r := U16(v);
    assert BigEndian(r[..1]) == r[0] by {
      assert r[..1][..0] == [];
    }
  }

  lemma U32Value(v: int)
    ensures BigEndian(U32(v)) == v % U32_RANGE
  {
    var u := v % U32_RANGE;
    var r := U32(v);
    assert BigEndian(r[..1]) == u / 0x100_0000 by {
      assert r[..1][..0] == [];
    }
    assert BigEndian(r[..2]) == u / 0x1_0000 by {
      assert r[..2][..1] == r[..1];
    }
    assert BigEndian(r[..3]) == u / 0x100 by {
      assert r[..3][..2] == r[..2];
    }
    assert r[..4][..3] == r[..3];
  }

  /** Reads an unsigned big-endian field of `width` bytes at `pos`
      (readUnsignedByte, readUnsignedShort, and readInt masked to 32 bits). */
  function ReadUnsigned(s: seq<byte>, pos: nat, width: nat): (r: Result<Parsed<nat>>)
    ensures r.Ok? <==> pos + width <= |s|
    ensures r.Ok? ==> r.value.next == pos + width && r.value.value < Pow256(width)
  {
    if pos + width <= |s| then Ok(Parsed(BigEndian(s[pos..pos + width]), pos + width))
    else Err(UnexpectedEndOfInput)
  }

  /** A one-byte field is the byte itself. */
  lemma ReadByte(s: seq<byte>, k: nat)
    requires k < |s|
    ensures ReadUnsigned(s, k, 1) == Ok(Parsed(s[k], k + 1))
  {
    assert s[k..k + 1][..0] == [];
  }

  /** Where skipBytes(n) leaves a cursor at pos in a stream of `length` bytes. */
  function Skipped(length: nat, pos: nat, n: nat): (p: nat)
    requires pos <= length
    ensures pos <= p <= length
    ensures p == pos + n || p == length
  {
    if pos + n <= length then pos + n else length
  }

  /** Concatenation regroups freely. */
  lemma AppendAssoc(a: seq<byte>, b: seq<byte>, c: seq<byte>)
    ensures a + b + c == a + (b + c)
  {
  }

  /** `bytes` occurs in `s` starting at `pos`. */
  predicate At(s: seq<byte>, pos: nat, bytes: seq<byte>) {
    pos + |bytes| <= |s| && s[pos..pos + |bytes|] == bytes
  }

  /** Two adjacent fields: the first starts at pos, the second right after it. */
  lemma AtSplit(s: seq<byte>, pos: nat, a: seq<byte>, b: seq<byte>)
    requires At(s, pos, a + b)
    ensures At(s, pos, a) && At(s, pos + |a|, b)
  {
    assert s[pos..pos + |a|] == (a + b)[..|a|];
    assert s[pos + |a|..pos + |a| + |b|] == (a + b)[|a|..];
  }

  /** Reading back what was written: a field of width |bytes| read where
      `bytes` lies yields their big-endian value and advances past them. */
  lemma ReadWritten(s: seq<byte>, pos: nat, bytes: seq<byte>)
    requires At(s, pos, bytes)
    ensures ReadUnsigned(s, pos, |bytes|) == Ok(Parsed(BigEndian(bytes), pos + |bytes|))
  {
  }

  /** Round trips of the three writers through the unsigned readers: a value
      that fits the field comes back unchanged, any other value comes back
      truncated to the field's width. */
  lemma RoundTripU8(s: seq<byte>, pos: nat, v: int)
    requires At(s, pos, U8(v))
    ensures ReadUnsigned(s, pos, 1) == Ok(Parsed(v % 0x100, pos + 1))
    ensures 0 <= v < 0x100 ==> ReadUnsigned(s, pos, 1).value.value == v
  {
    ReadWritten(s, pos, U8(v));
    U8Value(v);
  }

  lemma RoundTripU16(s: seq<byte>, pos: nat, v: int)
    requires At(s, pos, U16(v))
    ensures ReadUnsigned(s, pos, 2) == Ok(Parsed(v % U16_RANGE, pos + 2))
    ensures 0 <= v < U16_RANGE ==> ReadUnsigned(s, pos, 2).value.value == v
  {
    ReadWritten(s, pos, U16(v));
    U16Value(v);
  }

  lemma RoundTripU32(s: seq<byte>, pos: nat, v: int)
    requires At(s, pos, U32(v))
    ensures ReadUnsigned(s, pos, 4) == Ok(Parsed(v % U32_RANGE, pos + 4))
    ensures 0 <= v < U32_RANGE ==> ReadUnsigned(s, pos, 4).value.value == v
  {
    ReadWritten(s, pos, U32(v));
    U32Value(v);
  }

  /** Java's readInt yields the signed two's-complement reading of the four
      bytes; `& 0xFFFFFFFFL` turns it back into the unsigned value. */
  function ToSigned32(u: int): (v: int)
    requires 0 <= u < U32_RANGE
    ensures -0x8000_0000 <= v < 0x8000_0000
    ensures v % U32_RANGE == u
  {
    if u < 0x8000_0000 then u else u - U32_RANGE
  }
}
