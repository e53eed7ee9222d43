/** The iris Representation Header record as a value, with its byte layout
    (ISO/IEC 19794-6:2011 iris image data, representation header), its
    length accounting, its encoder and its two decoders, and what is proved
    about them. The class in module Iris is proved against
    these functions. */
module HeaderFormat {
  import opened Bytes
  import opened SubRecords

  /** The "unspecified" members of the capture device enumerations. */
  const TECHNOLOGY_UNSPECIFIED: int := 0
  const VENDOR_UNSPECIFIED: int := 0
  const TYPE_UNSPECIFIED: int := 0

  /** Bytes of the timestamp (2+1+1+1+1+1+2) and of the device identifiers (1+2+2). */
  const TIMESTAMP_LENGTH: nat := 9
  const DEVICE_LENGTH: nat := 5
  /** What the "only image information" decoder skips after the length field. */
  const SKIPPED_LENGTH: nat := 14
  /** Everything but the quality blocks: 4 + 9 + 1 + 2 + 2 + 1 + 2 + 27. */
  const FIXED_LENGTH: nat := 48

  /** The seven capture date-time fields as the record stores them. The
      field constructors store a zero-based month; the decoders store the
      wire byte, which is one-based. */
  datatype CaptureTimestamp = CaptureTimestamp(
    year: int, month: int, day: int, hour: int, minute: int, second: int, milliSecond: int)

  datatype CaptureDevice = CaptureDevice(technology: int, vendor: int, deviceType: int)

  /** Java's default field values, left in place by the partial decoder. */
  const NO_TIMESTAMP: CaptureTimestamp := CaptureTimestamp(0, 0, 0, 0, 0, 0, 0)
  const NO_DEVICE: CaptureDevice := CaptureDevice(0, 0, 0)

  /** The record state. `qualityBlocks` may be null (None) in Java;
      `noOfQualityBlocks` is a separate field that the constructors and the
      decoders keep equal to the number of blocks. */
  datatype Header = Header(
    representationDataLength: int,
    captureTimestamp: CaptureTimestamp,
    captureDevice: CaptureDevice,
    noOfQualityBlocks: int,
    qualityBlocks: Option<seq<QualityBlock>>,
    representationNo: int,
    imageInformation: ImageInformation)

  /** The quality blocks the encoder and the length accounting iterate over
      (none when the array is null). */
  function Blocks(h: Header): seq<QualityBlock> {
    if h.qualityBlocks.Some? then h.qualityBlocks.value else []
  }

  /** The count field agrees with the block array. */
  predicate CountConsistent(h: Header) {
    h.qualityBlocks.Some? && h.noOfQualityBlocks == |h.qualityBlocks.value|
  }

  // ---------------------------------------------------------------- length

  /** Σ qualityBlock.getRecordLength() over a block sequence. */
  function QualityBlocksLength(bs: seq<QualityBlock>): (n: nat)
    ensures n == QUALITY_BLOCK_LENGTH * |bs|
  {
    if bs == [] then 0
    else QualityBlocksLength(bs[..|bs| - 1]) + QualityBlockRecordLength(bs[|bs| - 1])
  }

  /** getRecordLength: the header's own size, without the image payload. */
  function RecordLength(h: Header): (n: nat)
    ensures n == FIXED_LENGTH + QUALITY_BLOCK_LENGTH * |Blocks(h)|
    ensures (h.qualityBlocks.None? || h.qualityBlocks.value == []) ==> n == FIXED_LENGTH
  {
    4 + 9 + 1 + 2 + 2 + 1 + QualityBlocksLength(Blocks(h)) + 2 + IMAGE_INFORMATION_LENGTH
  }

  // ---------------------------------------------------------------- encode

  /** The stored month goes out plus one. */
  function EncodeTimestamp(t: CaptureTimestamp): (r: seq<byte>)
    ensures |r| == TIMESTAMP_LENGTH
  {
    U16(t.year) + U8(t.month + 1) + U8(t.day) + U8(t.hour) + U8(t.minute) + U8(t.second) + U16(t.milliSecond)
  }

  function EncodeDevice(d: CaptureDevice): (r: seq<byte>)
    ensures |r| == DEVICE_LENGTH
  {
    U8(d.technology) + U16(d.vendor) + U16(d.deviceType)
  }

  function EncodeQualityBlocks(bs: seq<QualityBlock>): (r: seq<byte>)
    ensures |r| == QualityBlocksLength(bs)
  {
    if bs == [] then []
    else EncodeQualityBlocks(bs[..|bs| - 1]) + EncodeQualityBlock(bs[|bs| - 1])
  }

  /** The block count, the blocks, the representation number and the image
      information: what follows the capture device identifiers. */
  function EncodeTail(h: Header): (r: seq<byte>)
    ensures |r| == 1 + QUALITY_BLOCK_LENGTH * |Blocks(h)| + 2 + IMAGE_INFORMATION_LENGTH
  {
    U8(h.noOfQualityBlocks) + EncodeQualityBlocks(Blocks(h)) + U16(h.representationNo)
      + EncodeImageInformation(h.imageInformation)
  }

  /** writeObject. The length field is the record's own length plus the
      payload length, cut to 32 bits by the `(int)` cast. */
  function Encode(h: Header): (r: seq<byte>)
    ensures |r| == RecordLength(h)
  {
    U32(RecordLength(h) + h.representationDataLength)
      + EncodeTimestamp(h.captureTimestamp)
      + EncodeDevice(h.captureDevice)
      + EncodeTail(h)
  }

  /** The encoding in the three groups writeObject emits: the length field,
      the capture fields, and the tail. */
  lemma EncodeGroups(h: Header)
    ensures Encode(h) == U32(RecordLength(h) + h.representationDataLength)
                         + (EncodeTimestamp(h.captureTimestamp) + EncodeDevice(h.captureDevice))
                         + EncodeTail(h)
  {
    AppendAssoc(U32(RecordLength(h) + h.representationDataLength), EncodeTimestamp(h.captureTimestamp),
                EncodeDevice(h.captureDevice));
  }

  // ---------------------------------------------------------------- decode

  function DecodeTimestamp(s: seq<byte>, pos: nat): (r: Result<Parsed<CaptureTimestamp>>)
    ensures r.Ok? <==> pos + TIMESTAMP_LENGTH <= |s|
    ensures r.Ok? ==> r.value.next == pos + TIMESTAMP_LENGTH
  {
    var year :- ReadUnsigned(s, pos, 2);
    var month :- ReadUnsigned(s, year.next, 1);
    var day :- ReadUnsigned(s, month.next, 1);
    var hour :- ReadUnsigned(s, day.next, 1);
    var minute :- ReadUnsigned(s, hour.next, 1);
    var second :- ReadUnsigned(s, minute.next, 1);
    var milliSecond :- ReadUnsigned(s, second.next, 2);
    Ok(Parsed(CaptureTimestamp(year.value, month.value, day.value, hour.value, minute.value,
                               second.value, milliSecond.value), milliSecond.next))
  }

  /** The timestamp fields lie at fixed offsets from pos. */
  lemma DecodeTimestampFields(s: seq<byte>, pos: nat)
    requires pos + TIMESTAMP_LENGTH <= |s|
    ensures DecodeTimestamp(s, pos) == Ok(Parsed(CaptureTimestamp(
              ReadUnsigned(s, pos, 2).value.value, ReadUnsigned(s, pos + 2, 1).value.value,
              ReadUnsigned(s, pos + 3, 1).value.value, ReadUnsigned(s, pos + 4, 1).value.value,
              ReadUnsigned(s, pos + 5, 1).value.value, ReadUnsigned(s, pos + 6, 1).value.value,
              ReadUnsigned(s, pos + 7, 2).value.value), pos + TIMESTAMP_LENGTH))
  {
  }

  /** Any 16-bit vendor or type identifier is kept as read. */
  function DecodeDevice(s: seq<byte>, pos: nat): (r: Result<Parsed<CaptureDevice>>)
    ensures r.Ok? <==> pos + DEVICE_LENGTH <= |s|
    ensures r.Ok? ==> r.value.next == pos + DEVICE_LENGTH
  {
    var technology :- ReadUnsigned(s, pos, 1);
    var vendor :- ReadUnsigned(s, technology.next, 2);
    var deviceType :- ReadUnsigned(s, vendor.next, 2);
    Ok(Parsed(CaptureDevice(technology.value, vendor.value, deviceType.value), deviceType.next))
  }

  /** The loop that reads `n` quality blocks one after another. */
  function DecodeQualityBlocks(s: seq<byte>, pos: nat, n: nat, onlyImageInformation: bool)
    : (r: Result<Parsed<seq<QualityBlock>>>)
    requires pos <= |s|
    ensures r.Ok? <==> pos + QUALITY_BLOCK_LENGTH * n <= |s|
    ensures r.Ok? ==> |r.value.value| == n && r.value.next == pos + QUALITY_BLOCK_LENGTH * n
  {
    if n == 0 then Ok(Parsed([], pos))
    else
      var front :- DecodeQualityBlocks(s, pos, n - 1, onlyImageInformation);
      var last :- DecodeQualityBlock(s, front.next, onlyImageInformation);
      Ok(Parsed(front.value + [last.value], last.next))
  }

  /** The fields after the device identifiers, which both decoders read. */
  datatype Tail = Tail(noOfQualityBlocks: int, qualityBlocks: Option<seq<QualityBlock>>,
                       representationNo: int, imageInformation: ImageInformation)

  /** The block count, the blocks, the representation number and the image
      information, read from pos on. */
  function DecodeTail(s: seq<byte>, pos: nat, onlyImageInformation: bool): (r: Result<Parsed<Tail>>)
    requires pos <= |s|
    ensures r.Ok? <==> pos < |s| && pos + 1 + QUALITY_BLOCK_LENGTH * s[pos] + 2 + IMAGE_INFORMATION_LENGTH <= |s|
    ensures r.Ok? ==> r.value.next == pos + 1 + QUALITY_BLOCK_LENGTH * s[pos] + 2 + IMAGE_INFORMATION_LENGTH
    ensures r.Ok? ==> r.value.value.noOfQualityBlocks == s[pos] &&
                      r.value.value.qualityBlocks.Some? && |r.value.value.qualityBlocks.value| == s[pos]
  {
    var count :- ReadUnsigned(s, pos, 1);
    assert count.value == s[pos] by {
      assert s[pos..pos + 1][..0] == [];
    }
    var blocks :- DecodeQualityBlocks(s, count.next, count.value, onlyImageInformation);
    var number :- ReadUnsigned(s, blocks.next, 2);
    var info :- DecodeImageInformation(s, number.next, onlyImageInformation);
    Ok(Parsed(Tail(count.value, Some(blocks.value), number.value, info.value), info.next))
  }

  /** DecodeTail from the results of its four steps. */
  lemma DecodeTailSteps(s: seq<byte>, pos: nat, onlyImageInformation: bool, count: nat, blocks: seq<QualityBlock>,
                        blocksEnd: nat, number: nat, info: ImageInformation, next: nat)
    requires ReadUnsigned(s, pos, 1) == Ok(Parsed(count, pos + 1))
    requires pos + 1 <= |s| && DecodeQualityBlocks(s, pos + 1, count, onlyImageInformation) == Ok(Parsed(blocks, blocksEnd))
    requires ReadUnsigned(s, blocksEnd, 2) == Ok(Parsed(number, blocksEnd + 2))
    requires DecodeImageInformation(s, blocksEnd + 2, onlyImageInformation) == Ok(Parsed(info, next))
    requires pos <= |s|
    ensures DecodeTail(s, pos, onlyImageInformation) == Ok(Parsed(Tail(count, Some(blocks), number, info), next))
  {
  }

  /** Where the representation number and the image information of a tail come from. */
  lemma TailFields(s: seq<byte>, pos: nat, onlyImageInformation: bool)
    requires pos <= |s| && DecodeTail(s, pos, onlyImageInformation).Ok?
    ensures var tail := DecodeTail(s, pos, onlyImageInformation).value.value;
            var numberAt := pos + 1 + QUALITY_BLOCK_LENGTH * s[pos];
            tail.representationNo == BigEndian(s[numberAt..numberAt + 2]) &&
            tail.imageInformation.body == s[numberAt + 2..numberAt + 2 + IMAGE_INFORMATION_LENGTH]
  {
    ReadByte(s, pos);
  }

  /** Enough input for a whole record: the count byte is there and so is
      everything it implies. */
  predicate Complete(s: seq<byte>, pos: nat) {
    pos + 19 <= |s| && pos + FIXED_LENGTH + QUALITY_BLOCK_LENGTH * s[pos + 18] <= |s|
  }

  /** readObject(inputStream): every field in wire order. */
  function DecodeFull(s: seq<byte>, pos: nat): (r: Result<Parsed<Header>>)
    ensures r.Ok? <==> Complete(s, pos)
    ensures r.Ok? ==> r.value.next == pos + FIXED_LENGTH + QUALITY_BLOCK_LENGTH * s[pos + 18]
    ensures r.Ok? ==> CountConsistent(r.value.value) && r.value.value.noOfQualityBlocks < 0x100
  {
    var length :- ReadUnsigned(s, pos, 4);
    var stamp :- DecodeTimestamp(s, length.next);
    var device :- DecodeDevice(s, stamp.next);
    var tail :- DecodeTail(s, device.next, false);
    Ok(Parsed(Header(length.value, stamp.value, device.value, tail.value.noOfQualityBlocks,
                     tail.value.qualityBlocks, tail.value.representationNo, tail.value.imageInformation),
              tail.next))
  }

  /** DecodeFull from the results of its four steps. */
  lemma DecodeFullSteps(s: seq<byte>, pos: nat, length: nat, stamp: CaptureTimestamp, device: CaptureDevice,
                        tail: Tail, next: nat)
    requires ReadUnsigned(s, pos, 4) == Ok(Parsed(length, pos + 4))
    requires DecodeTimestamp(s, pos + 4) == Ok(Parsed(stamp, pos + 4 + TIMESTAMP_LENGTH))
    requires DecodeDevice(s, pos + 13) == Ok(Parsed(device, pos + 13 + DEVICE_LENGTH))
    requires pos + 18 <= |s| && DecodeTail(s, pos + 18, false) == Ok(Parsed(tail, next))
    ensures DecodeFull(s, pos) == Ok(Parsed(Header(length, stamp, device, tail.noOfQualityBlocks, tail.qualityBlocks,
                                                   tail.representationNo, tail.imageInformation), next))
  {
  }

  /** readObject(inputStream, onlyImageInformation): the timestamp and the
      device identifiers are skipped, not read, and keep their defaults,
      whatever the flag says; the flag only reaches the sub-record decoders. */
  function DecodePartial(s: seq<byte>, pos: nat, onlyImageInformation: bool): (r: Result<Parsed<Header>>)
    ensures r.Ok? <==> Complete(s, pos)
    ensures r.Ok? ==> r.value.value.captureTimestamp == NO_TIMESTAMP && r.value.value.captureDevice == NO_DEVICE
    ensures r.Ok? ==> CountConsistent(r.value.value) && r.value.value.noOfQualityBlocks < 0x100
  {
    var length :- ReadUnsigned(s, pos, 4);
    var tail :- DecodeTail(s, Skipped(|s|, length.next, SKIPPED_LENGTH), onlyImageInformation);
    Ok(Parsed(Header(length.value, NO_TIMESTAMP, NO_DEVICE, tail.value.noOfQualityBlocks,
                     tail.value.qualityBlocks, tail.value.representationNo, tail.value.imageInformation),
              tail.next))
  }
}
