/** What the representation header's codec guarantees: the record comes back
    from its own encoding (with the month and length-field offsets the
    encoder applies), the fields sit at their offsets in the wire layout,
    and the "only image information" decoder stays byte-compatible with
    the full one. */
module HeaderProperties {
  import opened Bytes
  import opened SubRecords
  import opened HeaderFormat

  predicate FitsU8(v: int) { 0 <= v < 0x100 }
  predicate FitsU16(v: int) { 0 <= v < U16_RANGE }

  /** Every timestamp field fits its wire width; the month as written, that is plus one. */
  predicate TimestampFits(t: CaptureTimestamp) {
    FitsU16(t.year) && FitsU8(t.month + 1) && FitsU8(t.day) && FitsU8(t.hour) &&
    FitsU8(t.minute) && FitsU8(t.second) && FitsU16(t.milliSecond)
  }

  predicate DeviceFits(d: CaptureDevice) {
    FitsU8(d.technology) && FitsU16(d.vendor) && FitsU16(d.deviceType)
  }

  /** A header whose every field survives the wire unchanged. */
  predicate Representable(h: Header) {
    TimestampFits(h.captureTimestamp) && DeviceFits(h.captureDevice) &&
    CountConsistent(h) && FitsU8(h.noOfQualityBlocks) && FitsU16(h.representationNo)
  }

  /** What the full decoder returns for the encoding of h: the month comes
      back one higher, and the length field becomes the wire total. */
  function AfterRoundTrip(h: Header): Header {
    h.(representationDataLength := (RecordLength(h) + h.representationDataLength) % U32_RANGE,
       captureTimestamp := h.captureTimestamp.(month := h.captureTimestamp.month + 1))
  }

  lemma TimestampRoundTrip(s: seq<byte>, pos: nat, t: CaptureTimestamp)
    requires TimestampFits(t) && At(s, pos, EncodeTimestamp(t))
    ensures DecodeTimestamp(s, pos) == Ok(Parsed(t.(month := t.month + 1), pos + TIMESTAMP_LENGTH))
  {
    var year, month, day, hour := U16(t.year), U8(t.month + 1), U8(t.day), U8(t.hour);
    var minute, second, milli := U8(t.minute), U8(t.second), U16(t.milliSecond);
    AtSplit(s, pos, year + month + day + hour + minute + second, milli);
    AtSplit(s, pos, year + month + day + hour + minute, second);
    AtSplit(s, pos, year + month + day + hour, minute);
    AtSplit(s, pos, year + month + day, hour);
    AtSplit(s, pos, year + month, day);
    AtSplit(s, pos, year, month);
    RoundTripU16(s, pos, t.year);
    RoundTripU8(s, pos + 2, t.month + 1);
    RoundTripU8(s, pos + 3, t.day);
    RoundTripU8(s, pos + 4, t.hour);
    RoundTripU8(s, pos + 5, t.minute);
    RoundTripU8(s, pos + 6, t.second);
    RoundTripU16(s, pos + 7, t.milliSecond);
  }

  lemma DeviceRoundTrip(s: seq<byte>, pos: nat, d: CaptureDevice)
    requires DeviceFits(d) && At(s, pos, EncodeDevice(d))
    ensures DecodeDevice(s, pos) == Ok(Parsed(d, pos + DEVICE_LENGTH))
  {
    var technology, vendor, deviceType := U8(d.technology), U16(d.vendor), U16(d.deviceType);
    AtSplit(s, pos, technology + vendor, deviceType);
    AtSplit(s, pos, technology, vendor);
    RoundTripU8(s, pos, d.technology);
    RoundTripU16(s, pos + 1, d.vendor);
    RoundTripU16(s, pos + 3, d.deviceType);
  }

  lemma {:induction false} QualityBlocksRoundTrip(s: seq<byte>, pos: nat, bs: seq<QualityBlock>, onlyImageInformation: bool)
    requires At(s, pos, EncodeQualityBlocks(bs))
    ensures DecodeQualityBlocks(s, pos, |bs|, onlyImageInformation) == Ok(Parsed(bs, pos + QUALITY_BLOCK_LENGTH * |bs|))
  {
    if bs != [] {
      var front, last := bs[..|bs| - 1], bs[|bs| - 1];
      var lastAt := pos + QUALITY_BLOCK_LENGTH * |front|;
      assert lastAt + QUALITY_BLOCK_LENGTH == pos + QUALITY_BLOCK_LENGTH * |bs|;
      AtSplit(s, pos, EncodeQualityBlocks(front), EncodeQualityBlock(last));
      QualityBlocksRoundTrip(s, pos, front, onlyImageInformation);
      QualityBlockRoundTrip(s, lastAt, last, onlyImageInformation);
      assert DecodeQualityBlocks(s, pos, |bs| - 1, onlyImageInformation) == Ok(Parsed(front, lastAt));
      assert front + [last] == bs;
    }
  }

  /** Where each piece of the encoding lies: its offset in the wire layout. */
  lemma EncodeLayout(h: Header, s: seq<byte>, pos: nat)
    requires At(s, pos, Encode(h))
    ensures At(s, pos, U32(RecordLength(h) + h.representationDataLength))
    ensures At(s, pos + 4, EncodeTimestamp(h.captureTimestamp))
    ensures At(s, pos + 13, EncodeDevice(h.captureDevice))
    ensures At(s, pos + 18, EncodeTail(h))
  {
    var length := U32(RecordLength(h) + h.representationDataLength);
    var stamp, device := EncodeTimestamp(h.captureTimestamp), EncodeDevice(h.captureDevice);
    AtSplit(s, pos, length + stamp + device, EncodeTail(h));
    AtSplit(s, pos, length + stamp, device);
    AtSplit(s, pos, length, stamp);
  }

  /** Where each piece of the tail lies. */
  lemma TailLayout(h: Header, s: seq<byte>, pos: nat)
    requires At(s, pos, EncodeTail(h))
    ensures At(s, pos, U8(h.noOfQualityBlocks))
    ensures At(s, pos + 1, EncodeQualityBlocks(Blocks(h)))
    ensures At(s, pos + 1 + QUALITY_BLOCK_LENGTH * |Blocks(h)|, U16(h.representationNo))
    ensures At(s, pos + 3 + QUALITY_BLOCK_LENGTH * |Blocks(h)|, EncodeImageInformation(h.imageInformation))
  {
    var count, blocks := U8(h.noOfQualityBlocks), EncodeQualityBlocks(Blocks(h));
    var number, info := U16(h.representationNo), EncodeImageInformation(h.imageInformation);
    AtSplit(s, pos, count + blocks + number, info);
    AtSplit(s, pos, count + blocks, number);
    AtSplit(s, pos, count, blocks);
  }

  /** The fields after the device identifiers come back unchanged, in either
      decoding mode. */
  lemma TailRoundTrip(h: Header, s: seq<byte>, pos: nat, onlyImageInformation: bool)
    requires CountConsistent(h) && FitsU8(h.noOfQualityBlocks) && FitsU16(h.representationNo)
    requires At(s, pos, EncodeTail(h))
    ensures DecodeTail(s, pos, onlyImageInformation)
            == Ok(Parsed(Tail(h.noOfQualityBlocks, h.qualityBlocks, h.representationNo, h.imageInformation),
                         pos + |EncodeTail(h)|))
  {
    var bs := Blocks(h);
    var numberAt := pos + 1 + QUALITY_BLOCK_LENGTH * |bs|;
    var next := numberAt + 2 + IMAGE_INFORMATION_LENGTH;
    TailLayout(h, s, pos);
    RoundTripU8(s, pos, h.noOfQualityBlocks);
    QualityBlocksRoundTrip(s, pos + 1, bs, onlyImageInformation);
    RoundTripU16(s, numberAt, h.representationNo);
    ImageInformationRoundTrip(s, numberAt + 2, h.imageInformation, onlyImageInformation);
    DecodeTailSteps(s, pos, onlyImageInformation, h.noOfQualityBlocks, bs, numberAt, h.representationNo,
                    h.imageInformation, next);
    assert Some(bs) == h.qualityBlocks;
  }

  /** Full decode after encode, wherever the encoding lies in the input:
      every field comes back unchanged except the month, which comes back
      as the wire byte (stored month plus one), and the length field, which
      comes back as the wire total; the decoder stops right after the record. */
  lemma DecodeFullEncode(h: Header, s: seq<byte>, pos: nat)
    requires Representable(h) && At(s, pos, Encode(h))
    ensures DecodeFull(s, pos) == Ok(Parsed(AfterRoundTrip(h), pos + RecordLength(h)))
  {
    EncodeLayout(h, s, pos);
    DecodeFullPieces(h, s, pos);
  }

  /** AfterRoundTrip field by field. */
  lemma AfterRoundTripFields(h: Header)
    ensures AfterRoundTrip(h)
            == Header((RecordLength(h) + h.representationDataLength) % U32_RANGE,
                      h.captureTimestamp.(month := h.captureTimestamp.month + 1), h.captureDevice,
                      h.noOfQualityBlocks, h.qualityBlocks, h.representationNo, h.imageInformation)
  {
  }

  /** The tail starts 18 bytes into the record and runs to its end. */
  lemma TailLength(h: Header)
    ensures 18 + |EncodeTail(h)| == RecordLength(h)
  {
  }

  /** DecodeFullEncode with the layout of the encoding as the premise. */
  lemma DecodeFullPieces(h: Header, s: seq<byte>, pos: nat)
    requires Representable(h)
    requires At(s, pos, U32(RecordLength(h) + h.representationDataLength))
    requires At(s, pos + 4, EncodeTimestamp(h.captureTimestamp))
    requires At(s, pos + 13, EncodeDevice(h.captureDevice))
    requires At(s, pos + 18, EncodeTail(h))
    ensures DecodeFull(s, pos) == Ok(Parsed(AfterRoundTrip(h), pos + RecordLength(h)))
  {
    var total := RecordLength(h) + h.representationDataLength;
    var t := h.captureTimestamp;
    RoundTripU32(s, pos, total);
    TimestampRoundTrip(s, pos + 4, t);
    DeviceRoundTrip(s, pos + 13, h.captureDevice);
    TailRoundTrip(h, s, pos + 18, false);
    var tail := Tail(h.noOfQualityBlocks, h.qualityBlocks, h.representationNo, h.imageInformation);
    var next := pos + 18 + |EncodeTail(h)|;
    DecodeFullSteps(s, pos, total % U32_RANGE, t.(month := t.month + 1), h.captureDevice, tail, next);
    DecodedIsAfterRoundTrip(h, DecodeFull(s, pos), pos, tail, next);
  }

  /** The value DecodeFullSteps assembles is AfterRoundTrip(h), ending where the record ends. */
  lemma DecodedIsAfterRoundTrip(h: Header, r: Result<Parsed<Header>>, pos: nat, tail: Tail, next: nat)
    requires tail == Tail(h.noOfQualityBlocks, h.qualityBlocks, h.representationNo, h.imageInformation)
    requires next == pos + 18 + |EncodeTail(h)|
    requires var t := h.captureTimestamp;
             r == Ok(Parsed(Header((RecordLength(h) + h.representationDataLength) % U32_RANGE, t.(month := t.month + 1),
                                   h.captureDevice, tail.noOfQualityBlocks, tail.qualityBlocks, tail.representationNo,
                                   tail.imageInformation),
                            next))
    ensures r == Ok(Parsed(AfterRoundTrip(h), pos + RecordLength(h)))
  {
    AfterRoundTripFields(h);
    TailLength(h);
  }

  /** The first four bytes of an encoding declare the record's own length
      plus the payload length, modulo 2^32. */
  lemma LengthField(h: Header)
    ensures |Encode(h)| >= 4
    ensures BigEndian(Encode(h)[..4]) == (RecordLength(h) + h.representationDataLength) % U32_RANGE
  {
    var e := Encode(h);
    assert At(e, 0, e) by {
      assert e[0..|e|] == e;
    }
    EncodeLayout(h, e, 0);
    assert e[..4] == U32(RecordLength(h) + h.representationDataLength);
    U32Value(RecordLength(h) + h.representationDataLength);
  }

  /** The month byte of an encoding is the stored month plus one, cut to 8 bits. */
  lemma MonthByte(h: Header)
    ensures |Encode(h)| > 6 && Encode(h)[6] == (h.captureTimestamp.month + 1) % 0x100
  {
    var e := Encode(h);
    assert At(e, 0, e) by {
      assert e[0..|e|] == e;
    }
    EncodeLayout(h, e, 0);
    var stamp := EncodeTimestamp(h.captureTimestamp);
    assert e[4..13] == stamp;
    assert stamp[2] == U8(h.captureTimestamp.month + 1)[0];
    assert e[6] == e[4..13][2];
  }

  /** The month is written as the stored value plus one and read back as
      written (AfterRoundTrip is what DecodeFullEncode shows the decoder
      returns), so a decoded record that is written again carries its month
      two higher than the original record stored. */
  lemma ReencodeShiftsMonth(h: Header)
    requires FitsU8(h.captureTimestamp.month + 1) && FitsU8(h.captureTimestamp.month + 2)
    ensures Encode(h)[6] == h.captureTimestamp.month + 1
    ensures AfterRoundTrip(h).captureTimestamp.month == h.captureTimestamp.month + 1
    ensures Encode(AfterRoundTrip(h))[6] == h.captureTimestamp.month + 2
  {
    MonthByte(h);
    MonthByte(AfterRoundTrip(h));
  }

  lemma AddMod32(a: int, b: int)
    ensures (a + b % U32_RANGE) % U32_RANGE == (a + b) % U32_RANGE
  {
  }

  /** The decoder keeps the wire total (header plus payload) as the payload
      length, so a decoded record that is written again declares a total
      that counts the header twice. */
  lemma ReencodeGrowsLength(h: Header)
    ensures AfterRoundTrip(h).representationDataLength == (RecordLength(h) + h.representationDataLength) % U32_RANGE
    ensures BigEndian(Encode(AfterRoundTrip(h))[..4]) == (2 * RecordLength(h) + h.representationDataLength) % U32_RANGE
  {
    var d := AfterRoundTrip(h);
    var total := RecordLength(h) + h.representationDataLength;
    assert Blocks(d) == Blocks(h);
    LengthField(d);
    AddMod32(RecordLength(h), total);
  }

  /** With no quality blocks and a 1024-byte payload the length field reads 1072. */
  lemma NoQualityBlocksLengthField(h: Header)
    requires Blocks(h) == [] && h.representationDataLength == 1024
    ensures RecordLength(h) == 48
    ensures BigEndian(Encode(h)[..4]) == 1072
  {
    LengthField(h);
  }

  /** Where each field the full decoder returns comes from: its offset in the
      wire layout, all read unsigned big-endian. Vendor and type identifiers
      are kept whatever their 16-bit value. */
  lemma DecodeFullFields(s: seq<byte>, pos: nat)
    requires DecodeFull(s, pos).Ok?
    ensures var h := DecodeFull(s, pos).value.value;
            var n := s[pos + 18];
            var tail := pos + 19 + QUALITY_BLOCK_LENGTH * n;
            h.representationDataLength == BigEndian(s[pos..pos + 4]) &&
            h.captureTimestamp == CaptureTimestamp(BigEndian(s[pos + 4..pos + 6]), s[pos + 6], s[pos + 7],
                                                   s[pos + 8], s[pos + 9], s[pos + 10],
                                                   BigEndian(s[pos + 11..pos + 13])) &&
            h.captureDevice == CaptureDevice(s[pos + 13], BigEndian(s[pos + 14..pos + 16]),
                                             BigEndian(s[pos + 16..pos + 18])) &&
            h.noOfQualityBlocks == n &&
            h.representationNo == BigEndian(s[tail..tail + 2]) &&
            h.imageInformation.body == s[tail + 2..tail + 2 + IMAGE_INFORMATION_LENGTH]
  {
    var stamp := CaptureTimestamp(BigEndian(s[pos + 4..pos + 6]), s[pos + 6], s[pos + 7], s[pos + 8], s[pos + 9],
                                  s[pos + 10], BigEndian(s[pos + 11..pos + 13]));
    var device := CaptureDevice(s[pos + 13], BigEndian(s[pos + 14..pos + 16]), BigEndian(s[pos + 16..pos + 18]));
    DecodeTimestampFields(s, pos + 4);
    ReadByte(s, pos + 6);
    ReadByte(s, pos + 7);
    ReadByte(s, pos + 8);
    ReadByte(s, pos + 9);
    ReadByte(s, pos + 10);
    ReadByte(s, pos + 13);
    assert DecodeDevice(s, pos + 13) == Ok(Parsed(device, pos + 13 + DEVICE_LENGTH));
    TailFields(s, pos + 18, false);
    var tail := DecodeTail(s, pos + 18, false).value;
    DecodeFullSteps(s, pos, BigEndian(s[pos..pos + 4]), stamp, device, tail.value, tail.next);
  }

  /** A vendor identifier of 0xFFFF, outside every known enumeration value,
      is decoded without failing and kept as read. */
  lemma UnknownVendorKept(s: seq<byte>, pos: nat)
    requires DecodeFull(s, pos).Ok? && s[pos + 14] == 0xFF && s[pos + 15] == 0xFF
    ensures DecodeFull(s, pos).value.value.captureDevice.vendor == 0xFFFF
  {
    DecodeFullFields(s, pos);
    var vendor := s[pos + 14..pos + 16];
    assert vendor[..1][..0] == [];
    assert vendor[..1] == [0xFF];
  }

  /** Each decoded quality block is the five bytes at its slot. */
  lemma {:induction false} DecodeQualityBlocksSlots(s: seq<byte>, pos: nat, n: nat, onlyImageInformation: bool, i: nat)
    requires pos <= |s| && DecodeQualityBlocks(s, pos, n, onlyImageInformation).Ok? && i < n
    ensures var start := pos + QUALITY_BLOCK_LENGTH * i;
            DecodeQualityBlocks(s, pos, n, onlyImageInformation).value.value[i].body
              == s[start..start + QUALITY_BLOCK_LENGTH]
  {
    if i < n - 1 {
      DecodeQualityBlocksSlots(s, pos, n - 1, onlyImageInformation, i);
    }
  }

  /** The "only image information" decoder succeeds on exactly the inputs the
      full decoder succeeds on, consumes the same bytes, and agrees with it on
      the length field, the block count and the representation number; the
      skipped timestamp and device fields stay at their defaults. */
  lemma PartialConsumesSameBytes(s: seq<byte>, pos: nat, onlyImageInformation: bool)
    ensures DecodePartial(s, pos, onlyImageInformation).Ok? <==> DecodeFull(s, pos).Ok?
    ensures DecodeFull(s, pos).Ok? ==>
              var full, part := DecodeFull(s, pos).value, DecodePartial(s, pos, onlyImageInformation).value;
              part.next == full.next &&
              part.value.representationDataLength == full.value.representationDataLength &&
              part.value.noOfQualityBlocks == full.value.noOfQualityBlocks &&
              |part.value.qualityBlocks.value| == |full.value.qualityBlocks.value| &&
              part.value.representationNo == full.value.representationNo &&
              part.value.captureTimestamp == NO_TIMESTAMP && part.value.captureDevice == NO_DEVICE
  {
  }

  /** Input shorter than the 48-byte skeleton is rejected by both decoders. */
  lemma TruncatedInputFails(s: seq<byte>, pos: nat, onlyImageInformation: bool)
    requires |s| < pos + FIXED_LENGTH
    ensures DecodeFull(s, pos) == Err(UnexpectedEndOfInput)
    ensures DecodePartial(s, pos, onlyImageInformation) == Err(UnexpectedEndOfInput)
  {
  }
}
