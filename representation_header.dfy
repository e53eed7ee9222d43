/** The RepresentationHeader object: a bag of fields that the decoders fill
    in while advancing an input stream, and that the encoder writes out to
    an output stream. Every method is proved against the functions of
    HeaderFormat through Abs(), the record value the fields hold. Java's
    getters and setters are plain reads and writes of these fields. */
module Iris {
  import opened Bytes
  import opened Streams
  import opened SubRecords
  import opened HeaderFormat
  import HeaderProperties

  /** Stands for the null ImageInformation reference a header holds before a
      decoder sets it: 27 zero bytes, since the model has no null record. */
  const NO_IMAGE_INFORMATION: ImageInformation :=
    ImageInformation([0, 0, 0, 0, 0, 0, 0, 0, 0, 0, 0, 0, 0, 0, 0, 0, 0, 0, 0, 0, 0, 0, 0, 0, 0, 0, 0])

  class RepresentationHeader {
    var representationDataLength: int

    var captureYear: int
    var captureMonth: int
    var captureDay: int
    var captureHour: int
    var captureMinute: int
    var captureSecond: int
    var captureMilliSecond: int

    var captureDeviceTechnologyIdentifier: int
    var captureDeviceVendorIdentifier: int
    var captureDeviceTypeIdentifier: int

    var noOfQualityBlocks: int
    var qualityBlocks: Option<seq<QualityBlock>>
    var imageInformation: ImageInformation
    var representationNo: int

    /** The record the fields currently hold. */
    function Abs(): Header
      reads this
    {
      Header(representationDataLength,
             CaptureTimestamp(captureYear, captureMonth, captureDay, captureHour, captureMinute,
                              captureSecond, captureMilliSecond),
             CaptureDevice(captureDeviceTechnologyIdentifier, captureDeviceVendorIdentifier,
                           captureDeviceTypeIdentifier),
             noOfQualityBlocks, qualityBlocks, representationNo, imageInformation)
    }

    /** Builds a record from its fields, with every capture device identifier
        unspecified; the block count is taken from the block array. The
        timestamp is given as its seven fields, month zero-based. */
    constructor (representationDataLength: int, captureDate: CaptureTimestamp,
                 qualityBlocks: seq<QualityBlock>, imageInformation: ImageInformation,
                 representationNo: int)
      ensures Abs() == Header(representationDataLength, captureDate,
                              CaptureDevice(TECHNOLOGY_UNSPECIFIED, VENDOR_UNSPECIFIED, TYPE_UNSPECIFIED),
                              |qualityBlocks|, Some(qualityBlocks), representationNo, imageInformation)
      ensures CountConsistent(Abs())
    {
      this.representationDataLength := representationDataLength;
      captureYear := captureDate.year;
      captureMonth := captureDate.month;
      captureDay := captureDate.day;
      captureHour := captureDate.hour;
      captureMinute := captureDate.minute;
      captureSecond := captureDate.second;
      captureMilliSecond := captureDate.milliSecond;
      captureDeviceTechnologyIdentifier := TECHNOLOGY_UNSPECIFIED;
      captureDeviceVendorIdentifier := VENDOR_UNSPECIFIED;
      captureDeviceTypeIdentifier := TYPE_UNSPECIFIED;
      noOfQualityBlocks := |qualityBlocks|;
      this.qualityBlocks := Some(qualityBlocks);
      this.imageInformation := imageInformation;
      this.representationNo := representationNo;
    }

    /** The same, with the capture device identifiers given; they are stored
        as given, without being checked against any enumeration. */
    constructor WithDevice(representationDataLength: int, captureDate: CaptureTimestamp,
                           captureDeviceTechnologyIdentifier: int, captureDeviceVendorIdentifier: int,
                           captureDeviceTypeIdentifier: int, qualityBlocks: seq<QualityBlock>,
                           imageInformation: ImageInformation, representationNo: int)
      ensures Abs() == Header(representationDataLength, captureDate,
                              CaptureDevice(captureDeviceTechnologyIdentifier, captureDeviceVendorIdentifier,
                                            captureDeviceTypeIdentifier),
                              |qualityBlocks|, Some(qualityBlocks), representationNo, imageInformation)
      ensures CountConsistent(Abs())
    {
      this.representationDataLength := representationDataLength;
      captureYear := captureDate.year;
      captureMonth := captureDate.month;
      captureDay := captureDate.day;
      captureHour := captureDate.hour;
      captureMinute := captureDate.minute;
      captureSecond := captureDate.second;
      captureMilliSecond := captureDate.milliSecond;
      this.captureDeviceTechnologyIdentifier := captureDeviceTechnologyIdentifier;
      this.captureDeviceVendorIdentifier := captureDeviceVendorIdentifier;
      this.captureDeviceTypeIdentifier := captureDeviceTypeIdentifier;
      noOfQualityBlocks := |qualityBlocks|;
      this.qualityBlocks := Some(qualityBlocks);
      this.imageInformation := imageInformation;
      this.representationNo := representationNo;
    }

    /** An object as Java allocates it before a stream constructor runs
        readObject: every field at its default and a null block array, with
        NO_IMAGE_INFORMATION standing for the null image information. */
    constructor Empty()
      ensures Abs() == Header(0, NO_TIMESTAMP, NO_DEVICE, 0, None, 0, NO_IMAGE_INFORMATION)
    {
      representationDataLength := 0;
      captureYear, captureMonth, captureDay, captureHour := 0, 0, 0, 0;
      captureMinute, captureSecond, captureMilliSecond := 0, 0, 0;
      captureDeviceTechnologyIdentifier, captureDeviceVendorIdentifier, captureDeviceTypeIdentifier := 0, 0, 0;
      noOfQualityBlocks := 0;
      qualityBlocks := None;
      imageInformation := NO_IMAGE_INFORMATION;
      representationNo := 0;
    }

    /** readObject(inputStream): reads every field in wire order. It succeeds
        exactly when DecodeFull does, and then holds the record DecodeFull
        returns, with the stream just past it. */
    method ReadObject(input: DataInput) returns (ok: bool)
      requires input.Valid()
      modifies this, input
      ensures input.Valid()
      ensures ok <==> DecodeFull(input.data, old(input.pos)).Ok?
      ensures ok ==> Abs() == DecodeFull(input.data, old(input.pos)).value.value &&
                     input.pos == DecodeFull(input.data, old(input.pos)).value.next
    {
      var length := input.ReadInt();
      if length.Err? {
        return false;
      }
      representationDataLength := length.value % U32_RANGE;
      ok := ReadCaptureFields(input);
      if !ok {
        return;
      }
      ok := ReadBlocksAndTail(input, false);
    }

    /** The timestamp and the capture device identifiers, in wire order. */
    method ReadCaptureFields(input: DataInput) returns (ok: bool)
      requires input.Valid()
      modifies this`captureYear, this`captureMonth, this`captureDay, this`captureHour,
               this`captureMinute, this`captureSecond, this`captureMilliSecond,
               this`captureDeviceTechnologyIdentifier, this`captureDeviceVendorIdentifier,
               this`captureDeviceTypeIdentifier, input
      ensures input.Valid()
      ensures var t := DecodeTimestamp(input.data, old(input.pos));
              var d := DecodeDevice(input.data, old(input.pos) + TIMESTAMP_LENGTH);
              (ok <==> t.Ok? && d.Ok?) && (!ok ==> input.pos == |input.data|) &&
              (ok ==> Abs().captureTimestamp == t.value.value && Abs().captureDevice == d.value.value &&
                      input.pos == d.value.next)
    {
      ok := ReadCaptureTimestamp(input);
      if !ok {
        return;
      }
      ok := ReadCaptureDevice(input);
    }

    /** The seven timestamp fields of readObject, each stored as read (the
        month too: it stays one-based). */
    method ReadCaptureTimestamp(input: DataInput) returns (ok: bool)
      requires input.Valid()
      modifies this`captureYear, this`captureMonth, this`captureDay, this`captureHour,
               this`captureMinute, this`captureSecond, this`captureMilliSecond, input
      ensures input.Valid()
      ensures var d := DecodeTimestamp(input.data, old(input.pos));
              (ok <==> d.Ok?) && (!ok ==> input.pos == |input.data|) &&
              (ok ==> Abs().captureTimestamp == d.value.value && input.pos == d.value.next)
    {
      ghost var start := input.pos;
      ok := ReadCaptureDate(input);
      if !ok {
        return;
      }
      ok := ReadCaptureTime(input);
      if ok {
        DecodeTimestampFields(input.data, start);
      }
    }

    /** Year, month and day: the first four timestamp bytes. */
    method ReadCaptureDate(input: DataInput) returns (ok: bool)
      requires input.Valid()
      modifies this`captureYear, this`captureMonth, this`captureDay, input
      ensures input.Valid()
      ensures ok <==> old(input.pos) + 4 <= |input.data|
      ensures !ok ==> input.pos == |input.data|
      ensures ok ==> input.pos == old(input.pos) + 4 &&
                     captureYear == ReadUnsigned(input.data, old(input.pos), 2).value.value &&
                     captureMonth == ReadUnsigned(input.data, old(input.pos) + 2, 1).value.value &&
                     captureDay == ReadUnsigned(input.data, old(input.pos) + 3, 1).value.value
    {
      var year := input.ReadUnsignedShort();
      if year.Err? {
        return false;
      }
      var month := input.ReadUnsignedByte();
      if month.Err? {
        return false;
      }
      var day := input.ReadUnsignedByte();
      if day.Err? {
        return false;
      }
      captureYear, captureMonth, captureDay := year.value, month.value, day.value;
      ok := true;
    }

    /** Hour, minute, second and millisecond: the last five timestamp bytes. */
    method ReadCaptureTime(input: DataInput) returns (ok: bool)
      requires input.Valid()
      modifies this`captureHour, this`captureMinute, this`captureSecond, this`captureMilliSecond, input
      ensures input.Valid()
      ensures ok <==> old(input.pos) + 5 <= |input.data|
      ensures !ok ==> input.pos == |input.data|
      ensures ok ==> input.pos == old(input.pos) + 5 &&
                     captureHour == ReadUnsigned(input.data, old(input.pos), 1).value.value &&
                     captureMinute == ReadUnsigned(input.data, old(input.pos) + 1, 1).value.value &&
                     captureSecond == ReadUnsigned(input.data, old(input.pos) + 2, 1).value.value &&
                     captureMilliSecond == ReadUnsigned(input.data, old(input.pos) + 3, 2).value.value
    {
      var hour := input.ReadUnsignedByte();
      if hour.Err? {
        return false;
      }
      var minute := input.ReadUnsignedByte();
      if minute.Err? {
        return false;
      }
      var second := input.ReadUnsignedByte();
      if second.Err? {
        return false;
      }
      var milliSecond := input.ReadUnsignedShort();
      if milliSecond.Err? {
        return false;
      }
      captureHour, captureMinute, captureSecond := hour.value, minute.value, second.value;
      captureMilliSecond := milliSecond.value;
      ok := true;
    }

    /** The three capture device identifiers of readObject. Whatever 16-bit
        vendor or type value is read is stored: the setters only assign. */
    method ReadCaptureDevice(input: DataInput) returns (ok: bool)
      requires input.Valid()
      modifies this`captureDeviceTechnologyIdentifier, this`captureDeviceVendorIdentifier,
               this`captureDeviceTypeIdentifier, input
      ensures input.Valid()
      ensures var d := DecodeDevice(input.data, old(input.pos));
              (ok <==> d.Ok?) && (!ok ==> input.pos == |input.data|) &&
              (ok ==> Abs().captureDevice == d.value.value && input.pos == d.value.next)
    {
      var technology := input.ReadUnsignedByte();
      if technology.Err? {
        return false;
      }
      captureDeviceTechnologyIdentifier := technology.value;
      var vendor := input.ReadUnsignedShort();
      if vendor.Err? {
        return false;
      }
      captureDeviceVendorIdentifier := vendor.value;
      var deviceType := input.ReadUnsignedShort();
      if deviceType.Err? {
        return false;
      }
      captureDeviceTypeIdentifier := deviceType.value;
      ok := true;
    }

    /** readObject(inputStream, onlyImageInformation): reads the length,
        skips the 14 timestamp and device bytes whatever the flag says, and
        reads the rest, handing the flag to the sub-record readers. The
        skipped fields keep whatever values they had. */
    method ReadObjectPartial(input: DataInput, onlyImageInformation: bool) returns (ok: bool)
      requires input.Valid()
      modifies this, input
      ensures input.Valid()
      ensures ok <==> DecodePartial(input.data, old(input.pos), onlyImageInformation).Ok?
      ensures !ok ==> input.pos == |input.data|
      ensures ok ==> Abs() == DecodePartial(input.data, old(input.pos), onlyImageInformation).value.value.(
                                captureTimestamp := old(Abs()).captureTimestamp,
                                captureDevice := old(Abs()).captureDevice) &&
                     input.pos == DecodePartial(input.data, old(input.pos), onlyImageInformation).value.next
    {
      var length := input.ReadInt();
      if length.Err? {
        return false;
      }
      representationDataLength := length.value % U32_RANGE;
      var _ := input.SkipBytes(SKIPPED_LENGTH);
      ok := ReadBlocksAndTail(input, onlyImageInformation);
    }

    /** The part both readObject forms share: the block count, the blocks,
        the representation number and the image information. */
    method ReadBlocksAndTail(input: DataInput, onlyImageInformation: bool) returns (ok: bool)
      requires input.Valid()
      modifies this`noOfQualityBlocks, this`qualityBlocks, this`representationNo, this`imageInformation, input
      ensures input.Valid()
      ensures var d := DecodeTail(input.data, old(input.pos), onlyImageInformation);
              (ok <==> d.Ok?) && (!ok ==> input.pos == |input.data|) &&
              (ok ==> noOfQualityBlocks == d.value.value.noOfQualityBlocks &&
                      qualityBlocks == d.value.value.qualityBlocks &&
                      representationNo == d.value.value.representationNo &&
                      imageInformation == d.value.value.imageInformation &&
                      input.pos == d.value.next)
    {
      var count := input.ReadUnsignedByte();
      if count.Err? {
        return false;
      }
      noOfQualityBlocks := count.value;
      var blocks := ReadQualityBlocks(input, count.value, onlyImageInformation);
      if blocks.Err? {
        return false;
      }
      qualityBlocks := Some(blocks.value);

      var number := input.ReadUnsignedShort();
      if number.Err? {
        return false;
      }
      representationNo := number.value;
      var info := ReadImageInformation(input, onlyImageInformation);
      if info.Err? {
        return false;
      }
      imageInformation := info.value;
      ok := true;
    }

    /** The loop of readObject that reads the quality blocks one after another. */
    static method ReadQualityBlocks(input: DataInput, n: nat, onlyImageInformation: bool)
      returns (r: Result<seq<QualityBlock>>)
      requires input.Valid()
      modifies input
      ensures input.Valid()
      ensures var d := DecodeQualityBlocks(input.data, old(input.pos), n, onlyImageInformation);
              (r.Ok? <==> d.Ok?) && (r.Err? ==> input.pos == |input.data|) &&
              (r.Ok? ==> r.value == d.value.value && input.pos == d.value.next)
    {
      var blocks: seq<QualityBlock> := [];
      var index := 0;
      while index < n
        invariant 0 <= index <= n
        invariant input.Valid() && old(input.pos) <= input.pos
        invariant DecodeQualityBlocks(input.data, old(input.pos), index, onlyImageInformation)
                  == Ok(Parsed(blocks, input.pos))
        modifies input
      {
        var block := ReadQualityBlock(input, onlyImageInformation);
        if block.Err? {
          return Err(block.error);
        }
        blocks := blocks + [block.value];
        index := index + 1;
      }
      r := Ok(blocks);
    }

    /** getRecordLength: adds up the quality blocks' lengths in a loop. */
    method GetRecordLength() returns (length: int)
      ensures length == RecordLength(Abs())
      ensures length == FIXED_LENGTH + QUALITY_BLOCK_LENGTH * |Blocks(Abs())|
    {
      var qualityBlockRecordLength := 0;
      if qualityBlocks.Some? && |qualityBlocks.value| > 0 {
        var blocks := qualityBlocks.value;
        var index := 0;
        while index < |blocks|
          invariant 0 <= index <= |blocks|
          invariant qualityBlockRecordLength == QualityBlocksLength(blocks[..index])
        {
          assert blocks[..index + 1][..index] == blocks[..index];
          qualityBlockRecordLength := qualityBlockRecordLength + QualityBlockRecordLength(blocks[index]);
          index := index + 1;
        }
        assert blocks[..index] == blocks;
      }
      length := 4 + 9 + 1 + 2 + 2 + 1 + qualityBlockRecordLength + 2 + IMAGE_INFORMATION_LENGTH;
    }

    /** writeObject: appends exactly the bytes of Encode(Abs()) to the
        output, RecordLength(Abs()) of them. */
    method WriteObject(output: DataOutput)
      modifies output
      ensures output.written == old(output.written) + Encode(Abs())
      ensures |output.written| == |old(output.written)| + RecordLength(Abs())
    {
      ghost var h := Abs();
      ghost var lengthField := U32(RecordLength(h) + h.representationDataLength);
      ghost var captureFields := EncodeTimestamp(h.captureTimestamp) + EncodeDevice(h.captureDevice);
      var recordLength := GetRecordLength();
      // the sum is narrowed to a 32-bit int, of which writeInt keeps every bit
      output.WriteInt(recordLength + representationDataLength);
      WriteCaptureFields(output);
      AppendAssoc(old(output.written), lengthField, captureFields);
      WriteBlocksAndTail(output);
      AppendAssoc(old(output.written), lengthField + captureFields, EncodeTail(h));
      EncodeGroups(h);
    }

    /** The timestamp and the capture device identifiers, in wire order. */
    method WriteCaptureFields(output: DataOutput)
      modifies output
      ensures output.written == old(output.written) + (EncodeTimestamp(Abs().captureTimestamp)
                                                       + EncodeDevice(Abs().captureDevice))
    {
      WriteCaptureTimestamp(output);
      WriteCaptureDevice(output);
    }

    /** The block count, the blocks, the representation number and the image
        information, in wire order. */
    method WriteBlocksAndTail(output: DataOutput)
      modifies output
      ensures output.written == old(output.written) + EncodeTail(Abs())
    {
      output.WriteByte(noOfQualityBlocks);
      WriteQualityBlocks(output);
      output.WriteShort(representationNo);
      WriteImageInformation(imageInformation, output);
    }

    /** The timestamp part of writeObject: the stored month goes out plus one. */
    method WriteCaptureTimestamp(output: DataOutput)
      modifies output
      ensures output.written == old(output.written) + EncodeTimestamp(Abs().captureTimestamp)
    {
      output.WriteShort(captureYear);
      output.WriteByte(captureMonth + 1);
      output.WriteByte(captureDay);
      output.WriteByte(captureHour);
      output.WriteByte(captureMinute);
      output.WriteByte(captureSecond);
      output.WriteShort(captureMilliSecond);
    }

    method WriteCaptureDevice(output: DataOutput)
      modifies output
      ensures output.written == old(output.written) + EncodeDevice(Abs().captureDevice)
    {
      output.WriteByte(captureDeviceTechnologyIdentifier);
      output.WriteShort(captureDeviceVendorIdentifier);
      output.WriteShort(captureDeviceTypeIdentifier);
    }

    /** The loop of writeObject over the block array; nothing when it is null. */
    method WriteQualityBlocks(output: DataOutput)
      modifies output
      ensures output.written == old(output.written) + EncodeQualityBlocks(Blocks(Abs()))
    {
      if qualityBlocks.Some? {
        var blocks := qualityBlocks.value;
        var index := 0;
        while index < |blocks|
          invariant 0 <= index <= |blocks|
          invariant output.written == old(output.written) + EncodeQualityBlocks(blocks[..index])
          modifies output
        {
          assert blocks[..index + 1][..index] == blocks[..index];
          WriteQualityBlock(blocks[index], output);
          index := index + 1;
        }
        assert blocks[..index] == blocks;
      }
    }

    /** new RepresentationHeader(inputStream). */
    static method FromStream(input: DataInput) returns (header: RepresentationHeader, ok: bool)
      requires input.Valid()
      modifies input
      ensures fresh(header) && input.Valid()
      ensures ok <==> DecodeFull(input.data, old(input.pos)).Ok?
      ensures ok ==> header.Abs() == DecodeFull(input.data, old(input.pos)).value.value &&
                     input.pos == DecodeFull(input.data, old(input.pos)).value.next
    {
      header := new RepresentationHeader.Empty();
      ok := header.ReadObject(input);
    }

    /** new RepresentationHeader(inputStream, onlyImageInformation): the
        skipped fields stay at Java's defaults, so the object holds exactly
        what DecodePartial returns. */
    static method FromStreamPartial(input: DataInput, onlyImageInformation: bool)
      returns (header: RepresentationHeader, ok: bool)
      requires input.Valid()
      modifies input
      ensures fresh(header) && input.Valid()
      ensures ok <==> DecodePartial(input.data, old(input.pos), onlyImageInformation).Ok?
      ensures !ok ==> input.pos == |input.data|
      ensures ok ==> header.Abs() == DecodePartial(input.data, old(input.pos), onlyImageInformation).value.value &&
                     input.pos == DecodePartial(input.data, old(input.pos), onlyImageInformation).value.next
    {
      header := new RepresentationHeader.Empty();
      ok := header.ReadObjectPartial(input, onlyImageInformation);
    }
  }

  /** A record written by WriteObject and read back by FromStream comes back
      as AfterRoundTrip says: same fields, month one higher, length field the
      wire total. */
  method WriteThenRead(header: RepresentationHeader) returns (copy: RepresentationHeader, ok: bool)
    requires HeaderProperties.Representable(header.Abs())
    ensures ok && copy.Abs() == HeaderProperties.AfterRoundTrip(header.Abs())
  {
    var output := new DataOutput();
    header.WriteObject(output);
    assert At(output.written, 0, Encode(header.Abs())) by {
      assert output.written[0..|output.written|] == output.written == Encode(header.Abs());
    }
    HeaderProperties.DecodeFullEncode(header.Abs(), output.written, 0);
    var input := new DataInput(output.written, 0);
    copy, ok := RepresentationHeader.FromStream(input);
  }
}
