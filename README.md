# Iris representation header codec

A Dafny model of `RepresentationHeader`, the iris representation header record of
the MOSIP biometrics utilities (ISO/IEC 19794-6:2011). The header is a mutable
bag of fields. `readObject` fills it from a `DataInputStream`. Its one-argument
form reads every field. Its two-argument form skips the timestamp and the device
identifiers whatever its `onlyImageInformation` flag says, and hands the flag on
to the sub-record readers. `getRecordLength` computes the header's size, and
`writeObject` appends it to a `DataOutputStream`.

The model has six modules:

- `Bytes`: the byte type and the unsigned big-endian layout of 8-, 16- and
  32-bit fields. The writers keep the low bits of their argument. This module
  also has the reader of a field at a position, and the round trips between
  the writers and the reader.
- `Streams`: the classes `DataInput` (a byte sequence and a cursor) and
  `DataOutput` (the bytes written so far). Their methods model the Java stream
  calls the header makes. A read that runs past the end fails and leaves the
  cursor at the end, as `EOFException` does. `skipBytes` never fails; it stops
  at the end.
- `SubRecords`: `IrisQualityBlock` (5 bytes) and `ImageInformation` (27 bytes) as
  opaque fixed-size records, each with an encoder and a decoder for both modes.
- `HeaderFormat`: the record as a value (`Header`), plus the pure
  specification functions `RecordLength`, `Encode`, `DecodeFull` and
  `DecodePartial`.
- `HeaderProperties`: what is proved about those functions: the round trip,
  the field offsets, the length field, the month and length asymmetries, and
  that the two-argument decoder reads the same bytes as the full one.
- `Iris`: the class `RepresentationHeader` with the Java fields. Each of its
  methods is proved against the `HeaderFormat` functions through `Abs()`, the
  record value the fields hold.

The model follows the code in two places where it is asymmetric.

- **Month.** The encoder writes the stored month plus one. The decoders store
  the wire byte as it is. So a record decoded from an encoding has its month
  one higher than the record that was encoded (`AfterRoundTrip`).
- **Length field.** The encoder writes `getRecordLength() + representationDataLength`,
  cut to 32 bits. The decoder stores that wire total as `representationDataLength`.

Further facts about the code that the model keeps:

- A month `m` written by `writeObject` decodes as `m + 1` (lines 104 and 188).
- A decoded encoding differs from the original record only in the month and the
  length field (`AfterRoundTrip`).
- `writeObject` emits `getRecordLength()` bytes, and declares
  `getRecordLength() + representationDataLength` in its length field (line 186).
- An unknown vendor or type identifier is stored, and nothing is reported
  (lines 121-135).
- The constructors store their arguments unchecked.

## Model

| member | source | states |
|---|---|---|
| Bytes.U32Value | biometrics-util/src/main/java/io/mosip/biometrics/util/iris/RepresentationHeader.java:186 | writeInt emits the big-endian form of its argument modulo 2^32 |
| Bytes.U8Value | biometrics-util/src/main/java/io/mosip/biometrics/util/iris/RepresentationHeader.java:188-192 | the byte writeByte emits is v modulo 256 |
| Bytes.U16Value | biometrics-util/src/main/java/io/mosip/biometrics/util/iris/RepresentationHeader.java:187 | the two bytes writeShort emits are big-endian v modulo 2^16 |
| Bytes.U8 | biometrics-util/src/main/java/io/mosip/biometrics/util/iris/RepresentationHeader.java:189-192 | writeByte emits exactly one byte (U8Value gives its value, v modulo 256) |
| Bytes.U16 | biometrics-util/src/main/java/io/mosip/biometrics/util/iris/RepresentationHeader.java:187 | writeShort emits exactly two bytes (U16Value gives their value, v modulo 2^16) |
| Bytes.U32 | biometrics-util/src/main/java/io/mosip/biometrics/util/iris/RepresentationHeader.java:186 | writeInt emits exactly four bytes (U32Value gives their value, v modulo 2^32) |
| Bytes.RoundTripU8 | biometrics-util/src/main/java/io/mosip/biometrics/util/iris/RepresentationHeader.java:104-108 | reading back a byte writeByte wrote yields the value modulo 256, the value itself when it fits |
| Bytes.RoundTripU16 | biometrics-util/src/main/java/io/mosip/biometrics/util/iris/RepresentationHeader.java:103 | reading back two bytes writeShort wrote yields the value modulo 2^16, the value itself when it fits |
| Bytes.RoundTripU32 | biometrics-util/src/main/java/io/mosip/biometrics/util/iris/RepresentationHeader.java:99 | reading back four bytes writeInt wrote yields the value modulo 2^32 |
| Bytes.ToSigned32 | biometrics-util/src/main/java/io/mosip/biometrics/util/iris/RepresentationHeader.java:99 | readInt's signed value is in the 32-bit range, and masking with 0xFFFFFFFF gives back the unsigned wire value |
| Bytes.ReadUnsigned | biometrics-util/src/main/java/io/mosip/biometrics/util/iris/RepresentationHeader.java:103-109 | an unsigned read succeeds exactly when the field lies inside the input, then advances by its width and yields a value below 256^width |
| Streams.DataInput.ReadInt | biometrics-util/src/main/java/io/mosip/biometrics/util/iris/RepresentationHeader.java:99 | readInt yields the signed reading of the four bytes, or fails at end of input leaving the cursor at the end |
| Streams.DataInput.SkipBytes | biometrics-util/src/main/java/io/mosip/biometrics/util/iris/RepresentationHeader.java:154 | skipBytes moves the cursor by n or to the end of input, whichever comes first, and never fails |
| SubRecords.QualityBlockRoundTrip | biometrics-util/src/main/java/io/mosip/biometrics/util/iris/RepresentationHeader.java:141 | a quality block decodes back from its encoding, consuming its 5 bytes |
| SubRecords.ImageInformationRoundTrip | biometrics-util/src/main/java/io/mosip/biometrics/util/iris/RepresentationHeader.java:147 | image information decodes back from its encoding, consuming its 27 bytes |
| HeaderFormat.QualityBlocksLength | biometrics-util/src/main/java/io/mosip/biometrics/util/iris/RepresentationHeader.java:171-175 | the sum of the blocks' record lengths is 5 per block |
| HeaderFormat.RecordLength | biometrics-util/src/main/java/io/mosip/biometrics/util/iris/RepresentationHeader.java:169-182 | the record length is 48 plus 5 per quality block, and exactly 48 when the block array is null or empty |
| HeaderFormat.Encode | biometrics-util/src/main/java/io/mosip/biometrics/util/iris/RepresentationHeader.java:184-207 | the encoding is exactly RecordLength bytes long |
| HeaderFormat.EncodeTimestamp | biometrics-util/src/main/java/io/mosip/biometrics/util/iris/RepresentationHeader.java:187-193 | the timestamp, with the month plus one, takes 9 bytes |
| HeaderFormat.EncodeDevice | biometrics-util/src/main/java/io/mosip/biometrics/util/iris/RepresentationHeader.java:195-197 | the three capture device identifiers take 5 bytes |
| HeaderFormat.EncodeQualityBlocks | biometrics-util/src/main/java/io/mosip/biometrics/util/iris/RepresentationHeader.java:200-204 | the blocks written in order take the sum of their record lengths |
| HeaderFormat.EncodeTail | biometrics-util/src/main/java/io/mosip/biometrics/util/iris/RepresentationHeader.java:199-207 | count, blocks, representation number and image information take 1 + 5n + 2 + 27 bytes |
| HeaderFormat.DecodeTimestamp | biometrics-util/src/main/java/io/mosip/biometrics/util/iris/RepresentationHeader.java:103-109 | the timestamp read succeeds exactly when 9 bytes remain and consumes those 9 |
| HeaderFormat.DecodeTimestampFields | biometrics-util/src/main/java/io/mosip/biometrics/util/iris/RepresentationHeader.java:103-109 | the seven timestamp fields are read at offsets 0, 2, 3, 4, 5, 6 and 7 of the timestamp |
| HeaderFormat.DecodeDevice | biometrics-util/src/main/java/io/mosip/biometrics/util/iris/RepresentationHeader.java:120-135 | the device read succeeds exactly when 5 bytes remain and consumes those 5 |
| HeaderFormat.DecodeQualityBlocks | biometrics-util/src/main/java/io/mosip/biometrics/util/iris/RepresentationHeader.java:138-144 | reading n blocks succeeds exactly when 5n bytes remain, and yields n blocks ending 5n bytes on |
| HeaderFormat.DecodeTail | biometrics-util/src/main/java/io/mosip/biometrics/util/iris/RepresentationHeader.java:137-147 | the tail read succeeds exactly when the count byte and the 5·count + 29 bytes it implies are present; the count is that byte and the block array has that many entries |
| HeaderFormat.TailFields | biometrics-util/src/main/java/io/mosip/biometrics/util/iris/RepresentationHeader.java:145-147 | the representation number and the image information are read right after the blocks |
| HeaderFormat.DecodeFull | biometrics-util/src/main/java/io/mosip/biometrics/util/iris/RepresentationHeader.java:97-148 | the full decode succeeds exactly when the whole record is present, ends 48 + 5·count bytes on, keeps the count equal to the block array's length, and keeps the count below 256 |
| HeaderFormat.DecodePartial | biometrics-util/src/main/java/io/mosip/biometrics/util/iris/RepresentationHeader.java:150-167 | the two-argument decode, for either flag value, succeeds on the same inputs as the full one, leaves timestamp and device at 0, and keeps the count consistent and below 256 |
| HeaderProperties.TimestampRoundTrip | biometrics-util/src/main/java/io/mosip/biometrics/util/iris/RepresentationHeader.java:103-109 | a timestamp that fits decodes back from its encoding with every field unchanged except the month, which comes back plus one |
| HeaderProperties.DeviceRoundTrip | biometrics-util/src/main/java/io/mosip/biometrics/util/iris/RepresentationHeader.java:120-135 | capture device identifiers that fit decode back from their encoding unchanged |
| HeaderProperties.QualityBlocksRoundTrip | biometrics-util/src/main/java/io/mosip/biometrics/util/iris/RepresentationHeader.java:138-144 | the blocks written by the block loop are read back by the reading loop, in order |
| HeaderProperties.EncodeLayout | biometrics-util/src/main/java/io/mosip/biometrics/util/iris/RepresentationHeader.java:186-207 | in an encoding, the length, timestamp, device and tail lie at offsets 0, 4, 13 and 18 |
| HeaderProperties.TailLayout | biometrics-util/src/main/java/io/mosip/biometrics/util/iris/RepresentationHeader.java:199-207 | in the tail, the count, the blocks, the representation number and the image information lie at offsets 0, 1, 1 + 5n and 3 + 5n |
| HeaderProperties.TailRoundTrip | biometrics-util/src/main/java/io/mosip/biometrics/util/iris/RepresentationHeader.java:137-147 | count, blocks, representation number and image information decode back unchanged in either mode |
| HeaderProperties.DecodeFullEncode | biometrics-util/src/main/java/io/mosip/biometrics/util/iris/RepresentationHeader.java:97-148 | full decode of an encoding gives every field back unchanged, except the month (plus one) and the length field (the wire total modulo 2^32), and stops right after the record |
| HeaderProperties.DecodeFullPieces | biometrics-util/src/main/java/io/mosip/biometrics/util/iris/RepresentationHeader.java:99-147 | the same round trip, from the four pieces of the encoding at their offsets |
| HeaderProperties.LengthField | biometrics-util/src/main/java/io/mosip/biometrics/util/iris/RepresentationHeader.java:186 | the first four bytes of an encoding are big-endian (RecordLength + representationDataLength) modulo 2^32 |
| HeaderProperties.MonthByte | biometrics-util/src/main/java/io/mosip/biometrics/util/iris/RepresentationHeader.java:188 | byte 6 of an encoding is the stored month plus one, modulo 256 |
| HeaderProperties.ReencodeShiftsMonth | biometrics-util/src/main/java/io/mosip/biometrics/util/iris/RepresentationHeader.java:104 | a month written as m + 1 is decoded as m + 1 and written again as m + 2 |
| HeaderProperties.ReencodeGrowsLength | biometrics-util/src/main/java/io/mosip/biometrics/util/iris/RepresentationHeader.java:99 | the decoded payload length is the wire total, so writing it again declares twice the record length plus the payload |
| HeaderProperties.NoQualityBlocksLengthField | biometrics-util/src/main/java/io/mosip/biometrics/util/iris/RepresentationHeader.java:177-186 | with no quality blocks and a 1024-byte payload the record length is 48 and the length field reads 1072 |
| HeaderProperties.DecodeFullFields | biometrics-util/src/main/java/io/mosip/biometrics/util/iris/RepresentationHeader.java:99-147 | every decoded field is the unsigned big-endian value at its offset in the layout |
| HeaderProperties.UnknownVendorKept | biometrics-util/src/main/java/io/mosip/biometrics/util/iris/RepresentationHeader.java:121-127 | a vendor identifier 0xFFFF is decoded without failing and kept as read |
| HeaderProperties.DecodeQualityBlocksSlots | biometrics-util/src/main/java/io/mosip/biometrics/util/iris/RepresentationHeader.java:138-143 | block i is the five bytes at offset 5i |
| HeaderProperties.PartialConsumesSameBytes | biometrics-util/src/main/java/io/mosip/biometrics/util/iris/RepresentationHeader.java:150-167 | the two-argument decode, for either flag value, succeeds exactly when the full one does, consumes the same bytes, agrees on the length, count and representation number, and leaves timestamp and device at 0 |
| HeaderProperties.TruncatedInputFails | biometrics-util/src/main/java/io/mosip/biometrics/util/iris/RepresentationHeader.java:97-167 | input shorter than 48 bytes fails both decoders with end of input |
| Iris.RepresentationHeader.constructor | biometrics-util/src/main/java/io/mosip/biometrics/util/iris/RepresentationHeader.java:38-61 | stores the given fields with unspecified device identifiers, and the count equal to the block array's length |
| Iris.RepresentationHeader.WithDevice | biometrics-util/src/main/java/io/mosip/biometrics/util/iris/RepresentationHeader.java:63-87 | stores the given fields and device identifiers, and the count equal to the block array's length |
| Iris.RepresentationHeader.Empty | biometrics-util/src/main/java/io/mosip/biometrics/util/iris/RepresentationHeader.java:89-95 | the object a stream constructor starts from has every field at its Java default, a null block array, and 27 zero bytes standing for the null image information |
| Iris.RepresentationHeader.ReadObject | biometrics-util/src/main/java/io/mosip/biometrics/util/iris/RepresentationHeader.java:97-148 | succeeds exactly when DecodeFull does; its fields then hold DecodeFull's record and the stream is just past it |
| Iris.RepresentationHeader.ReadCaptureFields | biometrics-util/src/main/java/io/mosip/biometrics/util/iris/RepresentationHeader.java:103-135 | succeeds exactly when the timestamp and the device identifiers are both present; the ten capture fields then hold what DecodeTimestamp and DecodeDevice return; on failure the cursor is at the end of input |
| Iris.RepresentationHeader.ReadCaptureTimestamp | biometrics-util/src/main/java/io/mosip/biometrics/util/iris/RepresentationHeader.java:103-109 | succeeds exactly when DecodeTimestamp does; the timestamp fields then hold what it returns |
| Iris.RepresentationHeader.ReadCaptureDate | biometrics-util/src/main/java/io/mosip/biometrics/util/iris/RepresentationHeader.java:103-105 | year, month and day are read when 4 bytes remain, each stored as read, the month kept one-based; otherwise the read fails at the end of input |
| Iris.RepresentationHeader.ReadCaptureTime | biometrics-util/src/main/java/io/mosip/biometrics/util/iris/RepresentationHeader.java:106-109 | hour, minute, second and millisecond are read when 5 bytes remain, each stored as read; otherwise the read fails at the end of input |
| Iris.RepresentationHeader.ReadCaptureDevice | biometrics-util/src/main/java/io/mosip/biometrics/util/iris/RepresentationHeader.java:120-135 | succeeds exactly when DecodeDevice does; the device fields then hold what it returns |
| Iris.RepresentationHeader.ReadObjectPartial | biometrics-util/src/main/java/io/mosip/biometrics/util/iris/RepresentationHeader.java:150-167 | succeeds exactly when DecodePartial does; the fields then hold its record, except that timestamp and device keep their earlier values |
| Iris.RepresentationHeader.ReadBlocksAndTail | biometrics-util/src/main/java/io/mosip/biometrics/util/iris/RepresentationHeader.java:137-147 | succeeds exactly when DecodeTail does; the count, blocks, representation number and image information then hold what it returns |
| Iris.RepresentationHeader.ReadQualityBlocks | biometrics-util/src/main/java/io/mosip/biometrics/util/iris/RepresentationHeader.java:138-144 | the reading loop succeeds exactly when DecodeQualityBlocks does, and returns its blocks |
| Iris.RepresentationHeader.GetRecordLength | biometrics-util/src/main/java/io/mosip/biometrics/util/iris/RepresentationHeader.java:169-182 | the loop's total is RecordLength, that is 48 plus 5 per block |
| Iris.RepresentationHeader.WriteObject | biometrics-util/src/main/java/io/mosip/biometrics/util/iris/RepresentationHeader.java:184-207 | appends exactly Encode of the fields, RecordLength bytes of them |
| Iris.RepresentationHeader.WriteCaptureFields | biometrics-util/src/main/java/io/mosip/biometrics/util/iris/RepresentationHeader.java:187-197 | appends exactly the timestamp encoding followed by the device encoding |
| Iris.RepresentationHeader.WriteCaptureDevice | biometrics-util/src/main/java/io/mosip/biometrics/util/iris/RepresentationHeader.java:195-197 | appends exactly EncodeDevice of the stored identifiers |
| Iris.RepresentationHeader.WriteBlocksAndTail | biometrics-util/src/main/java/io/mosip/biometrics/util/iris/RepresentationHeader.java:199-207 | appends exactly EncodeTail of the fields |
| Iris.RepresentationHeader.WriteCaptureTimestamp | biometrics-util/src/main/java/io/mosip/biometrics/util/iris/RepresentationHeader.java:187-193 | appends exactly EncodeTimestamp of the stored timestamp, with the month plus one |
| Iris.RepresentationHeader.WriteQualityBlocks | biometrics-util/src/main/java/io/mosip/biometrics/util/iris/RepresentationHeader.java:200-204 | the block loop appends every block's encoding in order, or nothing for a null array |
| Iris.RepresentationHeader.FromStream | biometrics-util/src/main/java/io/mosip/biometrics/util/iris/RepresentationHeader.java:89-91 | a header built from a stream holds exactly DecodeFull's record |
| Iris.RepresentationHeader.FromStreamPartial | biometrics-util/src/main/java/io/mosip/biometrics/util/iris/RepresentationHeader.java:93-95 | a header built by the two-argument stream constructor, for either flag value, holds exactly DecodePartial's record, with timestamp and device at 0 |
| Iris.WriteThenRead | biometrics-util/src/main/java/io/mosip/biometrics/util/iris/RepresentationHeader.java:184-209 | writing a header and reading it back succeeds and gives AfterRoundTrip of it |

## Left out

- Calendar and Date (lines 41-51, 67-77 and 101-118). These depend on the time zone and the locale. The constructors take the seven timestamp fields directly, month zero-based, and `captureDateTime` is not a field of the model.
- The internal layouts of `IrisQualityBlock`, `ImageInformation` and the `AbstractImageInfo` base class are not part of this model. Each sub-record is an opaque string of 5 or 27 bytes. With the `onlyImageInformation` flag set, each is assumed to consume the same bytes and to keep them, so the flag changes nothing in this model.
- The capture device enumeration classes are not part of this model. Only their `UNSPECIFIED` members are used, as the constant 0.
- Logging and the `try`/`catch` around the vendor and type setters (lines 122-135). The setters only assign and cannot throw.
- `flush` (line 208) and write failures on the sink. `DataOutput` only appends.
- `IOException` on read. It becomes `ok == false`. The primitive reads, the sub-record readers, the field-group readers (`ReadCaptureFields`, `ReadCaptureTimestamp`, `ReadCaptureDevice`, `ReadBlocksAndTail`, `ReadQualityBlocks`), `ReadObjectPartial` and `FromStreamPartial` promise that a failure leaves the cursor at the end. A failed read promises nothing about the fields it has already set.
- Iris.RepresentationHeader.ReadObject: does not state where the cursor is after a failure, and neither does `FromStream`. Proving that clause for the whole method costs more than the solver limit allows. Its three steps each state it.
- `toString` (lines 347-358) and the unused `representationLength` field (lines 18 and 219-225).
- Getters and setters (lines 211-345) are plain field reads and writes, so they have no members of their own.
- A null block array, a null element of a block array, or a null image information passed to a constructor or set later. Java throws `NullPointerException` for these in the constructors (lines 57 and 83), in `getRecordLength` (line 174) and in `writeObject` (lines 202 and 207). The model takes a sequence of block values, which cannot hold a null, and an image information value. Before a decoder runs, `NO_IMAGE_INFORMATION` (27 zero bytes) stands for the null image information; every successful read replaces it. Only the decoders' initial state and the writers handle a null block array (`None`).
- Java `int` and `long` fields are unbounded integers. The narrowing that matters is written out where the writers truncate: `writeByte`, `writeShort`, `writeInt` and the `(int)` cast keep the low 8, 16 or 32 bits. Because 2^32 divides 2^64, a `long` overflow of the length sum gives the same 32 bits.
- HeaderProperties.PartialConsumesSameBytes: does not state that the two-argument decoder returns the same blocks and image information as the full one. That equality would hold only because the sub-records are opaque in this model.
