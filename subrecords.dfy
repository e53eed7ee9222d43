/** The two sub-records a representation header delegates to: the iris
    quality block and the image information. Their internal field layouts
    are not part of this model; each is an opaque record of a fixed
    serialized size, with an encoder, a full decoder and an
    "only image information" decoder that consumes the same bytes. */
module SubRecords {
  import opened Bytes
  import opened Streams

  /** Serialized size of one IrisQualityBlock (the "5x" of the header's layout). */
  const QUALITY_BLOCK_LENGTH: nat := 5
  /** Serialized size of the ImageInformation sub-record. */
  const IMAGE_INFORMATION_LENGTH: nat := 27

  type QualityBlockBytes = s: seq<byte> | |s| == QUALITY_BLOCK_LENGTH witness [0, 0, 0, 0, 0]
  type ImageInformationBytes = s: seq<byte> | |s| == IMAGE_INFORMATION_LENGTH
    witness [0, 0, 0, 0, 0, 0, 0, 0, 0, 0, 0, 0, 0, 0, 0, 0, 0, 0, 0, 0, 0, 0, 0, 0, 0, 0, 0]

  datatype QualityBlock = QualityBlock(body: QualityBlockBytes)
  datatype ImageInformation = ImageInformation(body: ImageInformationBytes)

  /** IrisQualityBlock.getRecordLength: the number of bytes its writeObject emits. */
  function QualityBlockRecordLength(qb: QualityBlock): (n: nat)
    ensures n == |EncodeQualityBlock(qb)|
  {
    QUALITY_BLOCK_LENGTH
  }

  function EncodeQualityBlock(qb: QualityBlock): seq<byte> {
    qb.body
  }

  function EncodeImageInformation(info: ImageInformation): (r: seq<byte>)
    ensures |r| == IMAGE_INFORMATION_LENGTH
  {
    info.body
  }

  /** new IrisQualityBlock(inputStream[, onlyImageInformation]): both modes
      consume exactly one quality block and fail only when the stream ends. */
  function DecodeQualityBlock(s: seq<byte>, pos: nat, onlyImageInformation: bool): (r: Result<Parsed<QualityBlock>>)
    ensures r.Ok? <==> pos + QUALITY_BLOCK_LENGTH <= |s|
    ensures r.Ok? ==> r.value.next == pos + QUALITY_BLOCK_LENGTH
  {
    if pos + QUALITY_BLOCK_LENGTH <= |s| then
      Ok(Parsed(QualityBlock(s[pos..pos + QUALITY_BLOCK_LENGTH]), pos + QUALITY_BLOCK_LENGTH))
    else Err(UnexpectedEndOfInput)
  }

  /** new ImageInformation(inputStream[, onlyImageInformation]). */
  function DecodeImageInformation(s: seq<byte>, pos: nat, onlyImageInformation: bool): (r: Result<Parsed<ImageInformation>>)
    ensures r.Ok? <==> pos + IMAGE_INFORMATION_LENGTH <= |s|
    ensures r.Ok? ==> r.value.next == pos + IMAGE_INFORMATION_LENGTH
  {
    if pos + IMAGE_INFORMATION_LENGTH <= |s| then
      Ok(Parsed(ImageInformation(s[pos..pos + IMAGE_INFORMATION_LENGTH]), pos + IMAGE_INFORMATION_LENGTH))
    else Err(UnexpectedEndOfInput)
  }

  lemma QualityBlockRoundTrip(s: seq<byte>, pos: nat, qb: QualityBlock, onlyImageInformation: bool)
    requires At(s, pos, EncodeQualityBlock(qb))
    ensures DecodeQualityBlock(s, pos, onlyImageInformation) == Ok(Parsed(qb, pos + QUALITY_BLOCK_LENGTH))
  {
  }

  lemma ImageInformationRoundTrip(s: seq<byte>, pos: nat, info: ImageInformation, onlyImageInformation: bool)
    requires At(s, pos, EncodeImageInformation(info))
    ensures DecodeImageInformation(s, pos, onlyImageInformation) == Ok(Parsed(info, pos + IMAGE_INFORMATION_LENGTH))
  {
  }

  /** The stream-level forms the header calls. */
  method ReadQualityBlock(input: DataInput, onlyImageInformation: bool) returns (r: Result<QualityBlock>)
    requires input.Valid()
    modifies input
    ensures input.Valid()
    ensures var d := DecodeQualityBlock(input.data, old(input.pos), onlyImageInformation);
            (d.Ok? ==> r == Ok(d.value.value) && input.pos == d.value.next) &&
            (d.Err? ==> r.Err? && input.pos == |input.data|)
  {
    var body := input.ReadFully(QUALITY_BLOCK_LENGTH);
    if body.Err? {
      return Err(body.error);
    }
    r := Ok(QualityBlock(body.value));
  }

  method ReadImageInformation(input: DataInput, onlyImageInformation: bool) returns (r: Result<ImageInformation>)
    requires input.Valid()
    modifies input
    ensures input.Valid()
    ensures var d := DecodeImageInformation(input.data, old(input.pos), onlyImageInformation);
            (d.Ok? ==> r == Ok(d.value.value) && input.pos == d.value.next) &&
            (d.Err? ==> r.Err? && input.pos == |input.data|)
  {
    var body := input.ReadFully(IMAGE_INFORMATION_LENGTH);
    if body.Err? {
      return Err(body.error);
    }
    r := Ok(ImageInformation(body.value));
  }

  method WriteQualityBlock(qb: QualityBlock, output: DataOutput)
    modifies output
    ensures output.written == old(output.written) + EncodeQualityBlock(qb)
  {
    output.Write(qb.body);
  }

  method WriteImageInformation(info: ImageInformation, output: DataOutput)
    modifies output
    ensures output.written == old(output.written) + EncodeImageInformation(info)
  {
    output.Write(info.body);
  }
}
