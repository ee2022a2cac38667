/** The speech-to-text route: the 44-byte RIFF/WAVE PCM header it puts in front of raw
    audio, the choice between passing WAV bytes through and wrapping them, and the way
    the recognizer's `RecognitionStatus` becomes a transcript or an error. */
module AzureStt {
  import opened JsText

  newtype byte = x: int | 0 <= x < 256

  // The fixed format the header announces (lines 7-11 of the route).
  const SampleRate: nat := 44100
  const NumChannels: nat := 1
  const BitsPerSample: nat := 16
  const ByteRate: nat := SampleRate * NumChannels * BitsPerSample / 8
  const BlockAlign: nat := NumChannels * BitsPerSample / 8

  const HeaderSize: nat := 44
  const MaxUInt16: nat := 0xFFFF
  const MaxUInt32: nat := 0xFFFF_FFFF
  /** The largest data length whose RIFF size 36 + n still fits the uint32 field. */
  const MaxDataLength: nat := MaxUInt32 - 36

  // "RIFF", "WAVE", "fmt " and "data" in ASCII.
  const RiffTag: seq<byte> := [0x52, 0x49, 0x46, 0x46]
  const WaveTag: seq<byte> := [0x57, 0x41, 0x56, 0x45]
  const FmtTag: seq<byte> := [0x66, 0x6D, 0x74, 0x20]
  const DataTag: seq<byte> := [0x64, 0x61, 0x74, 0x61]

  /** Node's `writeUInt16LE` byte order: low byte first. */
  function U16LE(v: nat): (b: seq<byte>)
    requires v <= MaxUInt16
    ensures |b| == 2
  {
    [(v % 256) as byte, (v / 256) as byte]
  }

  /** Node's `writeUInt32LE` byte order: least significant byte first. */
  function U32LE(v: nat): (b: seq<byte>)
    requires v <= MaxUInt32
    ensures |b| == 4
  {
    [(v % 256) as byte, (v / 256 % 256) as byte, (v / 65536 % 256) as byte, (v / 16777216) as byte]
  }

  function ReadU16LE(b: seq<byte>, off: nat): (v: nat)
    requires off + 2 <= |b|
    ensures v <= MaxUInt16
  {
    b[off] as nat + 256 * b[off + 1] as nat
  }

  function ReadU32LE(b: seq<byte>, off: nat): (v: nat)
    requires off + 4 <= |b|
    ensures v <= MaxUInt32
  {
    b[off] as nat + 256 * b[off + 1] as nat + 65536 * b[off + 2] as nat + 16777216 * b[off + 3] as nat
  }

  lemma U16RoundTrip(v: nat)
    requires v <= MaxUInt16
    ensures ReadU16LE(U16LE(v), 0) == v
  {
  }

  lemma U32RoundTrip(v: nat)
    requires v <= MaxUInt32
    ensures ReadU32LE(U32LE(v), 0) == v
  {
    var q1 := v / 256;
    var q2 := q1 / 256;
    var q3 := q2 / 256;
    assert v == v % 256 + 256 * q1;
    assert q1 == q1 % 256 + 256 * q2;
    assert q2 == q2 % 256 + 256 * q3;
    assert q2 == v / 65536;
    assert q3 == v / 16777216;
  }

  /** The header as the sequence of its fields, in the order RIFF/WAVE lays them out:
      the RIFF chunk descriptor, the 16-byte `fmt ` chunk of a PCM stream and the
      `data` chunk header. */
  function WavHeader(dataLength: nat): (h: seq<byte>)
    requires dataLength <= MaxDataLength
    ensures |h| == HeaderSize
  {
    RiffChunk(dataLength) + FmtChunk() + DataChunkHeader(dataLength)
  }

  /** "RIFF", the RIFF size 36 + dataLength, "WAVE": bytes 0..11. */
  function RiffChunk(dataLength: nat): (c: seq<byte>)
    requires dataLength <= MaxDataLength
    ensures |c| == 12
  {
    RiffTag + U32LE(36 + dataLength) + WaveTag
  }

  /** "fmt ", chunk size 16, format 1 (PCM), channels, rate, byte rate, block align, bits: bytes 12..35. */
  function FmtChunk(): (c: seq<byte>)
    ensures |c| == 24
  {
    FmtTag + U32LE(16) + U16LE(1) + U16LE(NumChannels) + U32LE(SampleRate) + U32LE(ByteRate)
    + U16LE(BlockAlign) + U16LE(BitsPerSample)
  }

  /** "data" and the data length: bytes 36..43. */
  function DataChunkHeader(dataLength: nat): (c: seq<byte>)
    requires dataLength <= MaxDataLength
    ensures |c| == 8
  {
    DataTag + U32LE(dataLength)
  }

  /** The constant `fmt ` chunk byte by byte (44100 = 0xAC44, 88200 = 0x15888). */
  lemma FmtChunkBytes()
    ensures FmtChunk() == [0x66, 0x6D, 0x74, 0x20, 16, 0, 0, 0, 1, 0, 1, 0,
                           0x44, 0xAC, 0, 0, 0x88, 0x58, 0x01, 0, 2, 0, 16, 0]
  {
  }

  /** What a reader of a canonical 44-byte WAVE header finds in it. */
  datatype WavInfo = WavInfo(
    riffSize: nat, fmtSize: nat, audioFormat: nat, channels: nat, sampleRate: nat,
    byteRate: nat, blockAlign: nat, bitsPerSample: nat, dataSize: nat)

  /** The fields `createWavHeader` promises for `dataLength` bytes of 16-bit mono PCM at 44.1 kHz. */
  function PcmInfo(dataLength: nat): (info: WavInfo)
    ensures info.byteRate == info.sampleRate * info.channels * info.bitsPerSample / 8
    ensures info.blockAlign == info.channels * info.bitsPerSample / 8
    ensures info.riffSize == info.dataSize + 36
  {
    WavInfo(36 + dataLength, 16, 1, NumChannels, SampleRate, ByteRate, BlockAlign, BitsPerSample, dataLength)
  }

  /** An independent reader of canonical headers: it checks the four tags at their offsets
      and decodes the little-endian fields; anything else is not a canonical header. */
  function ParseWavHeader(h: seq<byte>): (r: Option<WavInfo>)
    ensures r.Some? ==> |h| >= HeaderSize && h[0..4] == RiffTag && h[8..12] == WaveTag
                        && h[12..16] == FmtTag && h[36..40] == DataTag
  {
    if |h| < HeaderSize || h[0..4] != RiffTag || h[8..12] != WaveTag || h[12..16] != FmtTag || h[36..40] != DataTag
    then None
    else Some(WavInfo(
      ReadU32LE(h, 4), ReadU32LE(h, 16), ReadU16LE(h, 20), ReadU16LE(h, 22), ReadU32LE(h, 24),
      ReadU32LE(h, 28), ReadU16LE(h, 32), ReadU16LE(h, 34), ReadU32LE(h, 40)))
  }

  /** The header's tags sit at offsets 0, 8, 12 and 36, and the two size fields decode
      to 36 + dataLength and dataLength. */
  lemma {:induction false} WavHeaderLayout(dataLength: nat)
    requires dataLength <= MaxDataLength
    ensures var h := WavHeader(dataLength);
      && h[0..4] == RiffTag && h[8..12] == WaveTag && h[12..16] == FmtTag && h[36..40] == DataTag
      && ReadU32LE(h, 4) == 36 + dataLength && ReadU32LE(h, 40) == dataLength
  {
    var h := WavHeader(dataLength);
    var riff, data := RiffChunk(dataLength), DataChunkHeader(dataLength);
    assert h[..12] == riff && h[36..] == data;
    FmtChunkBytes();
    assert h[12..36] == FmtChunk();
    assert h[0..4] == riff[0..4] && h[4..8] == riff[4..8] && h[8..12] == riff[8..12];
    assert h[36..40] == data[0..4] && h[40..44] == data[4..8];
    assert h[12..16] == FmtChunk()[0..4];
    U32RoundTrip(36 + dataLength);
    U32RoundTrip(dataLength);
    assert ReadU32LE(h, 4) == ReadU32LE(riff[4..8], 0);
    assert ReadU32LE(h, 40) == ReadU32LE(data[4..8], 0);
  }

  /** Decoding the header recovers every field, the data length among them. */
  lemma {:induction false} WavHeaderRoundTrip(dataLength: nat)
    requires dataLength <= MaxDataLength
    ensures ParseWavHeader(WavHeader(dataLength)) == Some(PcmInfo(dataLength))
  {
    var h := WavHeader(dataLength);
    WavHeaderLayout(dataLength);
    FmtChunkBytes();
    assert h[12..36] == FmtChunk();
    assert forall k :: 12 <= k < 36 ==> h[k] == FmtChunk()[k - 12];
  }

  /** `buffer.write` / `buffer.writeUInt*LE`: overwrite |bytes| bytes at `offset`, nothing else. */
  method WriteBytes(buf: array<byte>, offset: nat, bytes: seq<byte>)
    requires offset + |bytes| <= buf.Length
    modifies buf
    ensures buf[..offset + |bytes|] == old(buf[..offset]) + bytes
    ensures buf[offset + |bytes|..] == old(buf[offset + |bytes|..])
  {
    for k := 0 to |bytes|
      invariant buf[..offset + k] == old(buf[..offset]) + bytes[..k]
      invariant buf[offset + k..] == old(buf[offset + k..])
    {
      buf[offset + k] := bytes[k];
      assert buf[..offset + k + 1] == buf[..offset + k] + [bytes[k]];
      assert bytes[..k + 1] == bytes[..k] + [bytes[k]];
    }
    assert bytes[..|bytes|] == bytes;
  }

  /** `createWavHeader(dataLength)`: a zero-filled 44-byte buffer filled in place, field by field. */
  method CreateWavHeader(dataLength: nat) returns (header: seq<byte>)
    requires dataLength <= MaxDataLength
    ensures header == WavHeader(dataLength)
    ensures ParseWavHeader(header) == Some(PcmInfo(dataLength))
  {
    var buf := new byte[HeaderSize](_ => 0);
    WriteRiffChunk(buf, dataLength);
    WriteFmtChunk(buf);
    WriteDataChunkHeader(buf, dataLength);
    header := buf[..];
    assert header == buf[..HeaderSize];
    WavHeaderRoundTrip(dataLength);
  }

  /** The first three writes of `createWavHeader`: "RIFF", the RIFF size, "WAVE". */
  method WriteRiffChunk(buf: array<byte>, dataLength: nat)
    requires buf.Length == HeaderSize && dataLength <= MaxDataLength
    modifies buf
    ensures buf[..12] == RiffChunk(dataLength)
    ensures buf[12..] == old(buf[12..])
  {
    assert buf[..0] == [];
    assert buf[12..] == buf[4..][8..];
    WriteBytes(buf, 0, RiffTag);
    assert buf[12..] == buf[4..][8..];
    assert buf[12..] == buf[8..][4..];
    WriteBytes(buf, 4, U32LE(36 + dataLength));
    assert buf[12..] == buf[8..][4..];
    WriteBytes(buf, 8, WaveTag);
  }

  /** The eight writes of the `fmt ` chunk, after the RIFF chunk. */
  method WriteFmtChunk(buf: array<byte>)
    requires buf.Length == HeaderSize
    modifies buf
    ensures buf[..36] == old(buf[..12]) + FmtChunk()
    ensures buf[36..] == old(buf[36..])
  {
    ghost var riff := buf[..12];
    assert buf[36..] == buf[16..][20..];
    WriteBytes(buf, 12, FmtTag);
    assert buf[36..] == buf[16..][20..];
    assert buf[36..] == buf[20..][16..];
    WriteBytes(buf, 16, U32LE(16));
    assert buf[36..] == buf[20..][16..];
    assert buf[36..] == buf[22..][14..];
    WriteBytes(buf, 20, U16LE(1));
    assert buf[36..] == buf[22..][14..];
    assert buf[36..] == buf[24..][12..];
    WriteBytes(buf, 22, U16LE(NumChannels));
    assert buf[36..] == buf[24..][12..];
    assert buf[..24] == riff + (FmtTag + U32LE(16) + U16LE(1) + U16LE(NumChannels));
    assert buf[36..] == buf[28..][8..];
    WriteBytes(buf, 24, U32LE(SampleRate));
    assert buf[36..] == buf[28..][8..];
    assert buf[36..] == buf[32..][4..];
    WriteBytes(buf, 28, U32LE(ByteRate));
    assert buf[36..] == buf[32..][4..];
    assert buf[36..] == buf[34..][2..];
    WriteBytes(buf, 32, U16LE(BlockAlign));
    assert buf[36..] == buf[34..][2..];
    WriteBytes(buf, 34, U16LE(BitsPerSample));
  }

  /** The last two writes: "data" and the data length. */
  method WriteDataChunkHeader(buf: array<byte>, dataLength: nat)
    requires buf.Length == HeaderSize && dataLength <= MaxDataLength
    modifies buf
    ensures buf[..] == old(buf[..36]) + DataChunkHeader(dataLength)
  {
    WriteBytes(buf, 36, DataTag);
    WriteBytes(buf, 40, U32LE(dataLength));
    assert buf[..] == buf[..44];
  }

  /** Bytes 0..3 of `b[off..]` are the little-endian encoding of the value they decode to. */
  lemma U32Canonical(b: seq<byte>, off: nat)
    requires off + 4 <= |b|
    ensures U32LE(ReadU32LE(b, off)) == b[off..off + 4]
  {
    var v := ReadU32LE(b, off);
    var b0, b1, b2, b3 := b[off] as nat, b[off + 1] as nat, b[off + 2] as nat, b[off + 3] as nat;
    assert v == b0 + 256 * (b1 + 256 * (b2 + 256 * b3));
    assert v % 256 == b0 && v / 256 == b1 + 256 * (b2 + 256 * b3);
    var q1 := v / 256;
    assert q1 % 256 == b1 && q1 / 256 == b2 + 256 * b3;
    var q2 := q1 / 256;
    assert q2 % 256 == b2 && q2 / 256 == b3;
    assert q2 == v / 65536;
    assert q2 / 256 == v / 16777216;
  }

  lemma U16Canonical(b: seq<byte>, off: nat)
    requires off + 2 <= |b|
    ensures U16LE(ReadU16LE(b, off)) == b[off..off + 2]
  {
  }

  /** The other direction of the round trip: a header that reads back as the PCM format
      `createWavHeader` announces is byte for byte the one it writes for that data length. */
  lemma {:induction false} ParsedPcmHeaderIsCanonical(h: seq<byte>, n: nat)
    requires ParseWavHeader(h) == Some(PcmInfo(n))
    ensures n <= MaxDataLength
    ensures h[..HeaderSize] == WavHeader(n)
  {
    assert ReadU32LE(h, 4) == 36 + n;
    RiffPart(h, n);
    FmtPart(h);
    DataPart(h, n);
    assert h[..36] == h[..12] + h[12..36];
    assert h[..44] == h[..36] + h[36..44];
  }

  /** Bytes 0..11 of a header with the RIFF and WAVE tags and RIFF size 36 + n. */
  lemma RiffPart(h: seq<byte>, n: nat)
    requires |h| >= HeaderSize && n <= MaxDataLength
    requires h[0..4] == RiffTag && h[8..12] == WaveTag && ReadU32LE(h, 4) == 36 + n
    ensures h[..12] == RiffChunk(n)
  {
    U32Canonical(h, 4);
    assert h[..12] == h[0..4] + h[4..8] + h[8..12];
  }

  /** Bytes 12..35 of a header whose `fmt ` fields are those of 16-bit mono PCM at 44.1 kHz. */
  lemma FmtPart(h: seq<byte>)
    requires |h| >= HeaderSize && h[12..16] == FmtTag
    requires ReadU32LE(h, 16) == 16 && ReadU16LE(h, 20) == 1 && ReadU16LE(h, 22) == NumChannels
    requires ReadU32LE(h, 24) == SampleRate && ReadU32LE(h, 28) == ByteRate
    requires ReadU16LE(h, 32) == BlockAlign && ReadU16LE(h, 34) == BitsPerSample
    ensures h[12..36] == FmtChunk()
  {
    U32Canonical(h, 16);
    U16Canonical(h, 20);
    U16Canonical(h, 22);
    U32Canonical(h, 24);
    U32Canonical(h, 28);
    U16Canonical(h, 32);
    U16Canonical(h, 34);
    assert h[12..36] == h[12..16] + h[16..20] + h[20..22] + h[22..24] + h[24..28] + h[28..32] + h[32..34] + h[34..36];
  }

  /** Bytes 36..43 of a header with the data tag and data size n. */
  lemma DataPart(h: seq<byte>, n: nat)
    requires |h| >= HeaderSize && n <= MaxDataLength
    requires h[36..40] == DataTag && ReadU32LE(h, 40) == n
    ensures h[36..44] == DataChunkHeader(n)
  {
    U32Canonical(h, 40);
    assert h[36..44] == h[36..40] + h[40..44];
  }

  /** Why the route answers with `{ error }` instead of a transcript. */
  datatype SttError =
    | KeyNotConfigured                                   // "Azure key not configured on server."
    | NoAudioData                                        // "No audio data provided."
    | LengthOutOfRange                                   // the RangeError of writeUInt32LE
    | AzureApiError(httpStatus: int, errorText: string)  // "Azure API error: <status> - <text>"
    | NoSpeechDetected                                   // "Audio was processed but no speech was detected. ..."
    | NoSpeechRecognized                                 // "No speech could be recognized in the audio"
    | RecognitionFailed(detail: string)                  // "Speech recognition failed: <detail>"

  const WavMimeType: string := "audio/wav"

  /** `!subscriptionKey` is false only for a present, non-empty key. */
  predicate KeyConfigured(key: Option<string>) {
    key.Some? && key.value != ""
  }

  /** Everything the route does before it calls the recognizer: the two configuration
      checks, then either the WAV bytes as they are or the header followed by the bytes. */
  method PrepareAudio(key: Option<string>, audioData: Option<seq<byte>>, mimeType: string)
    returns (r: Result<seq<byte>, SttError>)
    ensures !KeyConfigured(key) ==> r == Failure(KeyNotConfigured)
    ensures KeyConfigured(key) && audioData.None? ==> r == Failure(NoAudioData)
    ensures KeyConfigured(key) && audioData.Some? && mimeType == WavMimeType ==> r == Success(audioData.value)
    ensures KeyConfigured(key) && audioData.Some? && mimeType != WavMimeType ==>
      var audio := audioData.value;
      if |audio| <= MaxDataLength then
        && r.Success? && |r.value| == HeaderSize + |audio|
        && r.value[HeaderSize..] == audio
        && r.value[..HeaderSize] == WavHeader(|audio|)
        && ParseWavHeader(r.value) == Some(PcmInfo(|audio|))
      else r == Failure(LengthOutOfRange)
  {
    if !KeyConfigured(key) {
      return Failure(KeyNotConfigured);
    }
    if audioData.None? {
      return Failure(NoAudioData);
    }
    var audioBuffer := audioData.value;
    if mimeType == WavMimeType {
      r := Success(audioBuffer);
    } else if |audioBuffer| > MaxDataLength {
      r := Failure(LengthOutOfRange);
    } else {
      var wavHeader := CreateWavHeader(|audioBuffer|);
      var wavBuffer := wavHeader + audioBuffer;
      assert wavBuffer[..HeaderSize] == wavHeader;
      assert wavBuffer[HeaderSize..] == audioBuffer;
      WavHeaderLayout(|audioBuffer|);
      assert wavBuffer[0..4] == wavHeader[0..4] && wavBuffer[8..12] == wavHeader[8..12];
      assert wavBuffer[12..16] == wavHeader[12..16] && wavBuffer[36..40] == wavHeader[36..40];
      assert ParseWavHeader(wavBuffer) == ParseWavHeader(wavHeader);
      r := Success(wavBuffer);
    }
  }

  /** The recognizer's answer: an HTTP failure, or its JSON with the two fields the route reads. */
  datatype SpeechReply =
    | HttpFailure(httpStatus: int, errorText: string)
    | Recognition(recognitionStatus: Option<string>, displayText: Option<string>)

  /** The route's if/else chain over `RecognitionStatus` and `DisplayText`. */
  function Classify(reply: SpeechReply): (r: Result<string, SttError>)
    ensures r.Success? <==>
      reply.Recognition? && reply.recognitionStatus == Some("Success")
      && reply.displayText.Some? && !IsBlank(reply.displayText.value)
    ensures r.Success? ==> r.value == reply.displayText.value
    ensures reply.HttpFailure? ==> r == Failure(AzureApiError(reply.httpStatus, reply.errorText))
    ensures (reply.Recognition? && reply.recognitionStatus == Some("Success")
             && (reply.displayText.None? || IsBlank(reply.displayText.value))) ==> r == Failure(NoSpeechDetected)
    ensures reply.Recognition? && reply.recognitionStatus == Some("NoMatch") ==> r == Failure(NoSpeechRecognized)
    ensures reply.Recognition? && reply.recognitionStatus != Some("Success") && reply.recognitionStatus != Some("NoMatch") ==>
      r.Failure? && r.error.RecognitionFailed? && r.error.detail != ""
      && (r.error.detail == "Unknown error" <==>
          reply.recognitionStatus.None? || reply.recognitionStatus.value in {"", "Unknown error"})
      && (reply.recognitionStatus.Some? && reply.recognitionStatus.value != "" ==>
          r.error.detail == reply.recognitionStatus.value)
  {
    match reply
    case HttpFailure(status, text) => Failure(AzureApiError(status, text))
    case Recognition(status, text) =>
      if status == Some("Success") && text.Some? && Trim(text.value) != "" then Success(text.value)
      else if status == Some("Success") && (text.None? || Trim(text.value) == "") then Failure(NoSpeechDetected)
      else if status == Some("NoMatch") then Failure(NoSpeechRecognized)
      else Failure(RecognitionFailed(if status.Some? && status.value != "" then status.value else "Unknown error"))
  }

  /** The whole route, with the recognizer's reply to the prepared body as a parameter:
      a configuration or conversion error is returned before the recognizer is consulted. */
  method Post(key: Option<string>, audioData: Option<seq<byte>>, mimeType: string, reply: SpeechReply)
    returns (r: Result<string, SttError>)
    ensures !KeyConfigured(key) ==> r == Failure(KeyNotConfigured)
    ensures KeyConfigured(key) && audioData.None? ==> r == Failure(NoAudioData)
    ensures (KeyConfigured(key) && audioData.Some? && mimeType != WavMimeType
             && |audioData.value| > MaxDataLength) ==> r == Failure(LengthOutOfRange)
    ensures (KeyConfigured(key) && audioData.Some?
             && (mimeType == WavMimeType || |audioData.value| <= MaxDataLength)) ==> r == Classify(reply)
  {
    var body := PrepareAudio(key, audioData, mimeType);
    if body.Failure? {
      return Failure(body.error);
    }
    r := Classify(reply);
  }
}
