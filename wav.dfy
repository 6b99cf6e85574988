/**
 * The canonical 44-byte RIFF/WAVE header of src/main.cpp:12-26 and its field
 * computation at src/main.cpp:248-250, followed by the 16-bit PCM data.
 *
 * The source writes the struct's memory as it is; on the little-endian
 * targets it builds for, with no padding (every field sits at a multiple of
 * its size), that is the byte sequence `EncodeHeader` spells out.
 */
module Wav {
  import opened Pcm

  newtype byte = x: int | 0 <= x < 0x100
  newtype uint16 = x: int | 0 <= x < 0x1_0000
  newtype uint32 = x: int | 0 <= x < 0x1_0000_0000

  const PcmFormat: uint16 := 1
  const Channels: uint16 := 1
  const SampleRate: uint32 := 48000
  const BitsPerSample: uint16 := 16
  const FmtChunkSize: uint32 := 16
  /** Bytes of header that the RIFF chunk size counts (all but "RIFF" and the size). */
  const RiffHeaderRest: int := 36
  const HeaderSize: int := 44

  const RiffTag: seq<byte> := [0x52, 0x49, 0x46, 0x46]  // "RIFF"
  const WaveTag: seq<byte> := [0x57, 0x41, 0x56, 0x45]  // "WAVE"
  const FmtTag: seq<byte> := [0x66, 0x6d, 0x74, 0x20]   // "fmt "
  const DataTag: seq<byte> := [0x64, 0x61, 0x74, 0x61]  // "data"

  datatype Option<T> = None | Some(value: T)

  /** The numeric fields of `WAVHeader`; the four tags are fixed. */
  datatype WavHeader = WavHeader(
    chunkSize: uint32,
    fmtChunkSize: uint32,
    audioFormat: uint16,
    numChannels: uint16,
    sampleRate: uint32,
    byteRate: uint32,
    blockAlign: uint16,
    bitsPerSample: uint16,
    dataChunkSize: uint32)

  function Pow256(n: nat): (p: nat)
    ensures 0 < p
  {
    if n == 0 then 1 else 256 * Pow256(n - 1)
  }

  /** The unsigned value of a little-endian byte sequence. */
  function FromLittleEndian(b: seq<byte>): (v: nat)
    ensures v < Pow256(|b|)
  {
    if b == [] then 0 else b[0] as nat + 256 * FromLittleEndian(b[1..])
  }

  /** The `width` little-endian bytes of `v`. */
  function LittleEndian(v: nat, width: nat): (b: seq<byte>)
    requires v < Pow256(width)
    ensures |b| == width
    ensures FromLittleEndian(b) == v
  {
    if width == 0 then [] else [(v % 256) as byte] + LittleEndian(v / 256, width - 1)
  }

  /** Encoding is also a left inverse of decoding: bytes survive a round trip. */
  lemma {:induction false} LittleEndianOfValue(b: seq<byte>)
    ensures LittleEndian(FromLittleEndian(b), |b|) == b
  {
    if b != [] {
      var v := FromLittleEndian(b);
      assert v % 256 == b[0] as nat;
      assert v / 256 == FromLittleEndian(b[1..]);
      LittleEndianOfValue(b[1..]);
    }
  }

  function LE16(v: uint16): seq<byte>
  {
    LittleEndian(v as nat, 2)
  }

  function LE32(v: uint32): seq<byte>
  {
    LittleEndian(v as nat, 4)
  }

  /**
   * The header for `sampleCount` 16-bit samples. The source computes the data
   * size as a size_t and stores it, and then 36 plus it, in uint32_t fields,
   * so both wrap modulo 2^32.
   */
  function MakeHeader(sampleCount: nat): (h: WavHeader)
    ensures h.audioFormat == PcmFormat && h.numChannels == Channels
    ensures h.sampleRate == SampleRate && h.bitsPerSample == BitsPerSample
    ensures h.fmtChunkSize == FmtChunkSize
    ensures h.byteRate as int == h.sampleRate as int * h.numChannels as int * (h.bitsPerSample as int / 8)
    ensures h.blockAlign as int == h.numChannels as int * (h.bitsPerSample as int / 8)
    ensures h.dataChunkSize as int == (sampleCount * 2) % 0x1_0000_0000
    ensures h.chunkSize as int == (RiffHeaderRest + h.dataChunkSize as int) % 0x1_0000_0000
    ensures RiffHeaderRest + 2 * sampleCount < 0x1_0000_0000 ==>
              h.dataChunkSize as int == 2 * sampleCount &&
              h.chunkSize as int == RiffHeaderRest + 2 * sampleCount
  {
    var dataChunkSize := ((sampleCount * 2) % 0x1_0000_0000) as uint32;
    var chunkSize := ((RiffHeaderRest + dataChunkSize as int) % 0x1_0000_0000) as uint32;
    var blockAlign := Channels * (BitsPerSample / 8);
    var byteRate := SampleRate * blockAlign as uint32;
    WavHeader(chunkSize, FmtChunkSize, PcmFormat, Channels, SampleRate, byteRate, blockAlign,
              BitsPerSample, dataChunkSize)
  }

  /** The 44 bytes the source writes for `h`, fields in declaration order. */
  function EncodeHeader(h: WavHeader): (bytes: seq<byte>)
    ensures |bytes| == HeaderSize
  {
    RiffTag + LE32(h.chunkSize) + WaveTag +
    FmtTag + LE32(h.fmtChunkSize) + LE16(h.audioFormat) + LE16(h.numChannels) +
    LE32(h.sampleRate) + LE32(h.byteRate) + LE16(h.blockAlign) + LE16(h.bitsPerSample) +
    DataTag + LE32(h.dataChunkSize)
  }

  function U16At(b: seq<byte>, off: nat): uint16
    requires off + 2 <= |b|
  {
    FromLittleEndian(b[off..off + 2]) as uint16
  }

  function U32At(b: seq<byte>, off: nat): uint32
    requires off + 4 <= |b|
  {
    assert Pow256(4) == 0x1_0000_0000;
    FromLittleEndian(b[off..off + 4]) as uint32
  }

  /** Reads a header back from the front of a byte sequence, checking its tags. */
  function DecodeHeader(b: seq<byte>): Option<WavHeader>
  {
    if |b| < HeaderSize || b[0..4] != RiffTag || b[8..12] != WaveTag ||
       b[12..16] != FmtTag || b[36..40] != DataTag
    then None
    else Some(WavHeader(U32At(b, 4), U32At(b, 16), U16At(b, 20), U16At(b, 22),
                        U32At(b, 24), U32At(b, 28), U16At(b, 32), U16At(b, 34),
                        U32At(b, 40)))
  }

  /** Each field lies at its struct offset. */
  lemma HeaderLayout(h: WavHeader)
    ensures var b := EncodeHeader(h);
            b[0..4] == RiffTag && b[4..8] == LE32(h.chunkSize) && b[8..12] == WaveTag &&
            b[12..16] == FmtTag && b[16..20] == LE32(h.fmtChunkSize) &&
            b[20..22] == LE16(h.audioFormat) && b[22..24] == LE16(h.numChannels) &&
            b[24..28] == LE32(h.sampleRate) && b[28..32] == LE32(h.byteRate) &&
            b[32..34] == LE16(h.blockAlign) && b[34..36] == LE16(h.bitsPerSample) &&
            b[36..40] == DataTag && b[40..44] == LE32(h.dataChunkSize)
  {
  }

  /** Decoding the encoded header gives the header back. */
  lemma HeaderRoundTrip(h: WavHeader)
    ensures DecodeHeader(EncodeHeader(h)) == Some(h)
  {
    HeaderLayout(h);
  }

  /** Any 44 bytes that decode are exactly the encoding of what they decode to. */
  lemma HeaderDecodeEncode(b: seq<byte>)
    requires DecodeHeader(b).Some?
    ensures EncodeHeader(DecodeHeader(b).value) == b[..HeaderSize]
  {
    var h := DecodeHeader(b).value;
    U32Bytes(b, 4);
    U32Bytes(b, 16);
    U16Bytes(b, 20);
    U16Bytes(b, 22);
    U32Bytes(b, 24);
    U32Bytes(b, 28);
    U16Bytes(b, 32);
    U16Bytes(b, 34);
    U32Bytes(b, 40);
    HeaderFields(b);
  }

  /** The first 44 bytes, cut at the header's field boundaries. */
  lemma HeaderFields(b: seq<byte>)
    requires HeaderSize <= |b|
    ensures b[..HeaderSize] ==
            b[0..4] + b[4..8] + b[8..12] + b[12..16] + b[16..20] + b[20..22] + b[22..24] +
            b[24..28] + b[28..32] + b[32..34] + b[34..36] + b[36..40] + b[40..44]
  {
  }

  /** A 32-bit field read from `b` writes back as the same four bytes. */
  lemma U32Bytes(b: seq<byte>, off: nat)
    requires off + 4 <= |b|
    ensures LE32(U32At(b, off)) == b[off..off + 4]
  {
    LittleEndianOfValue(b[off..off + 4]);
  }

  /** A 16-bit field read from `b` writes back as the same two bytes. */
  lemma U16Bytes(b: seq<byte>, off: nat)
    requires off + 2 <= |b|
    ensures LE16(U16At(b, off)) == b[off..off + 2]
  {
    LittleEndianOfValue(b[off..off + 2]);
  }

  /** The two's-complement bit pattern of an int16_t sample. */
  function SampleBits(s: int16): (u: uint16)
    ensures 0 <= s ==> u as int == s as int
    ensures s < 0 ==> u as int == s as int + 0x1_0000
  {
    if s < 0 then (s as int + 0x1_0000) as uint16 else s as int as uint16
  }

  /** The int16_t sample a two's-complement bit pattern stands for. */
  function SampleOfBits(u: uint16): int16
  {
    if u < 0x8000 then u as int as int16 else (u as int - 0x1_0000) as int16
  }

  /** The data chunk: each sample as two little-endian bytes, in order. */
  function EncodePcm(pcm: seq<int16>): (bytes: seq<byte>)
    ensures |bytes| == 2 * |pcm|
  {
    if pcm == [] then [] else LE16(SampleBits(pcm[0])) + EncodePcm(pcm[1..])
  }

  /** Reads samples back from the data chunk, two bytes at a time. */
  function DecodePcm(bytes: seq<byte>): seq<int16>
  {
    if |bytes| < 2 then [] else [SampleOfBits(U16At(bytes, 0))] + DecodePcm(bytes[2..])
  }

  /** The data chunk decodes to the samples that were encoded. */
  lemma {:induction false} PcmRoundTrip(pcm: seq<int16>)
    ensures DecodePcm(EncodePcm(pcm)) == pcm
  {
    if pcm != [] {
      var bytes := EncodePcm(pcm);
      assert bytes[0..2] == LE16(SampleBits(pcm[0]));
      assert bytes[2..] == EncodePcm(pcm[1..]);
      PcmRoundTrip(pcm[1..]);
    }
  }

  /** The bytes the recording writes: the header for |pcm| samples, then the data. */
  function WavFile(pcm: seq<int16>): (bytes: seq<byte>)
    ensures |bytes| == HeaderSize + 2 * |pcm|
    ensures DecodeHeader(bytes) == Some(MakeHeader(|pcm|))
    ensures DecodePcm(bytes[HeaderSize..]) == pcm
  {
    var header := EncodeHeader(MakeHeader(|pcm|));
    DecodeHeaderPrefix(MakeHeader(|pcm|), EncodePcm(pcm));
    assert (header + EncodePcm(pcm))[HeaderSize..] == EncodePcm(pcm);
    PcmRoundTrip(pcm);
    header + EncodePcm(pcm)
  }

  /** The length of the file written for `sampleCount` samples. */
  function FileSize(sampleCount: nat): nat
  {
    HeaderSize + 2 * sampleCount
  }

  /** The file written for n samples is 44 + 2n bytes long. */
  lemma FileSizeIsLength(pcm: seq<int16>)
    ensures |WavFile(pcm)| == FileSize(|pcm|)
  {
  }

  /** Decoding looks only at the first 44 bytes. */
  lemma DecodeHeaderPrefix(h: WavHeader, rest: seq<byte>)
    ensures DecodeHeader(EncodeHeader(h) + rest) == Some(h)
  {
    var e := EncodeHeader(h);
    var b := e + rest;
    assert b[..HeaderSize] == e;
    HeaderLayout(h);
    assert b[0..4] == e[0..4] && b[4..8] == e[4..8] && b[8..12] == e[8..12];
    assert b[12..16] == e[12..16] && b[16..20] == e[16..20] && b[20..22] == e[20..22];
    assert b[22..24] == e[22..24] && b[24..28] == e[24..28] && b[28..32] == e[28..32];
    assert b[32..34] == e[32..34] && b[34..36] == e[34..36] && b[36..40] == e[36..40];
    assert b[40..44] == e[40..44];
  }

  /**
   * The file is consistent with its header: the RIFF size counts every byte
   * after the first eight, the data size counts every byte after the header,
   * and both the header and the samples read back. The uint32 fields hold
   * these sizes only while 36 + 2n fits in 32 bits.
   */
  lemma WavFileLayout(pcm: seq<int16>)
    requires RiffHeaderRest + 2 * |pcm| < 0x1_0000_0000
    ensures |WavFile(pcm)| == FileSize(|pcm|)
    ensures DecodeHeader(WavFile(pcm)) == Some(MakeHeader(|pcm|))
    ensures MakeHeader(|pcm|).chunkSize as int == |WavFile(pcm)| - 8
    ensures MakeHeader(|pcm|).dataChunkSize as int == |WavFile(pcm)| - HeaderSize
    ensures DecodePcm(WavFile(pcm)[HeaderSize..]) == pcm
  {
  }
}
