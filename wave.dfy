/** `Synthesizer.add_wave_header` and the choice of bytes that `save_raw_pcm`
    and `save_wave` write: the canonical 44-byte header of a RIFF WAVE file
    holding one `fmt ` chunk (PCM, format tag 1) and one `data` chunk, all
    integers little-endian. */
module Wave {
  import opened Base
  import opened Bytes

  /** `self._channels` and `self._bits`: fixed at construction and never changed. */
  const Channels := 1
  const Bits := 16

  const RIFF: seq<byte> := [0x52, 0x49, 0x46, 0x46]                          // "RIFF"
  const WAVEfmt: seq<byte> := [0x57, 0x41, 0x56, 0x45, 0x66, 0x6D, 0x74, 0x20] // "WAVEfmt "
  const DATA: seq<byte> := [0x64, 0x61, 0x74, 0x61]                           // "data"

  /** Fits a `struct` `I` field. */
  predicate IsU32(x: int) { 0 <= x < 0x1_0000_0000 }

  /** Fits a `struct` `H` field. */
  predicate IsU16(x: int) { 0 <= x < 0x1_0000 }

  function U32(x: int): (r: seq<byte>)
    requires IsU32(x)
    ensures |r| == 4
  {
    Pow256Values();
    LE(x, 4)
  }

  function U16(x: int): (r: seq<byte>)
    requires IsU16(x)
    ensures |r| == 2
  {
    Pow256Values();
    LE(x, 2)
  }

  /** `framerate * channels * bits // 8`. */
  function ByteRate(framerate: int): int { framerate * Channels * Bits / 8 }

  /** `channels * bits // 8`. */
  function BlockAlign(): int { Channels * Bits / 8 }

  /** Every field `struct.pack('<4sI8sIHHIIHH4sI', ...)` range-checks is in range. */
  predicate HeaderFits(framerate: int, pcm: seq<byte>)
  {
    IsU32(|pcm| + 36) && IsU32(framerate) && IsU32(ByteRate(framerate)) && IsU32(|pcm|)
  }

  /** `add_wave_header(pcm_data)`: the 44-byte header followed by the data
      unchanged, or `struct.error` when a size or the framerate does not fit
      its 32-bit field. */
  function AddWaveHeader(framerate: int, pcm: seq<byte>): (r: Result<seq<byte>>)
    ensures r.Ok? <==> |pcm| + 36 < 0x1_0000_0000 && 0 <= framerate && 2 * framerate < 0x1_0000_0000
    ensures r.Err? ==> r.error == StructError
    ensures r.Ok? ==> |r.value| == 44 + |pcm| && r.value[..4] == RIFF && r.value[44..] == pcm
  {
    if !HeaderFits(framerate, pcm) then Err(StructError)
    else Ok(Header(framerate, |pcm|) + pcm)
  }

  /** The header itself, in four runs of fields: the RIFF chunk header and
      form type (bytes 0-15), the first half of the `fmt ` chunk (16-27),
      its second half (28-35) and the `data` chunk header (36-43). */
  function Header(framerate: int, size: nat): (h: seq<byte>)
    requires IsU32(size + 36) && IsU32(framerate) && IsU32(ByteRate(framerate))
    ensures |h| == 44 && h[..4] == RIFF
  {
    var r, f, g, d := RiffPart(size), FmtPart(framerate), FormatPart(framerate), DataPart(size);
    PrefixKept(r, f, 4);
    PrefixKept(r + f, g, 4);
    PrefixKept(r + f + g, d, 4);
    r + f + g + d
  }

  function RiffPart(size: nat): (p: seq<byte>)
    requires IsU32(size + 36)
    ensures |p| == 16 && p[..4] == RIFF
  {
    var n := U32(size + 36);
    PrefixKept(RIFF, n, 4);
    PrefixKept(RIFF + n, WAVEfmt, 4);
    RIFF + n + WAVEfmt
  }

  lemma PrefixKept(x: seq<byte>, y: seq<byte>, n: nat)
    requires n <= |x|
    ensures (x + y)[..n] == x[..n]
  {
  }

  function FmtPart(framerate: int): (p: seq<byte>)
    requires IsU32(framerate)
    ensures |p| == 12
  {
    U32(16) + U16(1) + U16(Channels) + U32(framerate)
  }

  function FormatPart(framerate: int): (p: seq<byte>)
    requires IsU32(ByteRate(framerate))
    ensures |p| == 8
  {
    U32(ByteRate(framerate)) + U16(BlockAlign()) + U16(Bits)
  }

  function DataPart(size: nat): (p: seq<byte>)
    requires IsU32(size + 36)
    ensures |p| == 8
  {
    DATA + U32(size)
  }

  /** The fields of a RIFF WAVE header, read back from their offsets. */
  datatype WaveFormat = WaveFormat(
    chunkSize: nat,     // offset 4
    audioFormat: nat,   // offset 20
    channels: nat,      // offset 22
    framerate: nat,     // offset 24
    byteRate: nat,      // offset 28
    blockAlign: nat,    // offset 32
    bits: nat,          // offset 34
    dataSize: nat)      // offset 40

  /** Reads a canonical 44-byte header: the tags `RIFF`, `WAVEfmt ` and
      `data`, a 16-byte `fmt ` chunk, and the little-endian fields at their
      offsets; gives the fields and the data that follows. */
  function DecodeWaveHeader(b: seq<byte>): Option<(WaveFormat, seq<byte>)>
  {
    if |b| < 44 || b[..4] != RIFF || b[8..16] != WAVEfmt || FromLE(b[16..20]) != 16 || b[36..40] != DATA
    then None
    else Some((WaveFormat(FromLE(b[4..8]), FromLE(b[20..22]), FromLE(b[22..24]), FromLE(b[24..28]),
                          FromLE(b[28..32]), FromLE(b[32..34]), FromLE(b[34..36]), FromLE(b[40..44])),
               b[44..]))
  }

  /** Decoding the header `add_wave_header` builds recovers the framerate,
      the fixed channel count and sample width, the sizes derived from the
      data length, and the data itself. */
  lemma HeaderRoundTrip(framerate: int, pcm: seq<byte>)
    requires AddWaveHeader(framerate, pcm).Ok?
    ensures DecodeWaveHeader(AddWaveHeader(framerate, pcm).value)
         == Some((WaveFormat(|pcm| + 36, 1, Channels, framerate, framerate * Channels * Bits / 8,
                             Channels * Bits / 8, Bits, |pcm|), pcm))
  {
    var b := AddWaveHeader(framerate, pcm).value;
    HeaderLayout(framerate, pcm);
    RiffFields(|pcm|);
    FmtFields(framerate);
    FormatFields(framerate);
    DataFields(|pcm|);
  }

  /** Where each field of the header sits in the output. */
  lemma HeaderLayout(framerate: int, pcm: seq<byte>)
    requires AddWaveHeader(framerate, pcm).Ok?
    ensures var b := AddWaveHeader(framerate, pcm).value;
      var r, f, g, d := RiffPart(|pcm|), FmtPart(framerate), FormatPart(framerate), DataPart(|pcm|);
      b[..4] == r[..4] && b[4..8] == r[4..8] && b[8..16] == r[8..16] &&
      b[16..20] == f[..4] && b[20..22] == f[4..6] && b[22..24] == f[6..8] && b[24..28] == f[8..12] &&
      b[28..32] == g[..4] && b[32..34] == g[4..6] && b[34..36] == g[6..8] &&
      b[36..40] == d[..4] && b[40..44] == d[4..8] && b[44..] == pcm
  {
    var b := AddWaveHeader(framerate, pcm).value;
    HeaderParts(framerate, pcm);
    RiffSlices(b, RiffPart(|pcm|));
    FmtSlices(b, FmtPart(framerate));
    FormatSlices(b, FormatPart(framerate));
    DataSlices(b, DataPart(|pcm|));
  }

  lemma RiffSlices(b: seq<byte>, r: seq<byte>)
    requires |r| == 16 && |b| >= 16 && b[0..16] == r
    ensures b[..4] == r[..4] && b[4..8] == r[4..8] && b[8..16] == r[8..16]
  {
    SliceOfPart(b, r, 0, 0, 4);
    SliceOfPart(b, r, 0, 4, 8);
    SliceOfPart(b, r, 0, 8, 16);
  }

  lemma FmtSlices(b: seq<byte>, f: seq<byte>)
    requires |f| == 12 && |b| >= 28 && b[16..28] == f
    ensures b[16..20] == f[..4] && b[20..22] == f[4..6] && b[22..24] == f[6..8] && b[24..28] == f[8..12]
  {
    SliceOfPart(b, f, 16, 0, 4);
    SliceOfPart(b, f, 16, 4, 6);
    SliceOfPart(b, f, 16, 6, 8);
    SliceOfPart(b, f, 16, 8, 12);
  }

  lemma FormatSlices(b: seq<byte>, g: seq<byte>)
    requires |g| == 8 && |b| >= 36 && b[28..36] == g
    ensures b[28..32] == g[..4] && b[32..34] == g[4..6] && b[34..36] == g[6..8]
  {
    SliceOfPart(b, g, 28, 0, 4);
    SliceOfPart(b, g, 28, 4, 6);
    SliceOfPart(b, g, 28, 6, 8);
  }

  lemma DataSlices(b: seq<byte>, d: seq<byte>)
    requires |d| == 8 && |b| >= 44 && b[36..44] == d
    ensures b[36..40] == d[..4] && b[40..44] == d[4..8]
  {
    SliceOfPart(b, d, 36, 0, 4);
    SliceOfPart(b, d, 36, 4, 8);
  }

  lemma HeaderParts(framerate: int, pcm: seq<byte>)
    requires AddWaveHeader(framerate, pcm).Ok?
    ensures var b := AddWaveHeader(framerate, pcm).value;
      b[0..16] == RiffPart(|pcm|) && b[16..28] == FmtPart(framerate) &&
      b[28..36] == FormatPart(framerate) && b[36..44] == DataPart(|pcm|)
  {
    var b := AddWaveHeader(framerate, pcm).value;
    var r, f, g, d := RiffPart(|pcm|), FmtPart(framerate), FormatPart(framerate), DataPart(|pcm|);
    var h := Header(framerate, |pcm|);
    Concat(h, pcm);
    Concat(r + f + g, d);
    Concat(r + f, g);
    Concat(r, f);
    SliceOfPart(b, h, 0, 0, 16);
    SliceOfPart(b, h, 0, 16, 28);
    SliceOfPart(b, h, 0, 28, 36);
    SliceOfPart(b, h, 0, 36, 44);
    SliceOfPart(h, r + f + g, 0, 0, 16);
    SliceOfPart(h, r + f + g, 0, 16, 28);
    SliceOfPart(h, r + f + g, 0, 28, 36);
    SliceOfPart(r + f + g, r + f, 0, 0, 16);
    SliceOfPart(r + f + g, r + f, 0, 16, 28);
  }

  lemma Concat(x: seq<byte>, y: seq<byte>)
    ensures (x + y)[..|x|] == x && (x + y)[|x|..] == y
  {
  }

  lemma SliceOfPart(b: seq<byte>, p: seq<byte>, off: nat, i: nat, j: nat)
    requires off + |p| <= |b| && b[off..off + |p|] == p && i <= j <= |p|
    ensures b[off + i..off + j] == p[i..j]
  {
    forall k | 0 <= k < j - i ensures b[off + i..off + j][k] == p[i..j][k] {
      assert b[off + i + k] == b[off..off + |p|][i + k];
    }
  }

  lemma RiffFields(size: nat)
    requires IsU32(size + 36)
    ensures var p := RiffPart(size); p[..4] == RIFF && FromLE(p[4..8]) == size + 36 && p[8..16] == WAVEfmt
  {
    Pow256Values();
    FromLEOfLE(size + 36, 4);
  }

  lemma FmtFields(framerate: int)
    requires IsU32(framerate)
    ensures var p := FmtPart(framerate);
      FromLE(p[..4]) == 16 && FromLE(p[4..6]) == 1 && FromLE(p[6..8]) == Channels && FromLE(p[8..12]) == framerate
  {
    Pow256Values();
    var p := FmtPart(framerate);
    assert p[..4] == U32(16) && p[4..6] == U16(1) && p[6..8] == U16(Channels) && p[8..12] == U32(framerate);
    FromLEOfLE(16, 4);
    FromLEOfLE(1, 2);
    FromLEOfLE(Channels, 2);
    FromLEOfLE(framerate, 4);
  }

  lemma FormatFields(framerate: int)
    requires IsU32(ByteRate(framerate))
    ensures var p := FormatPart(framerate);
      FromLE(p[..4]) == ByteRate(framerate) && FromLE(p[4..6]) == BlockAlign() && FromLE(p[6..8]) == Bits
  {
    Pow256Values();
    var p := FormatPart(framerate);
    assert p[..4] == U32(ByteRate(framerate)) && p[4..6] == U16(BlockAlign()) && p[6..8] == U16(Bits);
    FromLEOfLE(ByteRate(framerate), 4);
    FromLEOfLE(BlockAlign(), 2);
    FromLEOfLE(Bits, 2);
  }

  lemma DataFields(size: nat)
    requires IsU32(size + 36)
    ensures var p := DataPart(size); p[..4] == DATA && FromLE(p[4..8]) == size
  {
    Pow256Values();
    assert DataPart(size)[4..8] == U32(size);
    FromLEOfLE(size, 4);
  }

  /** A 100-byte buffer at 44100 Hz becomes a 144-byte file whose RIFF
      chunk size reads 136 and whose data size reads 100. */
  lemma HeaderExample(pcm: seq<byte>)
    requires |pcm| == 100
    ensures AddWaveHeader(44100, pcm).Ok?
    ensures var b := AddWaveHeader(44100, pcm).value;
      |b| == 144 && FromLE(b[4..8]) == 136 && FromLE(b[40..44]) == 100 && FromLE(b[24..28]) == 44100
  {
    HeaderRoundTrip(44100, pcm);
  }

  // ------------------------------------------------------------ saving

  /** `bytes(pcm_data[:4]) == b"RIFF"`. */
  predicate StartsWithRiff(data: seq<byte>)
  {
    |data| >= 4 && data[..4] == RIFF
  }

  /** The bytes `save_raw_pcm` writes: `pcm_data[44:]` after a leading
      `RIFF`, the buffer itself otherwise. */
  function RawSaveBytes(data: seq<byte>): seq<byte>
  {
    if StartsWithRiff(data) then (if |data| >= 44 then data[44..] else []) else data
  }

  /** The bytes `save_wave` writes: the buffer itself after a leading
      `RIFF`, the buffer with a header added otherwise. */
  function WaveSaveBytes(framerate: int, data: seq<byte>): Result<seq<byte>>
  {
    if StartsWithRiff(data) then Ok(data) else AddWaveHeader(framerate, data)
  }

  /** Saving a wrapped buffer raw gives back exactly the PCM data. */
  lemma RawSaveOfWave(framerate: int, pcm: seq<byte>)
    requires AddWaveHeader(framerate, pcm).Ok?
    ensures RawSaveBytes(AddWaveHeader(framerate, pcm).value) == pcm
  {
  }

  /** What `save_wave` writes always starts with a header, and writing it
      again changes nothing: a buffer is never wrapped twice. */
  lemma WaveSaveIdempotent(framerate: int, data: seq<byte>)
    requires WaveSaveBytes(framerate, data).Ok?
    ensures StartsWithRiff(WaveSaveBytes(framerate, data).value)
    ensures WaveSaveBytes(framerate, WaveSaveBytes(framerate, data).value) == WaveSaveBytes(framerate, data)
  {
  }

  /** `save_raw_pcm` drops the first 44 bytes of every buffer that starts
      with `RIFF`, header or not, and otherwise writes the buffer as is. */
  lemma RawSaveStrips(data: seq<byte>)
    ensures StartsWithRiff(data) ==> |RawSaveBytes(data)| == if |data| >= 44 then |data| - 44 else 0
    ensures StartsWithRiff(data) ==> RawSaveBytes(data) == data[|data| - |RawSaveBytes(data)|..]
    ensures !StartsWithRiff(data) ==> RawSaveBytes(data) == data
  {
  }

  /** Raw PCM whose first two samples are 18770 and 17990 happens to begin
      with the bytes `RIFF`: `save_wave` then writes it with no header at
      all, and `save_raw_pcm` drops its first 22 samples. */
  lemma RiffLookalikePcm(framerate: int, rest: seq<byte>)
    ensures var data := ShortBytes(18770) + ShortBytes(17990) + rest;
      WaveSaveBytes(framerate, data) == Ok(data) &&
      RawSaveBytes(data) == if |data| >= 44 then data[44..] else []
  {
    Pow256Values();
    var data := ShortBytes(18770) + ShortBytes(17990) + rest;
    assert ShortBytes(18770) == [0x52, 0x49];
    assert ShortBytes(17990) == [0x46, 0x46];
    assert data[..4] == RIFF;
  }
}
