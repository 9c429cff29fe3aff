/** The canonical 44-byte RIFF/WAVE header for linear PCM: a "RIFF" chunk
    descriptor, a 16-byte "fmt " chunk with format code 1, and the header of
    the "data" chunk. Every integer in it is little-endian. The two size fields
    are written as 0 by Create and patched by UpdateSizes once the amount of
    audio is known. */
module WavHeader {
  import opened Common
  import opened Bytes
  import opened NodeBuffer

  const HeaderSize: nat := 44

  /** One more than the largest value writeUInt32LE accepts. */
  const U32Limit: nat := 0x1_0000_0000

  /** The options create() takes; a field left out takes its default. */
  datatype WavOptions = WavOptions(sampleRate: Option<nat>, numChannels: Option<nat>, bitsPerSample: Option<nat>)

  /** The audio format the header describes. */
  datatype WavFormat = WavFormat(sampleRate: nat, numChannels: nat, bitsPerSample: nat)

  const NoOptions := WavOptions(None, None, None)

  function Or(o: Option<nat>, default: nat): nat
  {
    if o.Some? then o.value else default
  }

  /** The format create() writes for the given options: 16000 Hz, 1 channel
      and 16 bits for every field not given. */
  function WithDefaults(options: WavOptions): WavFormat
  {
    WavFormat(Or(options.sampleRate, 16000), Or(options.numChannels, 1), Or(options.bitsPerSample, 16))
  }

  /** Bytes per second; JavaScript divides exactly and writeUInt32LE keeps the
      integer part, which is this floor division. */
  function ByteRate(f: WavFormat): nat
  {
    ScaledByteRate(f) / 8
  }

  function ScaledByteRate(f: WavFormat): nat
  {
    f.sampleRate * f.numChannels * f.bitsPerSample
  }

  /** Bytes per sample frame, with the same truncation as ByteRate. */
  function BlockAlign(f: WavFormat): nat
  {
    ScaledBlockAlign(f) / 8
  }

  function ScaledBlockAlign(f: WavFormat): nat
  {
    f.numChannels * f.bitsPerSample
  }

  /** Every field fits the width create() writes it with; otherwise Node's
      writeUInt16LE / writeUInt32LE throws. The byte rate is checked before
      truncation, as Node checks the fractional value. */
  predicate Encodable(f: WavFormat)
  {
    && f.sampleRate < U32Limit
    && f.numChannels < 0x1_0000
    && f.bitsPerSample < 0x1_0000
    && ScaledByteRate(f) <= 8 * (U32Limit - 1)
    && ScaledBlockAlign(f) <= 8 * 0xFFFF
  }

  lemma Pow256Widths()
    ensures Pow256(2) == 0x1_0000 && Pow256(4) == U32Limit
  {
  }

  /** The values of the "fmt " sub-chunk's variable fields, as create()
      computes them before writing. */
  datatype FmtFields = FmtFields(numChannels: nat, sampleRate: nat, byteRate: nat, blockAlign: nat, bitsPerSample: nat)

  function Fields(f: WavFormat): FmtFields
  {
    FmtFields(f.numChannels, f.sampleRate, ByteRate(f), BlockAlign(f), f.bitsPerSample)
  }

  /** Every field fits the width it is written with. */
  predicate Fits(x: FmtFields)
  {
    && x.numChannels < 0x1_0000 && x.sampleRate < U32Limit && x.byteRate < U32Limit
    && x.blockAlign < 0x1_0000 && x.bitsPerSample < 0x1_0000
  }

  /** An encodable format is one whose written fields all fit. */
  lemma EncodableFits(f: WavFormat)
    requires Encodable(f)
    ensures Fits(Fields(f))
  {
  }

  /** The "RIFF" chunk descriptor: tag, ChunkSize placeholder, "WAVE". */
  function RiffDescriptor(): (d: seq<byte>)
  {
    Pow256Widths();
    Latin1("RIFF") + LE(0, 4) + Latin1("WAVE")
  }

  /** The "fmt " sub-chunk: tag, size 16, PCM format code 1 and the fields. */
  function FmtChunk(x: FmtFields): (c: seq<byte>)
    requires Fits(x)
  {
    Pow256Widths();
    Latin1("fmt ") + LE(16, 4) + LE(1, 2) + LE(x.numChannels, 2) + LE(x.sampleRate, 4)
    + LE(x.byteRate, 4) + LE(x.blockAlign, 2) + LE(x.bitsPerSample, 2)
  }

  /** The header of the "data" sub-chunk: tag and Subchunk2Size placeholder. */
  function DataChunkHeader(): (d: seq<byte>)
  {
    Pow256Widths();
    Latin1("data") + LE(0, 4)
  }

  /** The 44 bytes create() lays out from the field values. */
  function HeaderOf(x: FmtFields): (h: seq<byte>)
    requires Fits(x)
    ensures |h| == HeaderSize
  {
    RiffDescriptor() + FmtChunk(x) + DataChunkHeader()
  }

  /** The header create() lays out for a format. */
  function CanonicalHeader(f: WavFormat): (h: seq<byte>)
    requires Encodable(f)
    ensures |h| == HeaderSize
  {
    EncodableFits(f);
    HeaderOf(Fields(f))
  }

  /** The little-endian 16- and 32-bit values stored at an offset of a header. */
  function U16LE(h: seq<byte>, offset: nat): nat
    requires offset + 2 <= |h|
  {
    FromLE(h[offset..offset + 2])
  }

  function U32LE(h: seq<byte>, offset: nat): nat
    requires offset + 4 <= |h|
  {
    FromLE(h[offset..offset + 4])
  }

  /** The fixed leading fields of the "fmt " sub-chunk. */
  lemma FmtChunkHead(x: FmtFields)
    requires Fits(x)
    ensures Pow256(2) == 0x1_0000 && Pow256(4) == U32Limit
    ensures var c := FmtChunk(x);
      && |c| == 24
      && c[0..4] == Latin1("fmt ") && c[4..8] == LE(16, 4) && c[8..10] == LE(1, 2)
  {
    Pow256Widths();
    var p1 := Latin1("fmt ") + LE(16, 4);
    var p2 := p1 + LE(1, 2);
    var c := FmtChunk(x);
    assert c[..10] == p2;
    assert p2[..8] == p1 && p1[..4] == Latin1("fmt ");
  }

  /** The variable fields of the "fmt " sub-chunk. */
  lemma FmtChunkValues(x: FmtFields)
    requires Fits(x)
    ensures Pow256(2) == 0x1_0000 && Pow256(4) == U32Limit
    ensures var c := FmtChunk(x);
      && |c| == 24
      && c[10..12] == LE(x.numChannels, 2) && c[12..16] == LE(x.sampleRate, 4)
      && c[16..20] == LE(x.byteRate, 4) && c[20..22] == LE(x.blockAlign, 2)
      && c[22..24] == LE(x.bitsPerSample, 2)
  {
    Pow256Widths();
    var p2 := Latin1("fmt ") + LE(16, 4) + LE(1, 2);
    var p3 := p2 + LE(x.numChannels, 2);
    var p4 := p3 + LE(x.sampleRate, 4);
    var p5 := p4 + LE(x.byteRate, 4);
    var p6 := p5 + LE(x.blockAlign, 2);
    var c := FmtChunk(x);
    assert c[..22] == p6 && p6[..20] == p5 && p5[..16] == p4 && p4[..12] == p3;
  }

  /** Where each field of the "fmt " sub-chunk sits inside it. */
  lemma FmtChunkSlices(x: FmtFields)
    requires Fits(x)
    ensures Pow256(2) == 0x1_0000 && Pow256(4) == U32Limit
    ensures var c := FmtChunk(x);
      && |c| == 24
      && c[0..4] == Latin1("fmt ") && c[4..8] == LE(16, 4) && c[8..10] == LE(1, 2)
      && c[10..12] == LE(x.numChannels, 2) && c[12..16] == LE(x.sampleRate, 4)
      && c[16..20] == LE(x.byteRate, 4) && c[20..22] == LE(x.blockAlign, 2)
      && c[22..24] == LE(x.bitsPerSample, 2)
  {
    FmtChunkHead(x);
    FmtChunkValues(x);
  }

  /** Where each field sits in the whole header. */
  lemma HeaderSlices(x: FmtFields)
    requires Fits(x)
    ensures Pow256(2) == 0x1_0000 && Pow256(4) == U32Limit
    ensures var h := HeaderOf(x);
      && |h| == HeaderSize
      && h[0..4] == Latin1("RIFF") && h[4..8] == LE(0, 4) && h[8..12] == Latin1("WAVE")
      && h[12..16] == Latin1("fmt ") && h[16..20] == LE(16, 4) && h[20..22] == LE(1, 2)
      && h[22..24] == LE(x.numChannels, 2) && h[24..28] == LE(x.sampleRate, 4)
      && h[28..32] == LE(x.byteRate, 4) && h[32..34] == LE(x.blockAlign, 2)
      && h[34..36] == LE(x.bitsPerSample, 2)
      && h[36..40] == Latin1("data") && h[40..44] == LE(0, 4)
  {
    Pow256Widths();
    FmtChunkSlices(x);
    var r, c, d := RiffDescriptor(), FmtChunk(x), DataChunkHeader();
    var h := HeaderOf(x);
    assert (Latin1("RIFF") + LE(0, 4))[..4] == Latin1("RIFF");
    assert h[..12] == r && h[12..36] == c && h[36..] == d;
    forall lo, hi | 0 <= lo <= hi <= 24 ensures h[12 + lo..12 + hi] == c[lo..hi] {
      assert h[12 + lo..12 + hi] == h[12..36][lo..hi];
    }
  }

  /** What a reader of the header finds at each offset of HeaderOf. */
  lemma HeaderLayout(x: FmtFields)
    requires Fits(x)
    ensures var h := HeaderOf(x);
      && |h| == HeaderSize
      && h[0..4] == Latin1("RIFF") && U32LE(h, 4) == 0 && h[8..12] == Latin1("WAVE")
      && h[12..16] == Latin1("fmt ") && U32LE(h, 16) == 16 && U16LE(h, 20) == 1
      && U16LE(h, 22) == x.numChannels && U32LE(h, 24) == x.sampleRate
      && U32LE(h, 28) == x.byteRate && U16LE(h, 32) == x.blockAlign
      && U16LE(h, 34) == x.bitsPerSample
      && h[36..40] == Latin1("data") && U32LE(h, 40) == 0
  {
    HeaderSlices(x);
    FromLEOfLE(0, 4);
    FromLEOfLE(16, 4);
    FromLEOfLE(1, 2);
    FromLEOfLE(x.numChannels, 2);
    FromLEOfLE(x.sampleRate, 4);
    FromLEOfLE(x.byteRate, 4);
    FromLEOfLE(x.blockAlign, 2);
    FromLEOfLE(x.bitsPerSample, 2);
  }

  /** The canonical header of a format reads back the format: channels,
      rate and sample width as given, the byte rate and block align as
      create() computes them (the integer part of the exact quotient). */
  lemma CanonicalHeaderLayout(f: WavFormat)
    requires Encodable(f)
    ensures var h := CanonicalHeader(f);
      && |h| == HeaderSize
      && h[0..4] == Latin1("RIFF") && U32LE(h, 4) == 0 && h[8..12] == Latin1("WAVE")
      && h[12..16] == Latin1("fmt ") && U32LE(h, 16) == 16 && U16LE(h, 20) == 1
      && U16LE(h, 22) == f.numChannels && U32LE(h, 24) == f.sampleRate
      && U32LE(h, 28) == f.sampleRate * f.numChannels * f.bitsPerSample / 8
      && U16LE(h, 32) == f.numChannels * f.bitsPerSample / 8
      && U16LE(h, 34) == f.bitsPerSample
      && h[36..40] == Latin1("data") && U32LE(h, 40) == 0
  {
    EncodableFits(f);
    HeaderLayout(Fields(f));
  }

  /** Two headers of the same shape are equal exactly when their fields
      are: the header is a faithful encoding of the fields. */
  lemma HeaderOfInjective(x: FmtFields, y: FmtFields)
    requires Fits(x) && Fits(y)
    ensures HeaderOf(x) == HeaderOf(y) <==> x == y
  {
    if HeaderOf(x) == HeaderOf(y) {
      HeaderLayout(x);
      HeaderLayout(y);
    }
  }

  /** For whole-byte samples the header is self-consistent: a frame holds
      bitsPerSample / 8 bytes per channel and the byte rate is one frame per
      sample period. */
  lemma WholeByteSamples(f: WavFormat)
    requires f.bitsPerSample % 8 == 0
    ensures BlockAlign(f) == f.numChannels * (f.bitsPerSample / 8)
    ensures ByteRate(f) == f.sampleRate * BlockAlign(f)
  {
    var k := f.bitsPerSample / 8;
    assert f.bitsPerSample == 8 * k;
    assert f.numChannels * f.bitsPerSample == 8 * (f.numChannels * k);
    assert f.sampleRate * f.numChannels * f.bitsPerSample == 8 * (f.sampleRate * (f.numChannels * k));
  }

  /** With no options: 16000 Hz mono 16-bit, so 32000 bytes per second and
      2-byte frames. */
  lemma DefaultHeader()
    ensures Encodable(WithDefaults(NoOptions))
    ensures var h := CanonicalHeader(WithDefaults(NoOptions));
      U16LE(h, 22) == 1 && U32LE(h, 24) == 16000 && U32LE(h, 28) == 32000
      && U16LE(h, 32) == 2 && U16LE(h, 34) == 16
  {
    CanonicalHeaderLayout(WithDefaults(NoOptions));
  }

  /** The header create() returns when called without options, as the
      capture server calls it. */
  function DefaultCanonicalHeader(): (h: seq<byte>)
    ensures |h| == HeaderSize
  {
    CanonicalHeader(WithDefaults(NoOptions))
  }

  /** writeString: the character codes of str, one byte each, from offset on. */
  method WriteString(buffer: array<byte>, offset: nat, str: string)
    requires IsLatin1(str) && offset + |str| <= buffer.Length
    modifies buffer
    ensures buffer[..] == Overwrite(old(buffer[..]), offset, Latin1(str))
  {
    ghost var bytes := Latin1(str);
    var i := 0;
    while i < |str|
      invariant 0 <= i <= |str|
      invariant buffer[..] == Overwrite(old(buffer[..]), offset, bytes[..i])
    {
      assert bytes[..i + 1] == bytes[..i] + [str[i] as int];
      OverwriteExtend(old(buffer[..]), offset, bytes[..i], str[i] as int);
      buffer[offset + i] := str[i] as int;
      i := i + 1;
    }
    assert bytes[..i] == bytes;
  }

  /** create(): a fresh 44-byte buffer holding the canonical header, with both
      size fields 0. An option too large for the width it is written with
      makes writeUInt16LE / writeUInt32LE throw, and the partly written buffer
      is lost with it. */
  method Create(options: WavOptions) returns (r: Result<array<byte>, Failure>)
    ensures r.Failure? <==> !Encodable(WithDefaults(options))
    ensures r.Failure? ==> r.error == ValueOutOfRange
    ensures r.Success? ==> fresh(r.value) && r.value[..] == CanonicalHeader(WithDefaults(options))
  {
    var f := WithDefaults(options);
    if !Encodable(f) {
      return Failure(ValueOutOfRange);
    }
    var byteRate := (f.sampleRate * f.numChannels * f.bitsPerSample) / 8;
    var blockAlign := (f.numChannels * f.bitsPerSample) / 8;
    var x := FmtFields(f.numChannels, f.sampleRate, byteRate, blockAlign, f.bitsPerSample);
    assert x == Fields(f);
    EncodableFits(f);
    var header := new byte[HeaderSize](_ => 0);
    WriteFields(header, x);
    return Success(header);
  }

  /** create() with no options, as the capture server calls it: the default
      format always fits. */
  method CreateDefault() returns (header: array<byte>, ghost format: WavFormat)
    ensures format == WithDefaults(NoOptions) && Encodable(format)
    ensures fresh(header) && header[..] == CanonicalHeader(format)
  {
    DefaultHeader();
    format := WithDefaults(NoOptions);
    var r := Create(NoOptions);
    header := r.value;
  }

  /** The writes of create(), in order, into a zeroed 44-byte buffer. */
  method WriteFields(header: array<byte>, x: FmtFields)
    requires header.Length == HeaderSize && Fits(x)
    modifies header
    ensures header[..] == HeaderOf(x)
  {
    ghost var c := HeaderOf(x);
    HeaderSlices(x);
    // Before each write the buffer agrees with c up to the write's offset.

    ghost var h0 := header[..];
    WriteString(header, 0, "RIFF");
    assert header[..4] == c[..4] by { OverwritePrefix(h0, c, 0, Latin1("RIFF")); }
    h0 := header[..];
    WriteUIntLE(header, 0, 4, 4);
    assert header[..8] == c[..8] by { OverwritePrefix(h0, c, 4, LE(0, 4)); }
    h0 := header[..];
    WriteString(header, 8, "WAVE");
    assert header[..12] == c[..12] by { OverwritePrefix(h0, c, 8, Latin1("WAVE")); }

    h0 := header[..];
    WriteString(header, 12, "fmt ");
    assert header[..16] == c[..16] by { OverwritePrefix(h0, c, 12, Latin1("fmt ")); }
    h0 := header[..];
    WriteUIntLE(header, 16, 16, 4);
    assert header[..20] == c[..20] by { OverwritePrefix(h0, c, 16, LE(16, 4)); }
    h0 := header[..];
    WriteUIntLE(header, 1, 20, 2);
    assert header[..22] == c[..22] by { OverwritePrefix(h0, c, 20, LE(1, 2)); }
    h0 := header[..];
    WriteUIntLE(header, x.numChannels, 22, 2);
    assert header[..24] == c[..24] by { OverwritePrefix(h0, c, 22, LE(x.numChannels, 2)); }
    h0 := header[..];
    WriteUIntLE(header, x.sampleRate, 24, 4);
    assert header[..28] == c[..28] by { OverwritePrefix(h0, c, 24, LE(x.sampleRate, 4)); }
    h0 := header[..];
    WriteUIntLE(header, x.byteRate, 28, 4);
    assert header[..32] == c[..32] by { OverwritePrefix(h0, c, 28, LE(x.byteRate, 4)); }
    h0 := header[..];
    WriteUIntLE(header, x.blockAlign, 32, 2);
    assert header[..34] == c[..34] by { OverwritePrefix(h0, c, 32, LE(x.blockAlign, 2)); }
    h0 := header[..];
    WriteUIntLE(header, x.bitsPerSample, 34, 2);
    assert header[..36] == c[..36] by { OverwritePrefix(h0, c, 34, LE(x.bitsPerSample, 2)); }

    h0 := header[..];
    WriteString(header, 36, "data");
    assert header[..40] == c[..40] by { OverwritePrefix(h0, c, 36, Latin1("data")); }
    h0 := header[..];
    WriteUIntLE(header, 0, 40, 4);
    assert header[..44] == c[..44] by { OverwritePrefix(h0, c, 40, LE(0, 4)); }

    assert header[..] == header[..HeaderSize];
  }

  /** The header h with ChunkSize (bytes 4-7) set to dataSize + 36 and
      Subchunk2Size (bytes 40-43) set to dataSize. */
  function WithSizes(h: seq<byte>, dataSize: nat): (r: seq<byte>)
    requires |h| >= HeaderSize && dataSize + 36 < U32Limit
  {
    Pow256Widths();
    Overwrite(Overwrite(h, 4, LE(dataSize + 36, 4)), 40, LE(dataSize, 4))
  }

  /** After the update the two size fields hold dataSize + 36 and dataSize,
      little-endian, and read back as those values; the other bytes are
      those of h. */
  lemma WithSizesLayout(h: seq<byte>, dataSize: nat)
    requires |h| >= HeaderSize && dataSize + 36 < U32Limit
    ensures Pow256(4) == U32Limit
    ensures var r := WithSizes(h, dataSize);
      && |r| == |h|
      && r[4..8] == LE(dataSize + 36, 4) && U32LE(r, 4) == dataSize + 36
      && r[40..44] == LE(dataSize, 4) && U32LE(r, 40) == dataSize
      && forall i :: 0 <= i < |h| && !(4 <= i < 8) && !(40 <= i < 44) ==> r[i] == h[i]
  {
    Pow256Widths();
    FromLEOfLE(dataSize + 36, 4);
    FromLEOfLE(dataSize, 4);
    var mid := Overwrite(h, 4, LE(dataSize + 36, 4));
    OverwriteElsewhere(h, 4, LE(dataSize + 36, 4));
    OverwriteElsewhere(mid, 40, LE(dataSize, 4));
    var r := WithSizes(h, dataSize);
    assert r[4..8] == mid[4..8];
  }

  /** Only the last update counts: updating with d1 and then d2 is updating
      with d2; in particular updating twice with the same size is the same as
      updating once. */
  lemma WithSizesLastWriteWins(h: seq<byte>, d1: nat, d2: nat)
    requires |h| >= HeaderSize && d1 + 36 < U32Limit && d2 + 36 < U32Limit
    ensures WithSizes(WithSizes(h, d1), d2) == WithSizes(h, d2)
  {
    var x := WithSizes(h, d1);
    var a := WithSizes(x, d2);
    var b := WithSizes(h, d2);
    WithSizesLayout(h, d1);
    WithSizesLayout(x, d2);
    WithSizesLayout(h, d2);
    forall i | 0 <= i < |h| ensures a[i] == b[i] {
      if 4 <= i < 8 {
        assert a[i] == a[4..8][i - 4] && b[i] == b[4..8][i - 4];
      } else if 40 <= i < 44 {
        assert a[i] == a[40..44][i - 40] && b[i] == b[40..44][i - 40];
      }
    }
  }

  /** updateSizes(header, dataSize), in place. */
  method UpdateSizes(header: array<byte>, dataSize: nat)
    requires header.Length >= HeaderSize && dataSize + 36 < U32Limit
    modifies header
    ensures header[..] == WithSizes(old(header[..]), dataSize)
  {
    Pow256Widths();
    WriteUIntLE(header, dataSize + 36, 4, 4);
    WriteUIntLE(header, dataSize, 40, 4);
  }

  /** A finished header: the canonical header of f with its sizes patched
      reads back dataSize + 36 and dataSize, every other field as created. */
  lemma FinalizedHeader(f: WavFormat, dataSize: nat)
    requires Encodable(f) && dataSize + 36 < U32Limit
    ensures var c := CanonicalHeader(f);
      var h := WithSizes(c, dataSize);
      && |h| == HeaderSize
      && U32LE(h, 4) == dataSize + 36 && U32LE(h, 40) == dataSize
      && h[..4] == c[..4] && h[8..40] == c[8..40]
  {
    CanonicalHeaderLayout(f);
    var c := CanonicalHeader(f);
    WithSizesLayout(c, dataSize);
    var h := WithSizes(c, dataSize);
    assert h[..4] == c[..4];
    assert h[8..40] == c[8..40];
  }
}
