/** The byte layout of the canonical 44-byte RIFF/WAVE header: the encoders
    `WavWriter` uses to emit it and the decoders `WavReader` uses to parse it.

    A file is a sequence of bytes and a cursor. The cursor may lie past the
    end of the file (seeking there succeeds); a read there yields fewer
    bytes than asked for and moves the cursor by the number of bytes read.
    `readInt32`/`readInt16` read into a zero-initialised word in the host's
    byte order; the model takes a little-endian host, so a short read leaves
    the missing high-order bytes zero. */
module WaveFormat {
  import opened FixedPoint

  type Byte = x: int | 0 <= x < 0x100
  type UInt32 = x: int | 0 <= x < 0x1_0000_0000

  datatype Option<T> = None | Some(value: T)

  /** `FormatTag_PCM` and `FormatTag_IEEE_float`. */
  const FormatTagPcm: int := 0x1
  const FormatTagIeeeFloat: int := 0x3

  const HeaderSize: nat := 44

  // Integer conversions ------------------------------------------------------

  /** Conversion to `uint16_t`: the value modulo 2^16. */
  function AsUInt16(v: int): (r: UInt16)
    ensures 0 <= v <= 0xFFFF ==> r == v
  {
    v % 0x1_0000
  }

  /** Conversion to `uint32_t`: the value modulo 2^32. */
  function AsUInt32(v: int): (r: UInt32)
    ensures 0 <= v < TwoTo32 ==> r == v
  {
    v % TwoTo32
  }

  /** Conversion of a `uint16_t` to `short`: two's complement. */
  function AsInt16(u: UInt16): (r: Int16)
    ensures AsUInt16(r) == u
    ensures u <= Int16Max ==> r == u
  {
    if u > Int16Max then u - 0x1_0000 else u
  }

  /** Conversion of a `uint32_t` to `int`: two's complement. */
  function AsInt32(u: UInt32): (r: Int32)
    ensures AsUInt32(r) == u
    ensures u <= Int32Max ==> r == u
  {
    if u > Int32Max then u - TwoTo32 else u
  }

  /** C's integer division, which truncates toward zero. */
  function TruncDiv(a: int, b: int): (q: int)
    requires b > 0
    ensures 0 <= a ==> q == a / b
    ensures a <= 0 ==> -q == (-a) / b
  {
    if a >= 0 then a / b else -((-a) / b)
  }

  // Encoders -----------------------------------------------------------------

  /** A `char` stored through `uint8_t` or written by `fputc`. */
  function ByteOf(c: char): Byte
  {
    (c as int) % 0x100
  }

  /** `MakeFourCc`: four characters packed big-endian, the first one in the
      most significant byte. */
  function MakeFourCc(c0: char, c1: char, c2: char, c3: char): (r: UInt32)
    ensures r / 0x100_0000 == ByteOf(c0) && r % 0x100 == ByteOf(c3)
  {
    ByteOf(c0) * 0x100_0000 + ByteOf(c1) * 0x1_0000 + ByteOf(c2) * 0x100 + ByteOf(c3)
  }

  const RiffTag: UInt32 := MakeFourCc('R', 'I', 'F', 'F')
  const WaveTag: UInt32 := MakeFourCc('W', 'A', 'V', 'E')
  const DataTag: UInt32 := MakeFourCc('d', 'a', 't', 'a')

  /** `writeString`: the first four characters of s. */
  function WriteString(s: string): (r: seq<Byte>)
    requires |s| >= 4
    ensures |r| == 4
  {
    [ByteOf(s[0]), ByteOf(s[1]), ByteOf(s[2]), ByteOf(s[3])]
  }

  /** `writeInt32`: `(v >> 8k) & 0xff` for k = 0..3. The arithmetic shift
      floors and the mask is the remainder modulo 256. */
  function WriteInt32(v: int): (r: seq<Byte>)
    ensures |r| == 4
  {
    [v % 0x100, (v / 0x100) % 0x100, (v / 0x1_0000) % 0x100, (v / 0x100_0000) % 0x100]
  }

  /** `writeInt16`: `(v >> 8k) & 0xff` for k = 0, 1. */
  function WriteInt16(v: int): (r: seq<Byte>)
    ensures |r| == 2
  {
    [v % 0x100, (v / 0x100) % 0x100]
  }

  /** A little-endian word. */
  function LittleEndian4(b: seq<Byte>): (r: UInt32)
    requires |b| == 4
  {
    b[0] as int + 0x100 * b[1] as int + 0x1_0000 * b[2] as int + 0x100_0000 * b[3] as int
  }

  function LittleEndian2(b: seq<Byte>): (r: UInt16)
    requires |b| == 2
  {
    b[0] as int + 0x100 * b[1] as int
  }

  /** A big-endian word, as `readString` assembles it. */
  function BigEndian4(b: seq<Byte>): (r: UInt32)
    requires |b| == 4
  {
    b[0] as int * 0x100_0000 + b[1] as int * 0x1_0000 + b[2] as int * 0x100 + b[3] as int
  }

  // Division facts the encoders' round trips rest on.

  lemma MulAtLeast(d: int, k: int)
    requires d > 0 && k >= 1
    ensures d * k >= d
  {
    assert d * k == d * (k - 1) + d;
  }

  /** A quotient of non-negative numbers is no larger than the dividend. */
  lemma QuotientBounds(a: int, b: int)
    requires a >= 0 && b > 0
    ensures 0 <= a / b <= a
  {
    var q, r := a / b, a % b;
    assert a == b * q + r && 0 <= r;
    if q > 0 {
      MulAtLeast(q, b);
      assert q * b == b * q;
    }
  }

  /** A multiple of d is 0 or at least d away from 0. */
  lemma MultipleTrichotomy(d: int, k: int)
    requires d > 0
    ensures k == 0 || d * k >= d || d * k <= -d
  {
    if k >= 1 {
      MulAtLeast(d, k);
    } else if k <= -1 {
      MulAtLeast(d, -k);
      assert d * k == -(d * -k);
    }
  }

  /** Euclidean division is unique. */
  lemma DivModUnique(v: int, d: int, q: int, r: int)
    requires d > 0 && v == d * q + r && 0 <= r < d
    ensures v / d == q && v % d == r
  {
    var q0, r0 := v / d, v % d;
    assert d * q0 + r0 == d * q + r;
    assert d * (q - q0) == r0 - r;
    MultipleTrichotomy(d, q - q0);
  }

  /** Peeling off the low byte: v mod 256m is its low byte plus 256 times
      the remaining bytes modulo m, and v / 256m is (v / 256) / m. */
  lemma PeelByte(v: int, m: int)
    requires m > 0
    ensures v % (0x100 * m) == v % 0x100 + 0x100 * ((v / 0x100) % m)
    ensures v / (0x100 * m) == (v / 0x100) / m
  {
    var q, r := v / 0x100, v % 0x100;
    var q1, r1 := q / m, q % m;
    assert q == m * q1 + r1;
    assert v == 0x100 * q + r;
    assert v == (0x100 * m) * q1 + (0x100 * r1 + r) by {
      assert 0x100 * q == 0x100 * (m * q1) + 0x100 * r1;
      assert 0x100 * (m * q1) == (0x100 * m) * q1;
    }
    assert 0 <= 0x100 * r1 + r < 0x100 * m by {
      assert r1 <= m - 1;
      assert 0x100 * r1 <= 0x100 * (m - 1);
    }
    DivModUnique(v, 0x100 * m, q1, 0x100 * r1 + r);
  }

  /** Reading back a word `writeInt32` emitted gives the value modulo 2^32. */
  lemma WriteInt32LittleEndian(v: int)
    ensures LittleEndian4(WriteInt32(v)) == v % TwoTo32
  {
    var b := WriteInt32(v);
    var a1 := v / 0x100;
    var a2 := a1 / 0x100;
    var a3 := a2 / 0x100;
    PeelByte(v, 0x100);
    PeelByte(v, 0x1_0000);
    PeelByte(v, 0x100_0000);
    PeelByte(a1, 0x100);
    PeelByte(a1, 0x1_0000);
    PeelByte(a2, 0x100);
    assert v / 0x1_0000 == a2;
    assert v / 0x100_0000 == a3 by {
      assert a1 / 0x1_0000 == a3;
    }
    assert b == [v % 0x100, a1 % 0x100, a2 % 0x100, a3 % 0x100];
    assert a2 % 0x1_0000 == a2 % 0x100 + 0x100 * (a3 % 0x100);
    assert a1 % 0x100_0000 == a1 % 0x100 + 0x100 * (a2 % 0x1_0000);
    assert v % TwoTo32 == v % 0x100 + 0x100 * (a1 % 0x100_0000);
  }

  /** Reading back a word `writeInt16` emitted gives the value modulo 2^16. */
  lemma WriteInt16LittleEndian(v: int)
    ensures LittleEndian2(WriteInt16(v)) == v % 0x1_0000
  {
    PeelByte(v, 0x100);
  }

  /** `readString` over the bytes of `writeString(s)` is `MakeFourCc` of
      the same four characters. */
  lemma FourCcAgreement(s: string)
    requires |s| >= 4
    ensures BigEndian4(WriteString(s)) == MakeFourCc(s[0], s[1], s[2], s[3])
  {
  }

  // The header ---------------------------------------------------------------

  /** The writer's parameters, with the widths of its fields. */
  datatype WavParams = WavParams(sampleRate: Int32, channels: Int16, bitsPerSample: Int16, formatTag: Int16)

  /** `nBytesPerFrame = bits / 8 * channels`, in C's truncating division;
      the product always fits in a C `int`. */
  function BytesPerFrame(p: WavParams): (r: int)
    ensures 0 <= p.bitsPerSample ==> r == p.bitsPerSample / 8 * p.channels
    ensures -0x800_0000 <= r <= 0x800_0000
  {
    ProductBound(TruncDiv(p.bitsPerSample, 8), p.channels);
    TruncDiv(p.bitsPerSample, 8) * p.channels
  }

  /** A width in bytes of a 16-bit bit count times a 16-bit count stays
      within 2^27. */
  lemma ProductBound(x: int, c: int)
    requires -0x1000 <= x <= 0x1000 && -0x8000 <= c <= 0x8000
    ensures -0x800_0000 <= x * c <= 0x800_0000
  {
    var ax, ac := if x < 0 then -x else x, if c < 0 then -c else c;
    assert x * c == ax * ac || x * c == -(ax * ac);
    MulMonotone(ax, 0x1000, ac);
    MulMonotone(ac, 0x8000, 0x1000);
  }

  /** Multiplying by a natural number preserves order. */
  lemma {:induction false} MulMonotone(a: nat, b: nat, c: nat)
    requires a <= b
    ensures a * c <= b * c
    decreases c
  {
    if c > 0 {
      MulMonotone(a, b, c - 1);
      assert a * c == a * (c - 1) + a && b * c == b * (c - 1) + b;
    }
  }


  /** The RIFF chunk header: `RIFF`, the chunk size 4 + 8 + 16 + 8 + len
      and `WAVE`. */
  function RiffHeader(len: int): (r: seq<Byte>)
    ensures |r| == 12
  {
    WriteString("RIFF") + WriteInt32(4 + 8 + 16 + 8 + len) + WriteString("WAVE")
  }

  /** The six fields of the fmt chunk, in the order `writeHeader` writes
      them: format tag, channels, sample rate, bytes per second, bytes per
      frame, bits per sample. */
  function FmtFields(p: WavParams): (r: seq<Byte>)
    ensures |r| == 16
  {
    WriteInt16(p.formatTag) + WriteInt16(p.channels)
    + WriteInt32(p.sampleRate) + WriteInt32(BytesPerFrame(p) * p.sampleRate)
    + WriteInt16(BytesPerFrame(p)) + WriteInt16(p.bitsPerSample)
  }

  /** The fmt chunk: `fmt `, its length 16 and its fields. */
  function FmtChunk(p: WavParams): (r: seq<Byte>)
    ensures |r| == 24
  {
    WriteString("fmt ") + WriteInt32(16) + FmtFields(p)
  }

  /** The data chunk header: `data` and the data length. */
  function DataHeader(len: int): (r: seq<Byte>)
    ensures |r| == 8
  {
    WriteString("data") + WriteInt32(len)
  }

  /** `writeHeader(len)`. Sums and products that overflow an `int` in C
      reach the file only through their low 32 bits, which `WriteInt32`
      takes from the exact value. */
  function HeaderBytes(p: WavParams, len: int): (r: seq<Byte>)
    ensures |r| == HeaderSize
  {
    RiffHeader(len) + FmtChunk(p) + DataHeader(len)
  }

  /** d[a..b][i..j] is d[a + i..a + j]. */
  lemma SliceOfSlice(d: seq<Byte>, a: nat, b: nat, i: nat, j: nat)
    requires a <= b <= |d| && i <= j <= b - a
    ensures d[a..b][i..j] == d[a + i..a + j]
  {
    assert forall k | 0 <= k < j - i :: d[a..b][i..j][k] == d[a + i..a + j][k];
  }

  /** Where each field sits in a written header. */
  lemma HeaderLayout(p: WavParams, len: int)
    ensures var h := HeaderBytes(p, len);
      && h[0..4] == WriteString("RIFF") && h[4..8] == WriteInt32(36 + len) && h[8..12] == WriteString("WAVE")
      && h[12..16] == WriteString("fmt ") && h[16..20] == WriteInt32(16) && h[20..36] == FmtFields(p)
      && h[36..40] == WriteString("data") && h[40..44] == WriteInt32(len)
  {
    var h := HeaderBytes(p, len);
    assert h[0..12] == RiffHeader(len) && h[12..36] == FmtChunk(p) && h[36..44] == DataHeader(len);
    SliceOfSlice(h, 0, 12, 0, 4);
    SliceOfSlice(h, 0, 12, 4, 8);
    SliceOfSlice(h, 0, 12, 8, 12);
    SliceOfSlice(h, 12, 36, 0, 4);
    SliceOfSlice(h, 12, 36, 4, 8);
    SliceOfSlice(h, 12, 36, 8, 24);
    SliceOfSlice(h, 36, 44, 0, 4);
    SliceOfSlice(h, 36, 44, 4, 8);
  }

  /** Where each field sits in the fmt fields. */
  lemma FmtFieldsLayout(p: WavParams)
    ensures var f := FmtFields(p);
      && f[0..2] == WriteInt16(p.formatTag) && f[2..4] == WriteInt16(p.channels)
      && f[4..8] == WriteInt32(p.sampleRate) && f[8..12] == WriteInt32(BytesPerFrame(p) * p.sampleRate)
      && f[12..14] == WriteInt16(BytesPerFrame(p)) && f[14..16] == WriteInt16(p.bitsPerSample)
  {
  }

  // The parser ---------------------------------------------------------------

  /** A value read and the cursor after the read. */
  datatype Got<T> = Got(value: T, pos: nat)

  /** `fread` of n bytes at the cursor: what is left of them in the file. */
  function BytesAt(d: seq<Byte>, pos: nat, n: nat): (r: seq<Byte>)
    ensures |r| <= n
    ensures pos + n <= |d| ==> r == d[pos..pos + n]
    ensures n > 0 && pos + n > |d| ==> |r| < n
    ensures pos < |d| < pos + n ==> r == d[pos..]
    ensures |d| <= pos ==> r == []
  {
    if pos >= |d| then [] else if pos + n <= |d| then d[pos..pos + n] else d[pos..]
  }

  /** bs followed by zero bytes up to n bytes. */
  function ZeroPadded(bs: seq<Byte>, n: nat): (r: seq<Byte>)
    requires |bs| <= n
    ensures |r| == n && r[..|bs|] == bs
  {
    bs + seq(n - |bs|, _ => 0)
  }

  /** `readString`: four bytes packed big-endian; a short read yields no
      word, which matches no tag. */
  function ReadString(d: seq<Byte>, pos: nat): (g: Got<Option<UInt32>>)
    ensures g.value.Some? <==> pos + 4 <= |d|
    ensures pos + 4 <= |d| ==> g == Got(Some(BigEndian4(d[pos..pos + 4])), pos + 4)
    ensures |d| < pos + 4 ==> g.pos == if pos < |d| then |d| else pos
  {
    var bs := BytesAt(d, pos, 4);
    Got(if |bs| == 4 then Some(BigEndian4(bs)) else None, pos + |bs|)
  }

  /** `readInt32`: a little-endian word converted to `int`. */
  function ReadInt32(d: seq<Byte>, pos: nat): (g: Got<Int32>)
    ensures pos + 4 <= |d| ==> g == Got(AsInt32(LittleEndian4(d[pos..pos + 4])), pos + 4)
    ensures |d| < pos + 4 ==> g.pos == if pos < |d| then |d| else pos
    ensures |d| <= pos ==> g.value == 0
  {
    var bs := BytesAt(d, pos, 4);
    Got(AsInt32(LittleEndian4(ZeroPadded(bs, 4))), pos + |bs|)
  }

  /** `readInt16`: a little-endian half-word converted to `short`. */
  function ReadInt16(d: seq<Byte>, pos: nat): (g: Got<Int16>)
    ensures pos + 2 <= |d| ==> g == Got(AsInt16(LittleEndian2(d[pos..pos + 2])), pos + 2)
    ensures |d| < pos + 2 ==> g.pos == if pos < |d| then |d| else pos
    ensures |d| <= pos ==> g.value == 0
  {
    var bs := BytesAt(d, pos, 2);
    Got(AsInt16(LittleEndian2(ZeroPadded(bs, 2))), pos + |bs|)
  }

  /** The fmt fields as `WavReader` stores them. */
  datatype WavFormat = WavFormat(formatTag: UInt16, channels: UInt16, sampleRate: UInt32,
                                 avgBytesPerSec: UInt32, blockAlign: UInt16, bitsPerSample: UInt16)

  /** The fmt chunk read from the cursor (16 in `Open`): the chunk length,
      which is read and then ignored, then the six fields in order. */
  function ReadFormat(d: seq<Byte>, pos: nat): (g: Got<WavFormat>)
    ensures pos + 20 <= |d| ==> g.pos == pos + 20
  {
    var fmtLen := ReadInt32(d, pos);
    var tag := ReadInt16(d, fmtLen.pos);
    var channels := ReadInt16(d, tag.pos);
    var rate := ReadInt32(d, channels.pos);
    var avg := ReadInt32(d, rate.pos);
    var align := ReadInt16(d, avg.pos);
    var bits := ReadInt16(d, align.pos);
    Got(WavFormat(AsUInt16(tag.value), AsUInt16(channels.value), AsUInt32(rate.value),
                  AsUInt32(avg.value), AsUInt16(align.value), AsUInt16(bits.value)), bits.pos)
  }

  /** How the search for the data chunk ends: at the cursor after a `data`
      tag, at the cursor where the tries ran out, or on a seek before the
      start of the file. */
  datatype Search = DataFound(pos: nat) | DataNotFound(pos: nat) | SeekBackFailed

  /** The `while (nTotal > 0)` loop of `Open`: read four bytes; on `data`
      stop, otherwise step back three bytes and try again. */
  function SearchData(d: seq<Byte>, pos: nat, tries: int): Search
    decreases tries
  {
    if tries <= 0 then DataNotFound(pos)
    else
      var w := ReadString(d, pos);
      if w.value == Some(DataTag) then DataFound(w.pos)
      else if w.pos < 3 then SeekBackFailed
      else SearchData(d, w.pos - 3, tries - 1)
  }

  /** How `Open` of an existing file ends. */
  datatype OpenResult =
    | NotRiff(pos: nat)          // first word is not RIFF; returns false, the file stays open
    | NotWave(pos: nat)          // third word is not WAVE; returns false, the file stays open
    | SearchFailed(format: WavFormat)   // seek in the search failed; closed, returns false
    | NoSampleWidth(format: WavFormat)  // bits / 8 == 0; closed, returns false
    | Opened(format: WavFormat, length: UInt32, start: nat)

  /** `Open` up to the division that yields `Length`: either an early
      result, or the fmt fields, the data length word and the cursor after
      it. */
  datatype Stage = Early(result: OpenResult) | AtLength(format: WavFormat, dataLen: Int32, start: nat)

  /** `Open` of an existing file up to the length division. A parse that
      reaches the division has seen RIFF at offset 0 and WAVE at offset 8;
      an early end is a tag mismatch or a failed seek, never a success. */
  function ParseHeader(d: seq<Byte>): (r: Stage)
    ensures r.AtLength? ==> ReadString(d, 0).value == Some(RiffTag) && ReadString(d, 8).value == Some(WaveTag)
    ensures r.Early? ==> r.result.NotRiff? || r.result.NotWave? || r.result.SearchFailed?
  {
    var riff := ReadString(d, 0);
    if riff.value != Some(RiffTag) then Early(NotRiff(riff.pos))
    else
      var riffLen := ReadInt32(d, riff.pos);
      var wave := ReadString(d, riffLen.pos);
      if wave.value != Some(WaveTag) then Early(NotWave(wave.pos))
      else DataChunk(d, ReadFormat(d, 16))
  }

  /** After the fmt fields: the search for `data` from the cursor with
      `nTotal` = the file size tries, then the data length word. */
  function DataChunk(d: seq<Byte>, fmt: Got<WavFormat>): (r: Stage)
    ensures r.Early? <==> SearchData(d, fmt.pos, |d|).SeekBackFailed?
    ensures r.Early? ==> r.result == SearchFailed(fmt.value)
    ensures r.AtLength? ==> var len := ReadInt32(d, SearchData(d, fmt.pos, |d|).pos);
              r == AtLength(fmt.value, len.value, len.pos)
  {
    match SearchData(d, fmt.pos, |d|)
    case SeekBackFailed => Early(SearchFailed(fmt.value))
    case DataFound(p) =>
      var len := ReadInt32(d, p);
      AtLength(fmt.value, len.value, len.pos)
    case DataNotFound(p) =>
      var len := ReadInt32(d, p);
      AtLength(fmt.value, len.value, len.pos)
  }

  /** The divisor of `m_nLength = readInt32() / (m_nBitsPerSample / 8)`. */
  function SampleWidth(f: WavFormat): nat
  {
    f.bitsPerSample / 8
  }

  /** `Open` as written: the length is the data length word divided by the
      sample width, which must not be zero. */
  function OpenAsWritten(d: seq<Byte>): (r: OpenResult)
    requires ParseHeader(d).AtLength? ==> SampleWidth(ParseHeader(d).format) != 0
    ensures !r.NoSampleWidth?
  {
    match ParseHeader(d)
    case Early(r) => r
    case AtLength(f, len, start) => Opened(f, AsUInt32(TruncDiv(len, SampleWidth(f))), start)
  }

  /** `Open` with a zero sample width rejected instead of divided by. */
  function OpenSpec(d: seq<Byte>): (r: OpenResult)
    ensures r.Opened? ==> SampleWidth(r.format) != 0
  {
    Conclude(ParseHeader(d))
  }

  /** The end of the corrected `Open`, from the stage its reads reached. */
  function Conclude(s: Stage): (r: OpenResult)
    ensures s.Early? ==> r == s.result
    ensures s.AtLength? ==> (r.Opened? <==> SampleWidth(s.format) != 0)
    ensures s.AtLength? && SampleWidth(s.format) == 0 ==> r == NoSampleWidth(s.format)
    ensures s.AtLength? && SampleWidth(s.format) != 0 && 0 <= s.dataLen
            ==> r == Opened(s.format, s.dataLen / SampleWidth(s.format), s.start)
  {
    match s
    case Early(r) => r
    case AtLength(f, len, start) =>
      if SampleWidth(f) == 0 then NoSampleWidth(f)
      else Opened(f, AsUInt32(TruncDiv(len, SampleWidth(f))), start)
  }

  /** Wherever the source's division is defined, the corrected `Open`
      agrees with it. */
  lemma OpenSpecAgrees(d: seq<Byte>)
    requires ParseHeader(d).AtLength? ==> SampleWidth(ParseHeader(d).format) != 0
    ensures OpenSpec(d) == OpenAsWritten(d)
  {
  }

  // Round trip ---------------------------------------------------------------

  /** The fields `WavReader` stores after parsing what `WavWriter` wrote with
      parameters p: each written value taken to the width of its field. */
  function WrittenFormat(p: WavParams): WavFormat
  {
    WavFormat(AsUInt16(p.formatTag), AsUInt16(p.channels), AsUInt32(p.sampleRate),
              AsUInt32(BytesPerFrame(p) * p.sampleRate), AsUInt16(BytesPerFrame(p)), AsUInt16(p.bitsPerSample))
  }

  lemma ReadWrittenString(d: seq<Byte>, pos: nat, s: string)
    requires |s| >= 4 && pos + 4 <= |d| && d[pos..pos + 4] == WriteString(s)
    ensures ReadString(d, pos) == Got(Some(MakeFourCc(s[0], s[1], s[2], s[3])), pos + 4)
  {
    FourCcAgreement(s);
  }

  lemma ReadWrittenInt32(d: seq<Byte>, pos: nat, v: int)
    requires pos + 4 <= |d| && d[pos..pos + 4] == WriteInt32(v)
    ensures ReadInt32(d, pos) == Got(AsInt32(AsUInt32(v)), pos + 4)
  {
    WriteInt32LittleEndian(v);
  }

  lemma ReadWrittenInt16(d: seq<Byte>, pos: nat, v: int)
    requires pos + 2 <= |d| && d[pos..pos + 2] == WriteInt16(v)
    ensures ReadInt16(d, pos) == Got(AsInt16(AsUInt16(v)), pos + 2)
  {
    WriteInt16LittleEndian(v);
  }

  /** Fmt fields written with parameters p read back as `WrittenFormat`,
      whatever the fmt length word before them holds. */
  lemma ReadWrittenFormat(p: WavParams, d: seq<Byte>)
    requires |d| >= 36 && d[20..36] == FmtFields(p)
    ensures ReadFormat(d, 16) == Got(WrittenFormat(p), 36)
  {
    FmtFieldsLayout(p);
    SliceOfSlice(d, 20, 36, 0, 2);
    SliceOfSlice(d, 20, 36, 2, 4);
    SliceOfSlice(d, 20, 36, 4, 8);
    SliceOfSlice(d, 20, 36, 8, 12);
    SliceOfSlice(d, 20, 36, 12, 14);
    SliceOfSlice(d, 20, 36, 14, 16);
    ReadWrittenInt16(d, 20, p.formatTag);
    ReadWrittenInt16(d, 22, p.channels);
    ReadWrittenInt32(d, 24, p.sampleRate);
    ReadWrittenInt32(d, 28, BytesPerFrame(p) * p.sampleRate);
    ReadWrittenInt16(d, 32, BytesPerFrame(p));
    ReadWrittenInt16(d, 34, p.bitsPerSample);
  }

  /** Everything `Open` does before the division, on a file that starts
      with a written header: the tags match, the fmt fields are the written
      ones, the data tag is found at once and the data length is the
      written one. */
  lemma ParseWrittenHeader(p: WavParams, len: int, d: seq<Byte>)
    requires |d| >= HeaderSize && d[..HeaderSize] == HeaderBytes(p, len) && 0 <= len <= Int32Max
    ensures ParseHeader(d) == AtLength(WrittenFormat(p), len, HeaderSize)
  {
    HeaderLayout(p, len);
    var h := HeaderBytes(p, len);
    forall i: nat, j: nat | i <= j <= HeaderSize
      ensures d[i..j] == h[i..j]
    {
      SliceOfSlice(d, 0, HeaderSize, i, j);
    }
    ReadWrittenString(d, 0, "RIFF");
    ReadWrittenString(d, 8, "WAVE");
    ReadWrittenFormat(p, d);
    ReadWrittenString(d, 36, "data");
    assert SearchData(d, 36, |d|) == DataFound(40);
    ReadWrittenInt32(d, 40, len);
  }

  /** Round trip: parsing a file that starts with a written header yields
      the written fields, `Length` = len / (bits / 8) and `Start` = 44,
      unless bits / 8 is zero; the sample bytes after the header do not
      matter. */
  lemma HeaderRoundTrip(p: WavParams, len: int, d: seq<Byte>)
    requires |d| >= HeaderSize && d[..HeaderSize] == HeaderBytes(p, len) && 0 <= len <= Int32Max
    ensures var r, f := OpenSpec(d), WrittenFormat(p);
            && (r.Opened? <==> SampleWidth(f) != 0)
            && (r.Opened? ==> r.format == f && r.length == len / SampleWidth(f) && r.start == HeaderSize)
            && (!r.Opened? ==> r == NoSampleWidth(f))
  {
    ParseWrittenHeader(p, len, d);
    OpenAtLength(d, WrittenFormat(p), len, HeaderSize);
  }

  /** `Open` after a non-negative data length word. */
  lemma OpenAtLength(d: seq<Byte>, f: WavFormat, len: Int32, start: nat)
    requires ParseHeader(d) == AtLength(f, len, start) && 0 <= len
    ensures var r := OpenSpec(d);
            && (r.Opened? <==> SampleWidth(f) != 0)
            && (r.Opened? ==> r.format == f && r.length == len / SampleWidth(f) && r.start == start)
            && (!r.Opened? ==> r == NoSampleWidth(f))
  {
    if SampleWidth(f) != 0 {
      QuotientBounds(len as int, SampleWidth(f));
    }
  }

  /** With non-negative parameters and at least 8 bits per sample, the
      round trip recovers the format tag, channels, sample rate and bits
      per sample exactly. */
  lemma HeaderRoundTripExact(p: WavParams, len: int, d: seq<Byte>)
    requires |d| >= HeaderSize && d[..HeaderSize] == HeaderBytes(p, len) && 0 <= len <= Int32Max
    requires p.bitsPerSample >= 8 && p.formatTag >= 0 && p.channels >= 0 && p.sampleRate >= 0
    ensures var r := OpenSpec(d);
            && r.Opened? && r.start == HeaderSize && r.length == len / (p.bitsPerSample / 8)
            && r.format.formatTag == p.formatTag && r.format.channels == p.channels
            && r.format.sampleRate == p.sampleRate && r.format.bitsPerSample == p.bitsPerSample
  {
    HeaderRoundTrip(p, len, d);
  }

  /** A 4-bit IMA ADPCM header, as `WavWriter` writes it, reaches the length
      division of `Open` with a sample width of zero. */
  lemma ImaAdpcmHeaderHasNoSampleWidth()
    ensures var d := HeaderBytes(WavParams(8000, 1, 4, 0x11), 0);
            ParseHeader(d).AtLength? && SampleWidth(ParseHeader(d).format) == 0
  {
    var d := HeaderBytes(WavParams(8000, 1, 4, 0x11), 0);
    assert d[..HeaderSize] == d;
    ParseWrittenHeader(WavParams(8000, 1, 4, 0x11), 0, d);
  }

  // The data-chunk search ----------------------------------------------------

  /** A full `data` window starts at offset i. */
  predicate IsDataAt(d: seq<Byte>, i: nat)
  {
    i + 4 <= |d| && BigEndian4(d[i..i + 4]) == DataTag
  }

  /** A search that reports `data` leaves the cursor just past four bytes
      that spell `data`. */
  lemma {:induction false} SearchFoundIsData(d: seq<Byte>, pos: nat, tries: int)
    ensures var r := SearchData(d, pos, tries);
            r.DataFound? ==> 4 <= r.pos <= |d| && BigEndian4(d[r.pos - 4..r.pos]) == DataTag
    decreases tries
  {
    if tries > 0 {
      var w := ReadString(d, pos);
      if w.value != Some(DataTag) && w.pos >= 3 {
        SearchFoundIsData(d, w.pos - 3, tries - 1);
      }
    }
  }

  /** Each try that does not see `data` in a full window moves the cursor
      one byte on and uses up one try. */
  lemma {:induction false} SearchSkips(d: seq<Byte>, pos: nat, tries: int, k: nat)
    requires k <= tries && pos + k + 3 <= |d|
    requires forall i | pos <= i < pos + k :: !IsDataAt(d, i)
    ensures SearchData(d, pos, tries) == SearchData(d, pos + k, tries - k)
    decreases k
  {
    if k > 0 {
      assert !IsDataAt(d, pos);
      SearchSkips(d, pos + 1, tries - 1, k - 1);
    }
  }

  /** The search stops just after the first `data` window at or after the
      cursor, if it lies within the tries. */
  lemma SearchFindsFirst(d: seq<Byte>, pos: nat, tries: int, k: nat)
    requires k < tries
    requires forall i | pos <= i < pos + k :: !IsDataAt(d, i)
    requires IsDataAt(d, pos + k)
    ensures SearchData(d, pos, tries) == DataFound(pos + k + 4)
  {
    SearchSkips(d, pos, tries, k);
  }

  /** Without a full `data` window among the first `tries` offsets, the
      search gives up after `tries` tries, with the cursor `tries` bytes
      on. */
  lemma SearchGivesUp(d: seq<Byte>, pos: nat, tries: nat)
    requires pos + tries + 3 <= |d|
    requires forall i | pos <= i < pos + tries :: !IsDataAt(d, i)
    ensures SearchData(d, pos, tries) == DataNotFound(pos + tries)
  {
    SearchSkips(d, pos, tries, tries);
  }

  // Which bytes `Open` looks at -----------------------------------------------

  lemma BytesAtLocal(d1: seq<Byte>, d2: seq<Byte>, pos: nat, n: nat, lo: nat)
    requires |d1| == |d2| && lo <= pos && lo <= |d1| && d1[lo..] == d2[lo..]
    ensures BytesAt(d1, pos, n) == BytesAt(d2, pos, n)
  {
    if pos < |d1| {
      var e := if pos + n <= |d1| then pos + n else |d1|;
      forall k | pos <= k < e
        ensures d1[k] == d2[k]
      {
        assert d1[k] == d1[lo..][k - lo];
        assert d2[k] == d2[lo..][k - lo];
      }
      assert d1[pos..e] == d2[pos..e];
    }
  }

  lemma ReadInt16Local(d1: seq<Byte>, d2: seq<Byte>, pos: nat, lo: nat)
    requires |d1| == |d2| && lo <= pos && lo <= |d1| && d1[lo..] == d2[lo..]
    ensures ReadInt16(d1, pos) == ReadInt16(d2, pos) && ReadInt16(d1, pos).pos >= pos
  {
    BytesAtLocal(d1, d2, pos, 2, lo);
  }

  lemma ReadInt32Local(d1: seq<Byte>, d2: seq<Byte>, pos: nat, lo: nat)
    requires |d1| == |d2| && lo <= pos && lo <= |d1| && d1[lo..] == d2[lo..]
    ensures ReadInt32(d1, pos) == ReadInt32(d2, pos) && ReadInt32(d1, pos).pos >= pos
  {
    BytesAtLocal(d1, d2, pos, 4, lo);
  }

  function SearchPos(r: Search): int
  {
    match r
    case DataFound(p) => p
    case DataNotFound(p) => p
    case SeekBackFailed => -1
  }

  /** The search only reads at or after its starting cursor, whenever the
      file has at least three bytes from lo on. */
  lemma {:induction false} SearchLocal(d1: seq<Byte>, d2: seq<Byte>, pos: nat, tries: int, lo: nat)
    requires |d1| == |d2| && lo <= pos && lo + 3 <= |d1| && d1[lo..] == d2[lo..]
    ensures SearchData(d1, pos, tries) == SearchData(d2, pos, tries)
    ensures !SearchData(d1, pos, tries).SeekBackFailed? ==> SearchPos(SearchData(d1, pos, tries)) >= lo
    decreases tries
  {
    if tries > 0 {
      BytesAtLocal(d1, d2, pos, 4, lo);
      var w := ReadString(d1, pos);
      if w.value != Some(DataTag) && w.pos >= 3 {
        SearchLocal(d1, d2, w.pos - 3, tries - 1, lo);
      }
    }
  }

  /** The fmt fields are read from offset 20 on. */
  lemma ReadFormatLocal(d1: seq<Byte>, d2: seq<Byte>)
    requires |d1| == |d2| >= 20 && d1[20..] == d2[20..]
    ensures ReadFormat(d1, 16) == ReadFormat(d2, 16)
  {
    var p0 := ReadInt32(d1, 16).pos;
    assert p0 == ReadInt32(d2, 16).pos == 20;
    ReadInt16Local(d1, d2, p0, 20);
    var p1 := ReadInt16(d1, p0).pos;
    ReadInt16Local(d1, d2, p1, 20);
    var p2 := ReadInt16(d1, p1).pos;
    ReadInt32Local(d1, d2, p2, 20);
    var p3 := ReadInt32(d1, p2).pos;
    ReadInt32Local(d1, d2, p3, 20);
    var p4 := ReadInt32(d1, p3).pos;
    ReadInt16Local(d1, d2, p4, 20);
    var p5 := ReadInt16(d1, p4).pos;
    ReadInt16Local(d1, d2, p5, 20);
  }

  /** `Open` ignores the RIFF chunk size (bytes 4..8) and the fmt chunk
      length (bytes 16..20): files that differ only there open alike. */
  lemma ChunkSizesIgnored(d1: seq<Byte>, d2: seq<Byte>)
    requires |d1| == |d2| >= 23
    requires d1[..4] == d2[..4] && d1[8..16] == d2[8..16] && d1[20..] == d2[20..]
    ensures OpenSpec(d1) == OpenSpec(d2)
  {
    TagsLocal(d1, d2);
    ReadFormatLocal(d1, d2);
    DataChunkLocal(d1, d2, ReadFormat(d1, 16));
    ParseHeaderOfParts(d1, d2);
    OpenOfParse(d1, d2);
  }

  /** The RIFF and WAVE words sit in bytes 0..4 and 8..12. */
  lemma TagsLocal(d1: seq<Byte>, d2: seq<Byte>)
    requires |d1| == |d2| >= 16 && d1[..4] == d2[..4] && d1[8..16] == d2[8..16]
    ensures ReadString(d1, 0) == ReadString(d2, 0)
    ensures ReadInt32(d1, 4).pos == ReadInt32(d2, 4).pos == 8
    ensures ReadString(d1, 8) == ReadString(d2, 8)
  {
    assert d1[0..4] == d2[0..4];
    SliceOfSlice(d1, 8, 16, 0, 4);
    SliceOfSlice(d2, 8, 16, 0, 4);
  }

  /** `ParseHeader` is determined by its three reads before the fmt fields,
      the fmt fields and the data chunk part. */
  lemma ParseHeaderOfParts(d1: seq<Byte>, d2: seq<Byte>)
    requires ReadString(d1, 0) == ReadString(d2, 0)
    requires ReadInt32(d1, 4).pos == ReadInt32(d2, 4).pos == 8
    requires ReadString(d1, 8) == ReadString(d2, 8)
    requires ReadFormat(d1, 16) == ReadFormat(d2, 16)
    requires DataChunk(d1, ReadFormat(d1, 16)) == DataChunk(d2, ReadFormat(d1, 16))
    ensures ParseHeader(d1) == ParseHeader(d2)
  {
    var riff := ReadString(d1, 0);
    if riff.value == Some(RiffTag) {
      assert riff.pos == 4;
      var wave := ReadString(d1, 8);
      if wave.value == Some(WaveTag) {
        assert ParseHeader(d1) == DataChunk(d1, ReadFormat(d1, 16));
        assert ParseHeader(d2) == DataChunk(d2, ReadFormat(d2, 16));
      }
    }
  }

  lemma OpenOfParse(d1: seq<Byte>, d2: seq<Byte>)
    requires ParseHeader(d1) == ParseHeader(d2)
    ensures OpenSpec(d1) == OpenSpec(d2)
  {
  }

  /** The data chunk part reads only at or after offset 20. */
  lemma DataChunkLocal(d1: seq<Byte>, d2: seq<Byte>, fmt: Got<WavFormat>)
    requires |d1| == |d2| >= 23 && d1[20..] == d2[20..] && fmt.pos >= 20
    ensures DataChunk(d1, fmt) == DataChunk(d2, fmt)
  {
    SearchLocal(d1, d2, fmt.pos, |d1|, 20);
    match SearchData(d1, fmt.pos, |d1|)
    case SeekBackFailed =>
    case DataFound(q) =>
      ReadInt32Local(d1, d2, q, 20);
    case DataNotFound(q) =>
      ReadInt32Local(d1, d2, q, 20);
  }
}
