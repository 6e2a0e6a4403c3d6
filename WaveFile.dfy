/** `WavWriter` and `WavReader`: the objects that own a WAV file.

    The file is the sequence of its bytes. For the writer, `file` holds the
    bytes of the most recently created file, which stay in place once it is
    closed; for the reader, `file` is the file it opened and `pos` the
    stream cursor. Whether `fopen` succeeds is a parameter of `Open`. The
    host is little-endian, so a `short` or a `float` reaches the file as its
    bit pattern in little-endian byte order. */
module WaveFile {
  import opened FixedPoint
  import opened WaveFormat

  // Sample data --------------------------------------------------------------

  /** The bytes `fwrite` emits for an array of shorts. */
  function Int16Bytes(s: seq<Int16>): (r: seq<Byte>)
    ensures |r| == 2 * |s|
  {
    if s == [] then [] else WriteInt16(s[0]) + Int16Bytes(s[1..])
  }

  /** The bytes `fwrite` emits for an array of floats, given as their IEEE
      754 bit patterns. */
  function WordBytes(w: seq<UInt32>): (r: seq<Byte>)
    ensures |r| == 4 * |w|
  {
    if w == [] then [] else WriteInt32(w[0]) + WordBytes(w[1..])
  }

  /** Behind a prefix h, sample i occupies bytes [|h| + 2i, |h| + 2i + 2). */
  lemma {:induction false} Int16BytesAfter(h: seq<Byte>, s: seq<Int16>, i: nat)
    requires i < |s|
    ensures (h + Int16Bytes(s))[|h| + 2 * i..|h| + 2 * i + 2] == WriteInt16(s[i])
    decreases i
  {
    var h' := h + WriteInt16(s[0]);
    assert h + Int16Bytes(s) == h' + Int16Bytes(s[1..]);
    if i > 0 {
      Int16BytesAfter(h', s[1..], i - 1);
    }
  }

  /** Behind a prefix h, word i occupies bytes [|h| + 4i, |h| + 4i + 4). */
  lemma {:induction false} WordBytesAfter(h: seq<Byte>, w: seq<UInt32>, i: nat)
    requires i < |w|
    ensures (h + WordBytes(w))[|h| + 4 * i..|h| + 4 * i + 4] == WriteInt32(w[i])
    decreases i
  {
    var h' := h + WriteInt32(w[0]);
    assert h + WordBytes(w) == h' + WordBytes(w[1..]);
    if i > 0 {
      WordBytesAfter(h', w[1..], i - 1);
    }
  }

  /** A short survives the trip through `uint16_t` back to `short`. */
  lemma Int16RoundTrip(v: Int16)
    ensures AsInt16(AsUInt16(v)) == v
  {
    if v < 0 {
      assert AsUInt16(v) == v + 0x1_0000;
    }
  }

  /** Reading a short at byte |h| + 2i of h followed by the written
      samples gives sample i. */
  lemma ReadSample(h: seq<Byte>, s: seq<Int16>, i: nat)
    requires i < |s|
    ensures ReadInt16(h + Int16Bytes(s), |h| + 2 * i) == Got(s[i], |h| + 2 * i + 2)
  {
    Int16BytesAfter(h, s, i);
    ReadWrittenInt16(h + Int16Bytes(s), |h| + 2 * i, s[i]);
    Int16RoundTrip(s[i]);
  }

  /** The four bytes at |h| + 4i of h followed by the written words are
      word i, little-endian. */
  lemma ReadWord(h: seq<Byte>, w: seq<UInt32>, i: nat)
    requires i < |w|
    ensures LittleEndian4((h + WordBytes(w))[|h| + 4 * i..|h| + 4 * i + 4]) == w[i]
  {
    WordBytesAfter(h, w, i);
    WordRoundTrip(w[i]);
  }

  /** A 32-bit pattern survives the trip through the four written bytes. */
  lemma WordRoundTrip(v: UInt32)
    ensures LittleEndian4(WriteInt32(v)) == v
  {
    WriteInt32LittleEndian(v);
  }

  // The writer ---------------------------------------------------------------

  /** `WavWriter`. */
  class WavWriter {
    var isOpen: bool          // m_pFile != 0
    var file: seq<Byte>
    var dataLen: int          // m_nDataLen
    var sampleRate: Int32     // m_nSampleRate
    var bitsPerSamples: Int16 // m_nBitsPerSamples
    var channels: Int16       // m_nChannels, only ever set from a short
    var formatTag: Int16      // m_nFormatTag

    function Params(): WavParams
      reads this
    {
      WavParams(sampleRate, channels, bitsPerSamples, formatTag)
    }

    /** While open, the file is the header `Open` wrote (data length 0)
        followed by the dataLen bytes written since. */
    ghost predicate Valid()
      reads this
    {
      dataLen >= 0
      && (isOpen ==> |file| == HeaderSize + dataLen && file[..HeaderSize] == HeaderBytes(Params(), 0))
    }

    constructor ()
      ensures Valid() && !isOpen && file == []
      ensures dataLen == 0 && sampleRate == 0 && bitsPerSamples == 16 && channels == 0
      ensures formatTag == FormatTagPcm
    {
      isOpen := false;
      file := [];
      dataLen := 0;
      sampleRate := 0;
      bitsPerSamples := 16;
      channels := 0;
      formatTag := FormatTagPcm;
    }

    /** `Open`: on success the new file holds a header with data length 0;
        if the file cannot be created, the writer is closed and keeps its
        parameters. */
    method Open(created: bool, inSampleRate: Int32, inChannels: Int16, inBitsPerSamples: Int16,
                inFormatTag: Int16) returns (ok: bool)
      requires Valid()
      modifies this
      ensures Valid() && ok == created && isOpen == created
      ensures !created ==> file == old(file) && dataLen == old(dataLen) && Params() == old(Params())
      ensures created ==> Params() == WavParams(inSampleRate, inChannels, inBitsPerSamples, inFormatTag)
      ensures created ==> dataLen == 0 && file == HeaderBytes(Params(), 0)
    {
      if !created {
        isOpen := false;
        return false;
      }
      isOpen := true;
      dataLen := 0;
      sampleRate := inSampleRate;
      bitsPerSamples := inBitsPerSamples;
      channels := inChannels;
      formatTag := inFormatTag;
      file := HeaderBytes(Params(), dataLen);
      ok := true;
    }

    /** `Close`: rewrites the header at the start of the file with the data
        length reached, then closes; a closed writer is left as it is. */
    method Close()
      requires Valid()
      modifies this
      ensures Valid() && !isOpen
      ensures dataLen == old(dataLen) && Params() == old(Params())
      ensures old(isOpen) ==> file == HeaderBytes(Params(), dataLen) + old(file)[HeaderSize..]
      ensures !old(isOpen) ==> file == old(file)
    {
      if !isOpen {
        return;
      }
      file := HeaderBytes(Params(), dataLen) + file[HeaderSize..];
      isOpen := false;
    }

    /** `Write(short*, int)`: appends the samples and counts two bytes each;
        a closed writer ignores the call. */
    method WriteInt16Samples(samples: seq<Int16>)
      requires Valid() && bitsPerSamples == 16 && formatTag == FormatTagPcm
      modifies this`file, this`dataLen
      ensures Valid()
      ensures old(isOpen) ==> file == old(file) + Int16Bytes(samples) && dataLen == old(dataLen) + 2 * |samples|
      ensures !old(isOpen) ==> file == old(file) && dataLen == old(dataLen)
    {
      if !isOpen {
        return;
      }
      AppendKeepsHeader(file, Int16Bytes(samples));
      file := file + Int16Bytes(samples);
      dataLen := dataLen + |samples| * 2;
    }

    /** `Write(float*, int)`: appends the floats and counts four bytes each;
        a closed writer ignores the call. */
    method WriteFloatSamples(samples: seq<UInt32>)
      requires Valid() && bitsPerSamples == 32 && formatTag == FormatTagIeeeFloat
      modifies this`file, this`dataLen
      ensures Valid()
      ensures old(isOpen) ==> file == old(file) + WordBytes(samples) && dataLen == old(dataLen) + 4 * |samples|
      ensures !old(isOpen) ==> file == old(file) && dataLen == old(dataLen)
    {
      if !isOpen {
        return;
      }
      AppendKeepsHeader(file, WordBytes(samples));
      file := file + WordBytes(samples);
      dataLen := dataLen + |samples| * 4;
    }
  }

  lemma AppendKeepsHeader(f: seq<Byte>, b: seq<Byte>)
    requires |f| >= HeaderSize
    ensures (f + b)[..HeaderSize] == f[..HeaderSize]
  {
  }

  /** A header followed by anything opens as the header says. */
  lemma OpenWrittenHeader(p: WavParams, len: int, e: seq<Byte>)
    requires 0 <= len <= Int32Max
    ensures var r := OpenSpec(HeaderBytes(p, len) + e);
            && (r.Opened? <==> SampleWidth(WrittenFormat(p)) != 0)
            && (r.Opened? ==> r.format == WrittenFormat(p) && r.length == len / SampleWidth(WrittenFormat(p))
                              && r.start == HeaderSize)
  {
    var d := HeaderBytes(p, len) + e;
    assert d[..HeaderSize] == HeaderBytes(p, len);
    HeaderRoundTrip(p, len, d);
  }

  /** A 16-bit PCM file as the writer leaves it after `Open`, one `Write`
      and `Close` opens with the written format, one frame per sample,
      data at byte 44, and every sample reads back. */
  lemma PcmFileRoundTrip(p: WavParams, s: seq<Int16>)
    requires p.bitsPerSample == 16 && 2 * |s| <= Int32Max
    ensures var d := HeaderBytes(p, 2 * |s|) + Int16Bytes(s);
            var r := OpenSpec(d);
            && r.Opened? && r.format == WrittenFormat(p) && r.length == |s| && r.start == HeaderSize
            && forall i | 0 <= i < |s| :: ReadInt16(d, HeaderSize + 2 * i).value == s[i]
  {
    OpenWrittenHeader(p, 2 * |s|, Int16Bytes(s));
    forall i | 0 <= i < |s|
      ensures ReadInt16(HeaderBytes(p, 2 * |s|) + Int16Bytes(s), HeaderSize + 2 * i).value == s[i]
    {
      ReadSample(HeaderBytes(p, 2 * |s|), s, i);
    }
  }

  /** A 32-bit float file as the writer leaves it after `Open`, one `Write`
      and `Close` opens with the written format, one frame per float, data
      at byte 44, and every float's bit pattern reads back. */
  lemma FloatFileRoundTrip(p: WavParams, w: seq<UInt32>)
    requires p.bitsPerSample == 32 && 4 * |w| <= Int32Max
    ensures var d := HeaderBytes(p, 4 * |w|) + WordBytes(w);
            var r := OpenSpec(d);
            && r.Opened? && r.format == WrittenFormat(p) && r.length == |w| && r.start == HeaderSize
            && forall i | 0 <= i < |w| :: LittleEndian4(d[HeaderSize + 4 * i..HeaderSize + 4 * i + 4]) == w[i]
  {
    OpenWrittenHeader(p, 4 * |w|, WordBytes(w));
    DivModUnique(4 * |w|, 4, |w|, 0);
    WordsReadBack(HeaderBytes(p, 4 * |w|), w);
  }

  /** Every word written behind a prefix h reads back. */
  lemma WordsReadBack(h: seq<Byte>, w: seq<UInt32>)
    ensures var d := h + WordBytes(w);
            forall i | 0 <= i < |w| :: LittleEndian4(d[|h| + 4 * i..|h| + 4 * i + 4]) == w[i]
  {
    forall i | 0 <= i < |w|
      ensures LittleEndian4((h + WordBytes(w))[|h| + 4 * i..|h| + 4 * i + 4]) == w[i]
    {
      ReadWord(h, w, i);
    }
  }

  // The reader ---------------------------------------------------------------

  /** `ReadFormat` as the seven reads it makes, one after the other. */
  lemma ReadFormatSteps(d: seq<Byte>, p0: nat, g1: Got<Int32>, g2: Got<Int16>, g3: Got<Int16>, g4: Got<Int32>,
                        g5: Got<Int32>, g6: Got<Int16>, g7: Got<Int16>)
    requires g1 == ReadInt32(d, p0) && g2 == ReadInt16(d, g1.pos) && g3 == ReadInt16(d, g2.pos)
    requires g4 == ReadInt32(d, g3.pos) && g5 == ReadInt32(d, g4.pos) && g6 == ReadInt16(d, g5.pos)
    requires g7 == ReadInt16(d, g6.pos)
    ensures ReadFormat(d, p0) == Got(WavFormat(AsUInt16(g2.value), AsUInt16(g3.value), AsUInt32(g4.value),
                                                AsUInt32(g5.value), AsUInt16(g6.value), AsUInt16(g7.value)), g7.pos)
  {
  }

  /** `WavReader`. */
  class WavReader {
    var isOpen: bool              // m_pFile != 0
    var file: seq<Byte>
    var pos: nat                  // the stream position
    var length: UInt32            // m_nLength
    var start: UInt32             // m_nStart
    var formatTag: UInt16         // m_nFormatTag
    var channels: UInt16          // m_nChannels
    var sampleRate: UInt32        // m_nSampleRate
    var avgBytesPerSec: UInt32    // m_nAvgBytesPerSec
    var blockAlign: UInt16        // m_nBlockAlign
    var bitsPerSample: UInt16     // m_nBitsPerSample

    function Format(): WavFormat
      reads this
    {
      WavFormat(formatTag, channels, sampleRate, avgBytesPerSec, blockAlign, bitsPerSample)
    }

    constructor ()
      ensures !isOpen && file == [] && pos == 0 && length == 0 && start == 0
      ensures Format() == WavFormat(0, 0, 0, 0, 0, 0)
    {
      isOpen := false;
      file := [];
      pos := 0;
      length := 0;
      start := 0;
      formatTag := 0;
      channels := 0;
      sampleRate := 0;
      avgBytesPerSec := 0;
      blockAlign := 0;
      bitsPerSample := 0;
    }

    /** `Close`: releases the file if one is open. */
    method Close()
      modifies this
      ensures !isOpen
      ensures unchanged(this`file, this`pos, this`length, this`start)
      ensures unchanged(this`formatTag, this`channels, this`sampleRate, this`avgBytesPerSec, this`blockAlign, this`bitsPerSample)
    {
      if isOpen {
        isOpen := false;
      }
    }

    /** `readString`. */
    method ReadString(ghost d: seq<Byte>) returns (w: Option<UInt32>)
      requires file == d
      modifies this
      ensures unchanged(this`isOpen, this`file, this`length, this`start)
      ensures unchanged(this`formatTag, this`channels, this`sampleRate, this`avgBytesPerSec, this`blockAlign, this`bitsPerSample)
      ensures Got(w, pos) == WaveFormat.ReadString(d, old(pos))
    {
      var g := WaveFormat.ReadString(file, pos);
      w, pos := g.value, g.pos;
    }

    /** `readInt32`. */
    method ReadInt32(ghost d: seq<Byte>) returns (v: Int32)
      requires file == d
      modifies this
      ensures unchanged(this`isOpen, this`file, this`length, this`start)
      ensures unchanged(this`formatTag, this`channels, this`sampleRate, this`avgBytesPerSec, this`blockAlign, this`bitsPerSample)
      ensures Got(v, pos) == WaveFormat.ReadInt32(d, old(pos))
    {
      var g := WaveFormat.ReadInt32(file, pos);
      v, pos := g.value, g.pos;
    }

    /** `readInt16`. */
    method ReadInt16(ghost d: seq<Byte>) returns (v: Int16)
      requires file == d
      modifies this
      ensures unchanged(this`isOpen, this`file, this`length, this`start)
      ensures unchanged(this`formatTag, this`channels, this`sampleRate, this`avgBytesPerSec, this`blockAlign, this`bitsPerSample)
      ensures Got(v, pos) == WaveFormat.ReadInt16(d, old(pos))
    {
      var g := WaveFormat.ReadInt16(file, pos);
      v, pos := g.value, g.pos;
    }

    /** The fmt chunk reads of `Open`, each field converted to the width of
        the member that stores it. */
    method ReadFormatFields(ghost d: seq<Byte>)
      requires file == d
      modifies this
      ensures unchanged(this`isOpen, this`file, this`length, this`start)
      ensures Got(Format(), pos) == WaveFormat.ReadFormat(d, old(pos))
    {
      var tag, ch, rate, avg, align, bits := ReadFormatWords(d);
      StoreFormat(tag, ch, rate, avg, align, bits);
    }

    /** The seven reads of the fmt chunk, the length word first. */
    method ReadFormatWords(ghost d: seq<Byte>) returns (tag: Int16, ch: Int16, rate: Int32, avg: Int32, align: Int16, bits: Int16)
      requires file == d
      modifies this
      ensures unchanged(this`isOpen, this`file, this`length, this`start)
      ensures unchanged(this`formatTag, this`channels, this`sampleRate, this`avgBytesPerSec, this`blockAlign, this`bitsPerSample)
      ensures WaveFormat.ReadFormat(d, old(pos))
              == Got(WavFormat(AsUInt16(tag), AsUInt16(ch), AsUInt32(rate), AsUInt32(avg), AsUInt16(align), AsUInt16(bits)), pos)
    {
      ghost var p0 := pos;
      var fmtLen := ReadInt32(d);
      ghost var g1 := Got(fmtLen, pos);
      tag := ReadInt16(d);
      ghost var g2 := Got(tag, pos);
      ch := ReadInt16(d);
      ghost var g3 := Got(ch, pos);
      rate := ReadInt32(d);
      ghost var g4 := Got(rate, pos);
      avg := ReadInt32(d);
      ghost var g5 := Got(avg, pos);
      align := ReadInt16(d);
      ghost var g6 := Got(align, pos);
      bits := ReadInt16(d);
      ReadFormatSteps(d, p0, g1, g2, g3, g4, g5, g6, Got(bits, pos));
    }

    /** The assignments `m_nFormatTag = readInt16()` and so on. */
    method StoreFormat(tag: Int16, ch: Int16, rate: Int32, avg: Int32, align: Int16, bits: Int16)
      modifies this
      ensures unchanged(this`isOpen, this`file, this`pos, this`length, this`start)
      ensures Format() == WavFormat(AsUInt16(tag), AsUInt16(ch), AsUInt32(rate), AsUInt32(avg), AsUInt16(align), AsUInt16(bits))
    {
      formatTag := AsUInt16(tag);
      channels := AsUInt16(ch);
      sampleRate := AsUInt32(rate);
      avgBytesPerSec := AsUInt32(avg);
      blockAlign := AsUInt16(align);
      bitsPerSample := AsUInt16(bits);
    }

    /** The search loop of `Open`: up to nTotal tries, each reading four
        bytes and, short of `data`, seeking three bytes back. */
    method FindData(ghost d: seq<Byte>, nTotal: int) returns (r: Search)
      requires file == d
      modifies this
      ensures unchanged(this`isOpen, this`file, this`length, this`start)
      ensures unchanged(this`formatTag, this`channels, this`sampleRate, this`avgBytesPerSec, this`blockAlign, this`bitsPerSample)
      ensures r == SearchData(d, old(pos), nTotal)
      ensures !r.SeekBackFailed? ==> pos == r.pos
    {
      var n := nTotal;
      while n > 0
        invariant file == d
        invariant unchanged(this`isOpen, this`file, this`length, this`start)
        invariant unchanged(this`formatTag, this`channels, this`sampleRate, this`avgBytesPerSec, this`blockAlign, this`bitsPerSample)
        invariant SearchData(d, pos, n) == SearchData(d, old(pos), nTotal)
        decreases n
      {
        var w := ReadString(d);
        if w == Some(DataTag) {
          return DataFound(pos);
        }
        if pos < 3 {
          return SeekBackFailed;
        }
        pos := pos - 3;
        n := n - 1;
      }
      r := DataNotFound(pos);
    }

    /** What `Open` leaves behind for each way it can end, given the format
        fields, length and start it found. */
    ghost predicate OpenedAs(r: OpenResult, f0: WavFormat, length0: UInt32, start0: UInt32, ok: bool)
      reads this
    {
      match r
      case NotRiff(p) => !ok && isOpen && pos == p && Format() == f0 && length == length0 && start == start0
      case NotWave(p) => !ok && isOpen && pos == p && Format() == f0 && length == length0 && start == start0
      case SearchFailed(f) => !ok && !isOpen && Format() == f && length == length0 && start == start0
      case NoSampleWidth(f) => !ok && !isOpen && Format() == f && length == length0 && start == start0
      case Opened(f, len, st) => ok && isOpen && Format() == f && length == len && pos == st && start == AsUInt32(st)
    }

    /** `Open`, with the division of the data length guarded: a sample
        width of zero closes the file and fails. The file must not be
        empty. */
    method Open(contents: Option<seq<Byte>>) returns (ok: bool)
      requires contents.Some? ==> |contents.value| > 0
      modifies this
      ensures contents.None? ==> !ok && !isOpen && file == old(file) && pos == old(pos)
      ensures contents.None? ==> Format() == old(Format()) && length == old(length) && start == old(start)
      ensures contents.Some? ==> file == contents.value
      ensures contents.Some? ==> OpenedAs(OpenSpec(file), old(Format()), old(length), old(start), ok)
    {
      if contents.None? {
        isOpen := false;
        return false;
      }
      ghost var d := contents.value;
      file, isOpen, pos := contents.value, true, 0;
      var nTotal := |file|;
      var riff := ReadString(d);
      if riff != Some(RiffTag) {
        return false;
      }
      var riffLen := ReadInt32(d);
      var wave := ReadString(d);
      if wave != Some(WaveTag) {
        return false;
      }
      pos := 16;
      assert ParseHeader(d) == DataChunk(d, ReadFormat(d, 16));
      ghost var r;
      ok, r := OpenFromFormat(d);
    }

    /** `Open` from the seek to the fmt chunk on; r is how it ends. */
    method OpenFromFormat(ghost d: seq<Byte>) returns (ok: bool, ghost r: OpenResult)
      requires file == d && isOpen && pos == 16
      modifies this
      ensures unchanged(this`file)
      ensures r == Conclude(DataChunk(d, ReadFormat(d, 16)))
      ensures OpenedAs(r, old(Format()), old(length), old(start), ok)
    {
      ghost var fmt := ReadFormat(d, 16);
      ReadFormatFields(d);
      ok, r := OpenAtFormat(d, fmt);
    }

    /** `Open` once the fmt fields are stored: the search for the data
        chunk and the data length word. */
    method OpenAtFormat(ghost d: seq<Byte>, ghost fmt: Got<WavFormat>) returns (ok: bool, ghost r: OpenResult)
      requires file == d && isOpen && Format() == fmt.value && pos == fmt.pos
      modifies this
      ensures unchanged(this`file)
      ensures r == Conclude(DataChunk(d, fmt)) && !r.NotRiff? && !r.NotWave?
      ensures OpenedAs(r, old(Format()), old(length), old(start), ok)
    {
      var nTotal := |file|;
      var search := FindData(d, nTotal);
      if search.SeekBackFailed? {
        DataChunkFails(d, fmt);
        Close();
        return false, SearchFailed(fmt.value);
      }
      var dataLen := ReadInt32(d);
      DataChunkFound(d, fmt, search.pos);
      ok, r := OpenAtLength(fmt.value, dataLen);
    }

    /** `Open` once the data length word is read: the division by the
        sample width, guarded. */
    method OpenAtLength(ghost f: WavFormat, dataLen: Int32) returns (ok: bool, ghost r: OpenResult)
      requires isOpen && Format() == f
      modifies this
      ensures unchanged(this`file)
      ensures r == Conclude(AtLength(f, dataLen, old(pos))) && !r.NotRiff? && !r.NotWave?
      ensures OpenedAs(r, old(Format()), old(length), old(start), ok)
    {
      if bitsPerSample / 8 == 0 {
        Close();
        return false, NoSampleWidth(f);
      }
      length := AsUInt32(TruncDiv(dataLen, bitsPerSample / 8));
      start := AsUInt32(pos);
      ok, r := true, Opened(f, length, pos);
    }
  }

  /** The data chunk part when the search fails. */
  lemma DataChunkFails(d: seq<Byte>, fmt: Got<WavFormat>)
    requires SearchData(d, fmt.pos, |d|).SeekBackFailed?
    ensures DataChunk(d, fmt) == Early(SearchFailed(fmt.value))
  {
  }

  /** The data chunk part when the search stops at p. */
  lemma DataChunkFound(d: seq<Byte>, fmt: Got<WavFormat>, p: nat)
    requires SearchData(d, fmt.pos, |d|) in {DataFound(p), DataNotFound(p)}
    ensures DataChunk(d, fmt) == AtLength(fmt.value, ReadInt32(d, p).value, ReadInt32(d, p).pos)
  {
  }
}
