/**
 * Telling text files from binary ones (`_is_text_file`) and reading a
 * text file's content (`_read_file_content`). The codecs and Python's
 * `str.isprintable` are foreign; they enter as a `Codecs` value.
 */
module Classifier {
  import opened Wrappers
  import opened Rules

  datatype Encoding = Utf8 | Utf8Sig | Cp1252 | Latin1 | Cp1251

  /** Strict decoding (None for a UnicodeDecodeError) and `str.isprintable` on one character. */
  datatype Codecs = Codecs(decode: (Encoding, seq<byte>) -> Option<string>, printable: char -> bool)

  /** At most this many leading bytes are examined. */
  const SampleLimit: nat := 8192

  /** The encodings tried when classifying, in order. */
  const ProbeEncodings: seq<Encoding> := [Utf8, Utf8Sig, Cp1252, Latin1, Cp1251]

  /** The encodings tried when reading content, in order. */
  const ReadEncodings: seq<Encoding> := [Utf8, Cp1251, Latin1]

  /** What `_read_file_content` returns when no encoding can be used. */
  const Unreadable: string := "[ERROR: Could not decode file]"

  /**
   * The magic prefixes of binary formats, in the order of the source's
   * table; the ZIP local-header prefix is listed there twice and kept once.
   */
  const Signatures: seq<seq<byte>> := [
    [0x89, 0x50, 0x4E, 0x47],                   // PNG
    [0xFF, 0xD8, 0xFF],                         // JPEG
    [0x47, 0x49, 0x46, 0x38],                   // GIF8
    [0x52, 0x49, 0x46, 0x46],                   // RIFF
    [0x50, 0x4B, 0x03, 0x04],                   // ZIP, also OOXML
    [0x50, 0x4B, 0x05, 0x06],                   // empty ZIP
    [0x50, 0x4B, 0x07, 0x08],                   // spanned ZIP
    [0x52, 0x41, 0x52, 0x46],                   // RARF
    [0x37, 0x7A, 0xBC, 0xAF, 0x27, 0x1C],       // 7z
    [0x1F, 0x8B],                               // gzip
    [0x42, 0x5A, 0x68],                         // BZh
    [0x25, 0x50, 0x44, 0x46],                   // %PDF
    [0xD0, 0xCF, 0x11, 0xE0],                   // MS Office
    [0x66, 0x4C, 0x61, 0x43],                   // fLaC
    [0x49, 0x44, 0x33],                         // ID3
    [0x4F, 0x67, 0x67, 0x53],                   // OggS
    [0x4D, 0x5A],                               // MZ
    [0x7F, 0x45, 0x4C, 0x46],                   // ELF
    [0x53, 0x51, 0x4C, 0x69, 0x74, 0x65],       // SQLite
    [0x00, 0x00, 0x00, 0x20, 0x66, 0x74, 0x79, 0x70]  // MP4
  ]

  function Min(a: int, b: int): int {
    if a <= b then a else b
  }

  /** The bytes one `read(min(size, 8192))` returns: a prefix of the file of at most 8192 bytes. */
  function Sample(size: nat, data: seq<byte>): (s: seq<byte>)
    ensures s <= data && |s| <= SampleLimit && |s| <= size
    ensures |data| >= size && size <= SampleLimit ==> s == data[..size]
  {
    data[..Min(Min(size, SampleLimit), |data|)]
  }

  predicate HasSignature(sample: seq<byte>) {
    exists i :: 0 <= i < |Signatures| && Signatures[i] <= sample
  }

  /** `data.count(b)`. */
  function CountByte(data: seq<byte>, b: byte): (n: nat)
    ensures n <= |data|
    ensures n == 0 <==> b !in data
  {
    if data == [] then 0
    else CountByte(data[..|data| - 1], b) + (if data[|data| - 1] == b then 1 else 0)
  }

  /** More than a tenth of the sample is NUL bytes. */
  predicate NullHeavy(sample: seq<byte>) {
    10 * CountByte(sample, 0) > |sample|
  }

  predicate IsControl(c: Codecs, ch: char) {
    !c.printable(ch) && ch != '\n' && ch != '\r' && ch != '\t'
  }

  /** The number of characters that are neither printable nor a newline, carriage return or tab. */
  function ControlCount(c: Codecs, text: string): (n: nat)
    ensures n <= |text|
  {
    if text == [] then 0
    else ControlCount(c, text[..|text| - 1]) + (if IsControl(c, text[|text| - 1]) then 1 else 0)
  }

  /** The sample decodes under `e`, and at most a tenth of the result is control characters. */
  predicate Acceptable(c: Codecs, e: Encoding, sample: seq<byte>) {
    match c.decode(e, sample)
    case None => false
    case Some(text) => 10 * ControlCount(c, text) <= |text|
  }

  predicate SampleIsText(c: Codecs, sample: seq<byte>) {
    && !HasSignature(sample)
    && !NullHeavy(sample)
    && exists k :: 0 <= k < |ProbeEncodings| && Acceptable(c, ProbeEncodings[k], sample)
  }

  /**
   * `_is_text_file`: a file whose `stat` fails is binary, an empty file is
   * text, a file that cannot be opened is binary, and otherwise the sample
   * decides.
   */
  predicate IsText(c: Codecs, stat: Stat, contents: Contents) {
    match stat
    case StatError(_) => false
    case Size(n) =>
      if n == 0 then true
      else match contents
        case Readable(data) => SampleIsText(c, Sample(n, data))
        case _ => false
  }

  /** Counts the control characters of a decoded sample, one character at a time. */
  method CountControls(c: Codecs, text: string) returns (n: nat)
    ensures n == ControlCount(c, text)
  {
    n := 0;
    for i := 0 to |text|
      invariant n == ControlCount(c, text[..i])
    {
      assert text[..i + 1][..i] == text[..i];
      if IsControl(c, text[i]) {
        n := n + 1;
      }
    }
    assert text[..|text|] == text;
  }

  /** The classifier as the source runs it: signatures, then the NUL ratio, then each encoding in turn. */
  method IsTextFile(c: Codecs, stat: Stat, contents: Contents) returns (text: bool)
    ensures text == IsText(c, stat, contents)
  {
    if stat.StatError? {
      return false;
    }
    if stat.bytes == 0 {
      return true;
    }
    if !contents.Readable? {
      return false;
    }
    var sample := Sample(stat.bytes, contents.data);
    for i := 0 to |Signatures|
      invariant forall j :: 0 <= j < i ==> !(Signatures[j] <= sample)
    {
      if Signatures[i] <= sample {
        return false;
      }
    }
    if 0 in sample && NullHeavy(sample) {
      return false;
    }
    for k := 0 to |ProbeEncodings|
      invariant forall j :: 0 <= j < k ==> !Acceptable(c, ProbeEncodings[j], sample)
    {
      var decoded := c.decode(ProbeEncodings[k], sample);
      if decoded.Some? {
        var controls := CountControls(c, decoded.value);
        if 10 * controls <= |decoded.value| {
          return true;
        }
      }
    }
    return false;
  }

  /** Python's universal-newline translation on reading: `\r\n` and a lone `\r` both become `\n`. */
  function Universal(t: string): (r: string)
    ensures '\r' !in r
    ensures |r| <= |t|
  {
    if |t| == 0 then ""
    else if t[0] == '\r' then "\n" + Universal(if |t| > 1 && t[1] == '\n' then t[2..] else t[1..])
    else [t[0]] + Universal(t[1..])
  }

  /** Text without carriage returns reads back unchanged. */
  lemma {:induction false} UniversalIdentity(t: string)
    requires '\r' !in t
    ensures Universal(t) == t
  {
    if |t| > 0 {
      UniversalIdentity(t[1..]);
      assert t == [t[0]] + t[1..];
    }
  }

  /** Translating twice is translating once. */
  lemma UniversalIdempotent(t: string)
    ensures Universal(Universal(t)) == Universal(t)
  {
    UniversalIdentity(Universal(t));
  }

  /** The outcome of reading: the text, or the OSError that escapes the fallback loop. */
  datatype ReadOutcome = Content(text: string) | Fatal(message: string)

  /**
   * `_read_file_content` with the encodings still to try: a permission
   * error or a decoding error moves on to the next one; any other read
   * error propagates; when none is left the placeholder text is returned.
   */
  function ReadWith(c: Codecs, contents: Contents, encodings: seq<Encoding>): ReadOutcome {
    if encodings == [] then Content(Unreadable)
    else match contents
      case PermissionDenied => ReadWith(c, contents, encodings[1..])
      case ReadFailed(msg) => Fatal(msg)
      case Readable(data) =>
        match c.decode(encodings[0], data)
        case Some(text) => Content(Universal(text))
        case None => ReadWith(c, contents, encodings[1..])
  }

  function ReadContent(c: Codecs, contents: Contents): ReadOutcome {
    ReadWith(c, contents, ReadEncodings)
  }

  /** Reads a file's content, trying the encodings in order as the source's loop does. */
  method ReadFileContent(c: Codecs, contents: Contents) returns (r: ReadOutcome)
    ensures r == ReadContent(c, contents)
  {
    var k := 0;
    while k < |ReadEncodings|
      invariant 0 <= k <= |ReadEncodings|
      invariant ReadWith(c, contents, ReadEncodings[k..]) == ReadContent(c, contents)
    {
      assert ReadEncodings[k..][1..] == ReadEncodings[k + 1..];
      match contents {
        case ReadFailed(msg) =>
          return Fatal(msg);
        case PermissionDenied =>
        case Readable(data) =>
          var decoded := c.decode(ReadEncodings[k], data);
          if decoded.Some? {
            return Content(Universal(decoded.value));
          }
      }
      k := k + 1;
    }
    return Content(Unreadable);
  }

  /**
   * The reading outcomes: a read error other than a permission error is
   * fatal, a permission error gives the placeholder, and a readable file
   * gives the newline-translated text of the first encoding that decodes it.
   */
  lemma ReadContentCases(c: Codecs, contents: Contents)
    ensures contents.ReadFailed? ==> ReadContent(c, contents) == Fatal(contents.message)
    ensures contents.PermissionDenied? ==> ReadContent(c, contents) == Content(Unreadable)
    ensures contents.Readable? ==> ReadContent(c, contents) == FirstDecoding(c, contents.data)
  {
    var e := ReadEncodings;
    assert e[1..] == [Cp1251, Latin1] && e[1..][1..] == [Latin1] && e[1..][1..][1..] == [];
    if contents.PermissionDenied? {
      assert ReadWith(c, contents, e[1..][1..]) == ReadWith(c, contents, []);
      assert ReadWith(c, contents, e[1..]) == ReadWith(c, contents, e[1..][1..]);
      assert ReadWith(c, contents, e) == ReadWith(c, contents, e[1..]);
    } else if contents.Readable? {
      var data := contents.data;
      if c.decode(Utf8, data).None? {
        assert ReadWith(c, contents, e) == ReadWith(c, contents, e[1..]);
        if c.decode(Cp1251, data).None? {
          assert ReadWith(c, contents, e[1..]) == ReadWith(c, contents, e[1..][1..]);
          if c.decode(Latin1, data).None? {
            assert ReadWith(c, contents, e[1..][1..]) == ReadWith(c, contents, []);
          }
        }
      }
    }
  }

  /** The newline-translated text of the first of UTF-8, CP1251 and Latin-1 that decodes the data. */
  function FirstDecoding(c: Codecs, data: seq<byte>): ReadOutcome {
    if c.decode(Utf8, data).Some? then Content(Universal(c.decode(Utf8, data).value))
    else if c.decode(Cp1251, data).Some? then Content(Universal(c.decode(Cp1251, data).value))
    else if c.decode(Latin1, data).Some? then Content(Universal(c.decode(Latin1, data).value))
    else Content(Unreadable)
  }

  /** When Latin-1 decodes every byte string, as it does, a readable file never yields the placeholder fallback. */
  lemma ReadableFileDecodes(c: Codecs, data: seq<byte>)
    requires forall d :: c.decode(Latin1, d).Some?
    ensures exists k :: (0 <= k < |ReadEncodings| && c.decode(ReadEncodings[k], data).Some?
                         && ReadContent(c, Readable(data)) == Content(Universal(c.decode(ReadEncodings[k], data).value)))
  {
    ReadContentCases(c, Readable(data));
    if c.decode(Utf8, data).Some? {
      assert ReadEncodings[0] == Utf8;
    } else if c.decode(Cp1251, data).Some? {
      assert ReadEncodings[1] == Cp1251;
    } else {
      assert ReadEncodings[2] == Latin1;
    }
  }

  /** An empty file is text, whatever else is known about it. */
  lemma EmptyFileIsText(c: Codecs, contents: Contents)
    ensures IsText(c, Size(0), contents)
  {
  }

  /** A sample that starts with a known signature is binary, whatever the encodings say. */
  lemma SignatureMeansBinary(c: Codecs, n: nat, data: seq<byte>, i: nat)
    requires n > 0 && i < |Signatures| && Signatures[i] <= Sample(n, data)
    ensures !IsText(c, Size(n), Readable(data))
  {
  }

  /** A sample with more than one NUL byte in ten is binary. */
  lemma NullsMeanBinary(c: Codecs, n: nat, data: seq<byte>)
    requires n > 0 && NullHeavy(Sample(n, data))
    ensures !IsText(c, Size(n), Readable(data))
  {
  }

  /** Exactly one NUL in ten bytes is still acceptable; the ratio must exceed a tenth. */
  lemma NullRatioBoundary(s: seq<byte>)
    requires |s| == 10 && CountByte(s, 0) == 1
    ensures !NullHeavy(s)
  {
  }
}
