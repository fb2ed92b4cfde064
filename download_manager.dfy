/** components/download-manager.tsx: the download options offered for a
    completed job, the media files built byte by byte (an MP4 of two boxes,
    a WAV header written into a buffer at fixed offsets, a PNG of three
    chunks), the download file names and the CSV and XML text. */
module DownloadManager {
  import opened Wrappers
  import opened Dicts
  import opened Text
  import opened Jobs

  newtype byte = x: int | 0 <= x < 256

  // ---------------------------------------------------------------------------
  // Download options

  datatype Category = Source | Data | Archive

  /** DownloadOption (its `label` is `title` here); the icon is not modelled. */
  datatype DownloadOption = DownloadOption(format: string, title: string, description: string, category: Category,
                                           mimeType: string, fileExtension: string)

  const EnhancedVideo := DownloadOption("enhanced_video", "Enhanced Video", "AI-enhanced video with improvements", Source, "video/mp4", "mp4")
  const ExtractedAudio := DownloadOption("enhanced_audio", "Enhanced Audio", "Extracted and optimized audio track", Source, "audio/mp3", "mp3")
  const EnhancedAudio := DownloadOption("enhanced_audio", "Enhanced Audio", "AI-optimized audio with noise reduction", Source, "audio/wav", "wav")
  const EnhancedImage := DownloadOption("enhanced_image", "Enhanced Image", "AI-enhanced image with improvements", Source, "image/png", "png")
  const Storyboard := DownloadOption("storyboard", "Storyboard", "Generated storyboard with key frames", Source, "image/png", "png")
  const JsonData := DownloadOption("json", "JSON Data", "Complete processing results in JSON format", Data, "application/json", "json")
  const CsvData := DownloadOption("csv", "CSV Data", "Processing metrics in spreadsheet format", Data, "text/csv", "csv")
  const XmlData := DownloadOption("xml", "XML Data", "Structured data in XML format", Data, "application/xml", "xml")
  const CompletePackage := DownloadOption("complete_package", "Complete Package", "All files and data in one ZIP archive", Archive, "application/zip", "zip")

  /** The kind of media a MIME type names, by its prefix. */
  datatype MediaKind = Video | Audio | Image | OtherMedia

  function KindOf(fileType: string): MediaKind {
    if "video/" <= fileType then Video
    else if "audio/" <= fileType then Audio
    else if "image/" <= fileType then Image
    else OtherMedia
  }

  /** The source-file options of each kind of media. */
  function SourceOptions(kind: MediaKind): seq<DownloadOption> {
    match kind
    case Video => [EnhancedVideo, ExtractedAudio]
    case Audio => [EnhancedAudio]
    case Image => [EnhancedImage]
    case OtherMedia => []
  }

  /** A storyboard is offered for a video whose results hold a truthy
      storyboard-agent entry. */
  predicate OffersStoryboard(job: ProcessingJob) {
    "video/" <= job.fileType && Truthy(Get(job.results, "storyboard-agent"))
  }

  const DataOptions: seq<DownloadOption> := [JsonData, CsvData, XmlData]

  /** The options offered for a job: its source files, the storyboard
      when offered, the three data exports and the archive. */
  function OptionsFor(job: ProcessingJob): seq<DownloadOption> {
    SourceOptions(KindOf(job.fileType)) + (if OffersStoryboard(job) then [Storyboard] else []) + DataOptions + [CompletePackage]
  }

  /** The archive comes last, after the three data exports, and every
      option before them is a source file. */
  lemma OptionsOrder(job: ProcessingJob)
    ensures var options := OptionsFor(job);
      && |options| >= 4 && options[|options| - 1] == CompletePackage
      && options[|options| - 4..|options| - 1] == DataOptions
      && (forall i :: 0 <= i < |options| - 4 ==> options[i].category == Source)
  {
    var options := OptionsFor(job);
    var n := |options|;
    assert options[n - 4..n - 1] == DataOptions;
  }

  /** The enhanced video is offered only for a video, the WAV only for
      audio, the storyboard only for a video whose storyboard agent
      produced a result. */
  lemma {:induction false} OptionsOffered(job: ProcessingJob)
    ensures var options := OptionsFor(job);
      && (EnhancedVideo in options <==> "video/" <= job.fileType)
      && (EnhancedAudio in options <==> KindOf(job.fileType) == Audio)
      && (Storyboard in options <==> OffersStoryboard(job))
  {
    var options := OptionsFor(job);
    assert options == SourceOptions(KindOf(job.fileType)) + ((if OffersStoryboard(job) then [Storyboard] else []) + DataOptions + [CompletePackage]);
    match KindOf(job.fileType)
    case Video =>
      assert "video/" <= job.fileType;
    case Audio =>
      assert !("video/" <= job.fileType);
    case Image =>
      assert !("video/" <= job.fileType);
    case OtherMedia =>
      assert !("video/" <= job.fileType);
  }

  /** No two options of a list share a format. */
  ghost predicate DistinctFormats(options: seq<DownloadOption>) {
    forall i, j :: 0 <= i < j < |options| ==> options[i].format != options[j].format
  }

  /** The formats that can be offered together differ. */
  lemma FormatsDiffer()
    ensures var ev, ea, ei, sb := "enhanced_video", "enhanced_audio", "enhanced_image", "storyboard";
      && ev != ea && ev != ei && ea != ei && sb != ev && sb != ea && sb != ei && "csv" != "xml"
      && ev != "complete_package" && ea != "complete_package" && ei != "complete_package"
      && sb != "complete_package"
  {
    assert "complete_package"[0] == 'c' && "enhanced_video"[0] == 'e' && "storyboard"[0] == 's';
    assert "enhanced_video"[9] == 'v' && "enhanced_audio"[9] == 'a' && "enhanced_image"[9] == 'i';
    assert |"storyboard"| == 10 && |"enhanced_video"| == 14;
    assert "csv"[0] == 'c' && "xml"[0] == 'x';
  }

  /** The last four options have distinct formats, none of them a source format. */
  lemma TailDistinct(sources: seq<DownloadOption>)
    requires forall o :: o in sources ==> |o.format| >= 10 && o.format != "complete_package"
    requires DistinctFormats(sources)
    ensures DistinctFormats(sources + DataOptions + [CompletePackage])
  {
    FormatsDiffer();
    var options := sources + DataOptions + [CompletePackage];
    var n := |sources|;
    forall i, j | 0 <= i < j < |options| ensures options[i].format != options[j].format {
      if j < n {
        assert options[i] == sources[i] && options[j] == sources[j];
      } else if i < n {
        assert options[i] in sources;
        assert options[j] in DataOptions + [CompletePackage];
      } else {
        assert options[n..] == DataOptions + [CompletePackage];
        assert options[i] == (DataOptions + [CompletePackage])[i - n];
        assert options[j] == (DataOptions + [CompletePackage])[j - n];
      }
    }
  }

  /** No two offered options share a format. */
  lemma OptionsDistinct(job: ProcessingJob)
    ensures DistinctFormats(OptionsFor(job))
  {
    FormatsDiffer();
    var sources := SourceOptions(KindOf(job.fileType)) + (if OffersStoryboard(job) then [Storyboard] else []);
    assert DistinctFormats(sources);
    TailDistinct(sources);
  }

  /** getDownloadOptions: the options are pushed one by one onto an empty list. */
  method GetDownloadOptions(job: ProcessingJob) returns (options: seq<DownloadOption>)
    ensures options == OptionsFor(job)
  {
    options := [];
    if "video/" <= job.fileType {
      options := options + [EnhancedVideo];
      options := options + [ExtractedAudio];
    } else if "audio/" <= job.fileType {
      options := options + [EnhancedAudio];
    } else if "image/" <= job.fileType {
      options := options + [EnhancedImage];
    }
    if "video/" <= job.fileType && Truthy(Get(job.results, "storyboard-agent")) {
      options := options + [Storyboard];
    }
    options := options + [JsonData, CsvData, XmlData];
    options := options + [CompletePackage];
  }

  // ---------------------------------------------------------------------------
  // Bytes

  /** The byte `setUint8` stores for a character code. */
  function Ascii(s: string): (r: seq<byte>)
    ensures |r| == |s|
  {
    seq(|s|, i requires 0 <= i < |s| => (s[i] as int % 256) as byte)
  }

  /** The `n` bytes of `v`, least significant first (`setUint32(o, v, true)`
      for n = 4, `setUint16` for n = 2). */
  function LittleEndian(v: nat, n: nat): (r: seq<byte>)
    ensures |r| == n
  {
    if n == 0 then [] else [(v % 256) as byte] + LittleEndian(v / 256, n - 1)
  }

  /** The number `bytes` denote, least significant first. */
  function ReadLittleEndian(bytes: seq<byte>): nat {
    if bytes == [] then 0 else bytes[0] as nat + 256 * ReadLittleEndian(bytes[1..])
  }

  function Power256(n: nat): nat {
    if n == 0 then 1 else 256 * Power256(n - 1)
  }

  /** Little-endian bytes read back as the number when it fits. */
  lemma {:induction false} LittleEndianRoundTrip(v: nat, n: nat)
    requires v < Power256(n)
    ensures ReadLittleEndian(LittleEndian(v, n)) == v
  {
    if n > 0 {
      LittleEndianRoundTrip(v / 256, n - 1);
      assert LittleEndian(v, n)[1..] == LittleEndian(v / 256, n - 1);
    }
  }

  /** The 32-bit big-endian number at `i` (box sizes and chunk lengths). */
  function BigEndian32(b: seq<byte>, i: nat): nat
    requires i + 4 <= |b|
  {
    ((b[i] as nat * 256 + b[i + 1] as nat) * 256 + b[i + 2] as nat) * 256 + b[i + 3] as nat
  }

  // ---------------------------------------------------------------------------
  // MP4 (ISO/IEC 14496-12)

  /** The FileTypeBox of the enhanced video, field by field: its size, its
      type, the major brand, the minor version and four compatible brands. */
  const FtypBox: seq<byte> := [0x00, 0x00, 0x00, 0x20] + Ascii("ftyp") + Ascii("isom") + [0x00, 0x00, 0x02, 0x00]
    + Ascii("isom") + Ascii("iso2") + Ascii("avc1") + Ascii("mp41")

  /** The empty MediaDataBox that follows it. */
  const MdatBox: seq<byte> := [0x00, 0x00, 0x00, 0x08] + Ascii("mdat")

  /** The bytes of the enhanced video. */
  const Mp4File: seq<byte> := FtypBox + MdatBox

  /** A box: its four-character type and its whole size, header included. */
  datatype Box = Box(boxType: seq<byte>, size: nat, body: seq<byte>)

  /** The boxes of a file, per section 4.2 of ISO/IEC 14496-12: each starts
      with a 32-bit big-endian size that counts its 8-byte header; sizes 0
      and 1 (to the end of the file, 64-bit size) are not used here and
      are refused. */
  function Boxes(b: seq<byte>): Option<seq<Box>>
    decreases |b|
  {
    if b == [] then Some([])
    else if |b| < 8 then None
    else
      var size := BigEndian32(b, 0);
      if size < 8 || size > |b| then None
      else match Boxes(b[size..])
        case None => None
        case Some(rest) => Some([Box(b[4..8], size, b[8..size])] + rest)
  }

  /** One box at the front of the bytes. */
  lemma BoxesStep(b: seq<byte>)
    requires |b| >= 8 && 8 <= BigEndian32(b, 0) <= |b| && Boxes(b[BigEndian32(b, 0)..]).Some?
    ensures var size := BigEndian32(b, 0);
      Boxes(b) == Some([Box(b[4..8], size, b[8..size])] + Boxes(b[size..]).value)
  { }

  /** The brands of a FileTypeBox body (section 4.3): major brand, minor
      version, then compatible brands to the end. */
  function Brands(body: seq<byte>): seq<seq<byte>>
    decreases |body|
  {
    if |body| < 4 then [] else [body[..4]] + Brands(body[4..])
  }

  /** The bytes of a four-character code. */
  lemma AsciiFour(s: string)
    requires |s| == 4
    ensures Ascii(s) == [(s[0] as int % 256) as byte, (s[1] as int % 256) as byte,
                         (s[2] as int % 256) as byte, (s[3] as int % 256) as byte]
  { }

  /** The four-character codes are the bytes the literal spells out. */
  lemma Mp4Codes()
    ensures Ascii("ftyp") == [0x66, 0x74, 0x79, 0x70] && Ascii("mdat") == [0x6d, 0x64, 0x61, 0x74]
    ensures Ascii("isom") == [0x69, 0x73, 0x6f, 0x6d] && Ascii("iso2") == [0x69, 0x73, 0x6f, 0x32]
    ensures Ascii("avc1") == [0x61, 0x76, 0x63, 0x31] && Ascii("mp41") == [0x6d, 0x70, 0x34, 0x31]
  {
    AsciiFour("ftyp");
    AsciiFour("mdat");
    AsciiFour("isom");
    AsciiFour("iso2");
    AsciiFour("avc1");
    AsciiFour("mp41");
  }

  /** A four-byte code in front is read back as the first brand. */
  lemma BrandsCons(a: seq<byte>, rest: seq<byte>)
    requires |a| == 4
    ensures Brands(a + rest) == [a] + Brands(rest)
  {
    assert (a + rest)[..4] == a && (a + rest)[4..] == rest;
  }

  /** Two four-byte codes are read back as two brands. */
  lemma BrandsOfTwo(c: seq<byte>, d: seq<byte>)
    requires |c| == 4 && |d| == 4
    ensures Brands(c + d) == [c, d]
  {
    BrandsCons(d, []);
    assert d + [] == d && [d] + [] == [d];
    BrandsCons(c, d);
  }

  /** Four-byte codes one after the other are read back as brands. */
  lemma BrandsOfFour(a: seq<byte>, b: seq<byte>, c: seq<byte>, d: seq<byte>)
    requires |a| == 4 && |b| == 4 && |c| == 4 && |d| == 4
    ensures Brands(a + (b + (c + d))) == [a, b, c, d]
  {
    BrandsOfTwo(c, d);
    BrandsCons(b, c + d);
    BrandsCons(a, b + (c + d));
  }

  /** The empty 'mdat' box at the end of the enhanced video. */
  lemma Mp4Tail()
    ensures Boxes(MdatBox) == Some([Box(Ascii("mdat"), 8, [])])
  {
    var m := MdatBox;
    assert m[4..8] == Ascii("mdat");
    assert m[8..] == [] && m[8..8] == [];
    assert Boxes(m[8..]) == Some([]);
    BoxesStep(m);
    assert [Box(Ascii("mdat"), 8, [])] + [] == [Box(Ascii("mdat"), 8, [])];
  }

  /** The compatible brands of the enhanced video. */
  lemma Mp4Brands()
    ensures Brands(Mp4File[16..32]) == [Ascii("isom"), Ascii("iso2"), Ascii("avc1"), Ascii("mp41")]
  {
    assert Mp4File[16..32] == Ascii("isom") + (Ascii("iso2") + (Ascii("avc1") + Ascii("mp41")));
    BrandsOfFour(Ascii("isom"), Ascii("iso2"), Ascii("avc1"), Ascii("mp41"));
  }

  /** The header of the enhanced video's first box: size 0x20, type 'ftyp',
      major brand 'isom', minor version 0x200. */
  lemma Mp4Head()
    ensures BigEndian32(Mp4File, 0) == 32 && Mp4File[4..8] == Ascii("ftyp")
    ensures Mp4File[8..12] == Ascii("isom") && BigEndian32(Mp4File, 12) == 0x200
  {
    assert Mp4File[..4] == [0x00, 0x00, 0x00, 0x20];
    assert Mp4File[12..16] == [0x00, 0x00, 0x02, 0x00];
  }

  /** The enhanced video is a 32-byte 'ftyp' box then an empty 8-byte 'mdat'
      box, 40 bytes in all. */
  lemma Mp4Layout()
    ensures |Mp4File| == 40
    ensures Boxes(Mp4File) == Some([Box(Ascii("ftyp"), 32, Mp4File[8..32]), Box(Ascii("mdat"), 8, [])])
  {
    Mp4Tail();
    Mp4Head();
    assert Mp4File[32..] == MdatBox;
    BoxesStep(Mp4File);
    assert [Box(Ascii("ftyp"), 32, Mp4File[8..32])] + [Box(Ascii("mdat"), 8, [])]
        == [Box(Ascii("ftyp"), 32, Mp4File[8..32]), Box(Ascii("mdat"), 8, [])];
  }

  // ---------------------------------------------------------------------------
  // WAV (RIFF WAVE form)

  const SampleRate: nat := 44100
  const Duration: nat := 5
  const NumSamples: nat := SampleRate * Duration
  const NumChannels: nat := 2
  const BytesPerSample: nat := 2
  const BlockAlign: nat := NumChannels * BytesPerSample
  const ByteRate: nat := SampleRate * BlockAlign
  const DataSize: nat := NumSamples * BlockAlign
  const RiffSize: nat := 36 + DataSize

  /** The RIFF header: the form type follows the chunk size. */
  function RiffHeader(): seq<byte> {
    Ascii("RIFF") + LittleEndian(RiffSize, 4) + Ascii("WAVE")
  }

  /** The 'fmt ' chunk: PCM format, channels, sample rate, byte rate, block
      alignment and bits per sample. */
  function FmtChunk(): seq<byte> {
    Ascii("fmt ") + LittleEndian(16, 4) + LittleEndian(1, 2) + LittleEndian(NumChannels, 2)
    + LittleEndian(SampleRate, 4) + LittleEndian(ByteRate, 4) + LittleEndian(BlockAlign, 2)
    + LittleEndian(BytesPerSample * 8, 2)
  }

  /** The header of the 'data' chunk. */
  function DataHeader(): seq<byte> {
    Ascii("data") + LittleEndian(DataSize, 4)
  }

  /** The 44 header bytes, in the order they are written. */
  function WavHeader(): seq<byte> {
    RiffHeader() + FmtChunk() + DataHeader()
  }

  /** A field of `size` bytes at `offset`, read least significant first. */
  function Field(h: seq<byte>, offset: nat, size: nat): nat
    requires offset + size <= |h|
  {
    ReadLittleEndian(h[offset..offset + size])
  }

  /** A field of the front part of a header. */
  lemma FieldFront(a: seq<byte>, b: seq<byte>, offset: nat, size: nat)
    requires offset + size <= |a|
    ensures (a + b)[offset..offset + size] == a[offset..offset + size]
    ensures Field(a + b, offset, size) == Field(a, offset, size)
  {
    assert (a + b)[offset..offset + size] == a[offset..offset + size];
  }

  /** A field of the back part of a header. */
  lemma FieldBack(a: seq<byte>, b: seq<byte>, offset: nat, size: nat)
    requires offset + size <= |b|
    ensures (a + b)[|a| + offset..|a| + offset + size] == b[offset..offset + size]
    ensures Field(a + b, |a| + offset, size) == Field(b, offset, size)
  {
    assert (a + b)[|a| + offset..|a| + offset + size] == b[offset..offset + size];
  }

  /** Numbers below 2^32 and 2^16 read back from their bytes. */
  lemma ReadBack(v: nat)
    requires v < 4294967296
    ensures ReadLittleEndian(LittleEndian(v, 4)) == v
    ensures v < 65536 ==> ReadLittleEndian(LittleEndian(v, 2)) == v
  {
    assert Power256(1) == 256;
    assert Power256(2) == 65536;
    assert Power256(3) == 16777216;
    assert Power256(4) == 4294967296;
    LittleEndianRoundTrip(v, 4);
    if v < 65536 {
      LittleEndianRoundTrip(v, 2);
    }
  }

  /** Three four-byte fields one after the other. */
  lemma ThreeFields(a: seq<byte>, b: seq<byte>, c: seq<byte>)
    requires |a| == 4 && |b| == 4 && |c| == 4
    ensures var s := a + b + c; |s| == 12 && s[0..4] == a && s[4..8] == b && s[8..12] == c
  {
    FieldFront(a + b, c, 0, 4);
    FieldFront(a, b, 0, 4);
    FieldFront(a + b, c, 4, 4);
    FieldBack(a, b, 0, 4);
    FieldBack(a + b, c, 0, 4);
  }

  /** Two four-byte fields one after the other. */
  lemma TwoFields(a: seq<byte>, b: seq<byte>)
    requires |a| == 4 && |b| == 4
    ensures var s := a + b; |s| == 8 && s[0..4] == a && s[4..8] == b
  {
    FieldFront(a, b, 0, 4);
    FieldBack(a, b, 0, 4);
  }

  /** The eight fields of a 'fmt ' chunk at their offsets. */
  lemma EightFields(a: seq<byte>, b: seq<byte>, c: seq<byte>, d: seq<byte>,
                    e: seq<byte>, f: seq<byte>, g: seq<byte>, h: seq<byte>)
    requires |a| == 4 && |b| == 4 && |c| == 2 && |d| == 2 && |e| == 4 && |f| == 4 && |g| == 2 && |h| == 2
    ensures var s := a + b + c + d + e + f + g + h;
      && |s| == 24 && s[0..4] == a && s[4..8] == b && s[8..10] == c && s[10..12] == d
      && s[12..16] == e && s[16..20] == f && s[20..22] == g && s[22..24] == h
  {
    var front := a + b + c + d;
    var back := e + f + g + h;
    assert a + b + c + d + e + f + g + h == front + back;
    FourFields(a, b, c, d);
    FourFields(e, f, g, h);
    FieldFront(front, back, 0, 4);
    FieldFront(front, back, 4, 4);
    FieldFront(front, back, 8, 2);
    FieldFront(front, back, 10, 2);
    FieldBack(front, back, 0, 4);
    FieldBack(front, back, 4, 4);
    FieldBack(front, back, 8, 2);
    FieldBack(front, back, 10, 2);
  }

  /** Fields of sizes 4, 4, 2 and 2 at offsets 0, 4, 8 and 10. */
  lemma FourFields(a: seq<byte>, b: seq<byte>, c: seq<byte>, d: seq<byte>)
    requires |a| == 4 && |b| == 4 && |c| == 2 && |d| == 2
    ensures var s := a + b + c + d;
      && |s| == 12 && s[0..4] == a && s[4..8] == b && s[8..10] == c && s[10..12] == d
  {
    var ab := a + b;
    var cd := c + d;
    assert a + b + c + d == ab + cd;
    TwoFields(a, b);
    FieldFront(ab, cd, 0, 4);
    FieldFront(ab, cd, 4, 4);
    FieldBack(ab, cd, 0, 2);
    FieldBack(ab, cd, 2, 2);
    FieldFront(c, d, 0, 2);
    FieldBack(c, d, 0, 2);
  }

  /** The RIFF header holds the chunk size 36 + dataSize, the file length
      less 8. */
  lemma RiffFields()
    ensures var h := RiffHeader();
      && |h| == 12 && h[0..4] == Ascii("RIFF") && h[8..12] == Ascii("WAVE")
      && Field(h, 4, 4) == RiffSize == 36 + DataSize == (44 + DataSize) - 8
  {
    ThreeFields(Ascii("RIFF"), LittleEndian(RiffSize, 4), Ascii("WAVE"));
    ReadBack(RiffSize);
  }

  /** The data header holds dataSize, samples times blockAlign. */
  lemma DataFields()
    ensures var h := DataHeader();
      && |h| == 8 && h[0..4] == Ascii("data") && Field(h, 4, 4) == DataSize == NumSamples * BlockAlign
  {
    TwoFields(Ascii("data"), LittleEndian(DataSize, 4));
    ReadBack(DataSize);
  }

  /** The 'fmt ' chunk: length 16, PCM (1), two channels, 44100 samples a
      second, byteRate = sampleRate * blockAlign, blockAlign = channels *
      bytes per sample = 4, 16 bits a sample. */
  lemma FmtFields()
    ensures var f := FmtChunk();
      && |f| == 24 && f[0..4] == Ascii("fmt ")
      && Field(f, 4, 4) == 16 && Field(f, 8, 2) == 1 && Field(f, 10, 2) == NumChannels == 2
      && Field(f, 12, 4) == SampleRate == 44100
      && Field(f, 16, 4) == ByteRate == SampleRate * BlockAlign
      && Field(f, 20, 2) == BlockAlign == NumChannels * BytesPerSample == 4
      && Field(f, 22, 2) == 16
  {
    EightFields(Ascii("fmt "), LittleEndian(16, 4), LittleEndian(1, 2), LittleEndian(NumChannels, 2),
                LittleEndian(SampleRate, 4), LittleEndian(ByteRate, 4), LittleEndian(BlockAlign, 2),
                LittleEndian(BytesPerSample * 8, 2));
    ReadBack(16);
    ReadBack(1);
    ReadBack(NumChannels);
    ReadBack(SampleRate);
    ReadBack(ByteRate);
    ReadBack(BlockAlign);
    ReadBack(BytesPerSample * 8);
  }

  /** The header is 44 bytes: the RIFF header, the 'fmt ' chunk from offset
      12 and the data header from offset 36, so the RIFF size sits at 4,
      the channel count at 22, the sample rate at 24, the byte rate at 28,
      blockAlign at 32 and dataSize at 40. */
  lemma WavHeaderFields()
    ensures var h := WavHeader();
      && |h| == 44
      && h[0..4] == Ascii("RIFF") && h[8..12] == Ascii("WAVE") && h[12..16] == Ascii("fmt ") && h[36..40] == Ascii("data")
      && Field(h, 4, 4) == RiffSize && Field(h, 16, 4) == 16 && Field(h, 20, 2) == 1
      && Field(h, 22, 2) == NumChannels && Field(h, 24, 4) == SampleRate && Field(h, 28, 4) == ByteRate
      && Field(h, 32, 2) == BlockAlign && Field(h, 34, 2) == 16 && Field(h, 40, 4) == DataSize
  {
    RiffFields();
    FmtFields();
    DataFields();
    HeaderFields(RiffHeader(), FmtChunk(), DataHeader());
  }

  /** The fields of the whole header are those of its parts. */
  lemma HeaderFields(r: seq<byte>, f: seq<byte>, d: seq<byte>)
    requires |r| == 12 && |f| == 24 && |d| == 8
    ensures var h := r + f + d;
      && |h| == 44 && h[0..4] == r[0..4] && h[8..12] == r[8..12] && h[12..16] == f[0..4] && h[36..40] == d[0..4]
      && Field(h, 4, 4) == Field(r, 4, 4) && Field(h, 16, 4) == Field(f, 4, 4) && Field(h, 20, 2) == Field(f, 8, 2)
      && Field(h, 22, 2) == Field(f, 10, 2) && Field(h, 24, 4) == Field(f, 12, 4) && Field(h, 28, 4) == Field(f, 16, 4)
      && Field(h, 32, 2) == Field(f, 20, 2) && Field(h, 34, 2) == Field(f, 22, 2) && Field(h, 40, 4) == Field(d, 4, 4)
  {
    HeaderSlices(r, f, d);
  }

  /** Where the fields of each part sit in the whole header. */
  lemma HeaderSlices(r: seq<byte>, f: seq<byte>, d: seq<byte>)
    requires |r| == 12 && |f| == 24 && |d| == 8
    ensures var h := r + f + d;
      && |h| == 44 && h[0..4] == r[0..4] && h[4..8] == r[4..8] && h[8..12] == r[8..12]
      && h[12..16] == f[0..4] && h[16..20] == f[4..8] && h[20..22] == f[8..10] && h[22..24] == f[10..12]
      && h[24..28] == f[12..16] && h[28..32] == f[16..20] && h[32..34] == f[20..22] && h[34..36] == f[22..24]
      && h[36..40] == d[0..4] && h[40..44] == d[4..8]
  {
    FieldFront(r + f, d, 0, 4);
    FieldFront(r + f, d, 4, 4);
    FieldFront(r + f, d, 8, 4);
    FieldFront(r, f, 0, 4);
    FieldFront(r, f, 4, 4);
    FieldFront(r, f, 8, 4);
    FieldBack(r + f, d, 0, 4);
    FieldBack(r + f, d, 4, 4);
    FieldFront(r + f, d, 12, 4);
    FieldFront(r + f, d, 16, 4);
    FieldFront(r + f, d, 20, 2);
    FieldFront(r + f, d, 22, 2);
    FieldFront(r + f, d, 24, 4);
    FieldFront(r + f, d, 28, 4);
    FieldFront(r + f, d, 32, 2);
    FieldFront(r + f, d, 34, 2);
    FieldBack(r, f, 0, 4);
    FieldBack(r, f, 4, 4);
    FieldBack(r, f, 8, 2);
    FieldBack(r, f, 10, 2);
    FieldBack(r, f, 12, 4);
    FieldBack(r, f, 16, 4);
    FieldBack(r, f, 20, 2);
    FieldBack(r, f, 22, 2);
  }

  /** Bytes stored one by one from `offset`: `writeString` and the DataView
      setters.  `prefix` is what the buffer already holds before `offset`. */
  method WriteBytes(buf: array<byte>, offset: nat, bytes: seq<byte>, ghost prefix: seq<byte>)
    requires |prefix| == offset && offset + |bytes| <= buf.Length && buf[..offset] == prefix
    modifies buf
    ensures buf[..offset + |bytes|] == prefix + bytes
  {
    for i := 0 to |bytes|
      invariant buf[..offset + i] == prefix + bytes[..i]
    {
      buf[offset + i] := bytes[i];
      assert buf[..offset + i + 1] == buf[..offset + i] + [bytes[i]];
      assert bytes[..i + 1] == bytes[..i] + [bytes[i]];
    }
    assert bytes[..|bytes|] == bytes;
  }

  /** The RIFF header, written at offsets 0, 4 and 8. */
  method WriteRiffHeader(buf: array<byte>)
    requires buf.Length >= 12
    modifies buf
    ensures buf[..12] == RiffHeader()
  {
    WriteBytes(buf, 0, Ascii("RIFF"), []);
    WriteBytes(buf, 4, LittleEndian(RiffSize, 4), Ascii("RIFF"));
    WriteBytes(buf, 8, Ascii("WAVE"), Ascii("RIFF") + LittleEndian(RiffSize, 4));
  }

  /** The 'fmt ' chunk, written at offsets 12 to 34. */
  method WriteFmtChunk(buf: array<byte>, ghost before: seq<byte>)
    requires buf.Length >= 36 && |before| == 12 && buf[..12] == before
    modifies buf
    ensures buf[..36] == before + FmtChunk()
  {
    var a, b, c, d := Ascii("fmt "), LittleEndian(16, 4), LittleEndian(1, 2), LittleEndian(NumChannels, 2);
    WriteBytes(buf, 12, a, before);
    WriteBytes(buf, 16, b, before + a);
    WriteBytes(buf, 20, c, before + a + b);
    WriteBytes(buf, 22, d, before + a + b + c);
    WriteFmtRates(buf, before + a + b + c + d);
    AppendEight(before, a, b, c, d, LittleEndian(SampleRate, 4), LittleEndian(ByteRate, 4), LittleEndian(BlockAlign, 2),
                LittleEndian(BytesPerSample * 8, 2));
  }

  /** The rate and alignment fields of the 'fmt ' chunk, offsets 24 to 34. */
  method WriteFmtRates(buf: array<byte>, ghost before: seq<byte>)
    requires buf.Length >= 36 && |before| == 24 && buf[..24] == before
    modifies buf
    ensures buf[..36] == before + LittleEndian(SampleRate, 4) + LittleEndian(ByteRate, 4) + LittleEndian(BlockAlign, 2)
      + LittleEndian(BytesPerSample * 8, 2)
  {
    var e, f, g := LittleEndian(SampleRate, 4), LittleEndian(ByteRate, 4), LittleEndian(BlockAlign, 2);
    WriteBytes(buf, 24, e, before);
    WriteBytes(buf, 28, f, before + e);
    WriteBytes(buf, 32, g, before + e + f);
    WriteBytes(buf, 34, LittleEndian(BytesPerSample * 8, 2), before + e + f + g);
  }

  /** Eight parts appended one by one make the prefix and their concatenation. */
  lemma AppendEight<T>(p: seq<T>, a: seq<T>, b: seq<T>, c: seq<T>, d: seq<T>, e: seq<T>, f: seq<T>, g: seq<T>, h: seq<T>)
    ensures p + a + b + c + d + e + f + g + h == p + (a + b + c + d + e + f + g + h)
  {
    assert p + a + b + c + d + e + f + g + h == p + (a + b + c + d) + (e + f + g + h);
  }

  /** The enhanced audio: a zeroed buffer of 44 + dataSize bytes whose header
      is written field by field (the sine samples are not modelled). */
  method GenerateWav() returns (buf: array<byte>)
    ensures fresh(buf) && buf.Length == 44 + DataSize && buf[..44] == WavHeader()
  {
    buf := new byte[44 + DataSize](_ => 0);
    ghost var r, f := RiffHeader(), FmtChunk();
    WriteRiffHeader(buf);
    WriteFmtChunk(buf, r);
    WriteBytes(buf, 36, Ascii("data"), r + f);
    WriteBytes(buf, 40, LittleEndian(DataSize, 4), r + f + Ascii("data"));
    assert r + f + Ascii("data") + LittleEndian(DataSize, 4) == r + f + DataHeader();
  }

  // ---------------------------------------------------------------------------
  // PNG

  /** The PNG signature (section 5.2 of the PNG specification). */
  const PngSignature: seq<byte> := [0x89, 0x50, 0x4e, 0x47, 0x0d, 0x0a, 0x1a, 0x0a]

  /** The IHDR data of the enhanced image: width, height, bit depth, colour
      type, compression, filter and interlace methods. */
  const IhdrData: seq<byte> := [0x00, 0x00, 0x00, 0x64, 0x00, 0x00, 0x00, 0x64, 0x08, 0x02, 0x00, 0x00, 0x00]

  /** The compressed image data. */
  const IdatData: seq<byte> := [0x08, 0x1d, 0x01, 0x01, 0x00, 0x00, 0xfe, 0xff, 0x00, 0x00, 0x00, 0x02]

  /** The chunks of the enhanced image, field by field: length, type, data
      and the CRC as written. */
  const IhdrChunk: seq<byte> := [0x00, 0x00, 0x00, 0x0d] + Ascii("IHDR") + IhdrData + [0x4c, 0x5c, 0x6d, 0x7e]
  const IdatChunk: seq<byte> := [0x00, 0x00, 0x00, 0x0c] + Ascii("IDAT") + IdatData + [0x00, 0x01, 0x00, 0x25]
  const IendChunk: seq<byte> := [0x00, 0x00, 0x00, 0x00] + Ascii("IEND") + [] + [0xae, 0x42, 0x60, 0x82]

  /** The bytes of the enhanced image. */
  const PngFile: seq<byte> := PngSignature + IhdrChunk + IdatChunk + IendChunk

  /** A chunk (section 5.3): its declared data length, type, data and CRC. */
  datatype Chunk = Chunk(length: nat, chunkType: seq<byte>, data: seq<byte>, crc: seq<byte>)

  /** The chunks after the signature: a 4-byte big-endian length, a 4-byte
      type, that many data bytes, a 4-byte CRC (the CRC is kept, not checked). */
  function Chunks(b: seq<byte>): Option<seq<Chunk>>
    decreases |b|
  {
    if b == [] then Some([])
    else if |b| < 12 then None
    else
      var length := BigEndian32(b, 0);
      if 12 + length > |b| then None
      else match Chunks(b[12 + length..])
        case None => None
        case Some(rest) => Some([Chunk(length, b[4..8], b[8..8 + length], b[8 + length..12 + length])] + rest)
  }

  /** One chunk at the front of the bytes. */
  lemma ChunksStep(b: seq<byte>)
    requires |b| >= 12 && 12 + BigEndian32(b, 0) <= |b| && Chunks(b[12 + BigEndian32(b, 0)..]).Some?
    ensures var length := BigEndian32(b, 0);
      Chunks(b) == Some([Chunk(length, b[4..8], b[8..8 + length], b[8 + length..12 + length])] + Chunks(b[12 + length..]).value)
  { }

  /** The chunk types are the bytes the literal spells out. */
  lemma PngCodes()
    ensures Ascii("IHDR") == [0x49, 0x48, 0x44, 0x52]
    ensures Ascii("IDAT") == [0x49, 0x44, 0x41, 0x54]
    ensures Ascii("IEND") == [0x49, 0x45, 0x4e, 0x44]
  {
    AsciiFour("IHDR");
    AsciiFour("IDAT");
    AsciiFour("IEND");
  }

  /** A chunk whose length field counts its data, in front of well-formed
      chunks. */
  lemma ChunkFront(length: seq<byte>, chunkType: seq<byte>, data: seq<byte>, crc: seq<byte>, rest: seq<byte>)
    requires |length| == 4 && |chunkType| == 4 && |crc| == 4 && BigEndian32(length, 0) == |data|
    requires Chunks(rest).Some?
    ensures Chunks(length + chunkType + data + crc + rest) == Some([Chunk(|data|, chunkType, data, crc)] + Chunks(rest).value)
  {
    var head := length + chunkType;
    var withData := head + data;
    var chunk := withData + crc;
    var b := chunk + rest;
    var n := |data|;
    assert b[..12 + n] == chunk && b[12 + n..] == rest;
    assert chunk[..8 + n] == withData && chunk[8 + n..] == crc;
    assert withData[..8] == head && withData[8..] == data;
    assert head[..4] == length && head[4..] == chunkType;
    assert b[..8] == head by { assert b[..8] == chunk[..8 + n][..8]; }
    assert b[0] == length[0] && b[1] == length[1] && b[2] == length[2] && b[3] == length[3];
    assert b[4..8] == chunkType by { assert b[4..8] == b[..8][4..]; }
    assert b[8..8 + n] == data by { assert b[8..8 + n] == b[..12 + n][..8 + n][8..]; }
    assert b[8 + n..12 + n] == crc by { assert b[8 + n..12 + n] == b[..12 + n][8 + n..]; }
    ChunksStep(b);
  }

  /** The last chunk of the enhanced image is an empty IEND. */
  lemma PngEnd()
    ensures Chunks(IendChunk) == Some([Chunk(0, Ascii("IEND"), [], [0xae, 0x42, 0x60, 0x82])])
  {
    var iend := Chunk(0, Ascii("IEND"), [], [0xae, 0x42, 0x60, 0x82]);
    assert Chunks([]) == Some([]);
    ChunkFront([0x00, 0x00, 0x00, 0x00], Ascii("IEND"), [], [0xae, 0x42, 0x60, 0x82], []);
    assert IendChunk + [] == IendChunk;
    assert [iend] + [] == [iend];
  }

  /** Before it, an IDAT chunk of 12 data bytes. */
  lemma PngData()
    ensures Chunks(IdatChunk + IendChunk) == Some([Chunk(12, Ascii("IDAT"), IdatData, [0x00, 0x01, 0x00, 0x25]),
                                                  Chunk(0, Ascii("IEND"), [], [0xae, 0x42, 0x60, 0x82])])
  {
    var idat := Chunk(12, Ascii("IDAT"), IdatData, [0x00, 0x01, 0x00, 0x25]);
    var iend := Chunk(0, Ascii("IEND"), [], [0xae, 0x42, 0x60, 0x82]);
    PngEnd();
    ChunkFront([0x00, 0x00, 0x00, 0x0c], Ascii("IDAT"), IdatData, [0x00, 0x01, 0x00, 0x25], IendChunk);
    assert [idat] + [iend] == [idat, iend];
  }

  /** Dropping the first of four parts. */
  lemma DropFirst<T>(a: seq<T>, b: seq<T>, c: seq<T>, d: seq<T>)
    ensures |a + b + c + d| == |a| + |b| + |c| + |d|
    ensures (a + b + c + d)[..|a|] == a && (a + b + c + d)[|a|..] == b + (c + d)
  {
    assert a + b + c + d == a + (b + (c + d));
  }

  /** The enhanced image is the signature then the chunks IHDR (13 data
      bytes), IDAT (12) and IEND (0), 69 bytes in all. */
  lemma PngLayout()
    ensures |PngFile| == 69 && PngFile[..8] == PngSignature
    ensures Chunks(PngFile[8..]) == Some([Chunk(13, Ascii("IHDR"), IhdrData, [0x4c, 0x5c, 0x6d, 0x7e]),
                                          Chunk(12, Ascii("IDAT"), IdatData, [0x00, 0x01, 0x00, 0x25]),
                                          Chunk(0, Ascii("IEND"), [], [0xae, 0x42, 0x60, 0x82])])
  {
    var ihdr := Chunk(13, Ascii("IHDR"), IhdrData, [0x4c, 0x5c, 0x6d, 0x7e]);
    var idat := Chunk(12, Ascii("IDAT"), IdatData, [0x00, 0x01, 0x00, 0x25]);
    var iend := Chunk(0, Ascii("IEND"), [], [0xae, 0x42, 0x60, 0x82]);
    PngData();
    ChunkFront([0x00, 0x00, 0x00, 0x0d], Ascii("IHDR"), IhdrData, [0x4c, 0x5c, 0x6d, 0x7e], IdatChunk + IendChunk);
    DropFirst(PngSignature, IhdrChunk, IdatChunk, IendChunk);
    assert [ihdr] + [idat, iend] == [ihdr, idat, iend];
  }

  /** The IHDR data declares a 100 by 100 image of bit depth 8, colour type 2
      (truecolour) and methods 0 (section 11.2.2 of the PNG specification),
      not the 1 by 1 image the comment beside it announces. */
  lemma PngHeader()
    ensures |IhdrData| == 13
    ensures BigEndian32(IhdrData, 0) == 100 && BigEndian32(IhdrData, 4) == 100
    ensures IhdrData[8] == 8 && IhdrData[9] == 2 && IhdrData[10..] == [0, 0, 0]
  {
  }

  // ---------------------------------------------------------------------------
  // handleDownload

  /** The file name of a download: the job's file name up to its first '.';
      the archive is "_complete_package.zip", every other option
      "_" + format + "." + extension. */
  function DownloadName(job: ProcessingJob, option: DownloadOption): string {
    if option.category == Source then Stem(job.fileName) + "_" + option.format + "." + option.fileExtension
    else if option.format == "complete_package" then Stem(job.fileName) + "_complete_package.zip"
    else Stem(job.fileName) + "_" + option.format + "." + option.fileExtension
  }

  /** Names built from one stem differ when their formats, which hold no
      '.', differ. */
  lemma NamesDiffer(stem: string, f1: string, e1: string, f2: string, e2: string)
    requires '.' !in f1 && '.' !in f2 && f1 != f2
    ensures stem + "_" + f1 + "." + e1 != stem + "_" + f2 + "." + e2
  {
    var p := stem + "_";
    var a := f1 + "." + e1;
    var b := f2 + "." + e2;
    StemDot(f1, e1);
    StemDot(f2, e2);
    assert stem + "_" + f1 + "." + e1 == p + a;
    assert stem + "_" + f2 + "." + e2 == p + b;
    assert (p + a)[|p|..] == a;
    assert (p + b)[|p|..] == b;
  }

  /** Formats hold no '.', and only the archive has the archive's format. */
  ghost predicate PlainFormat(o: DownloadOption) {
    '.' !in o.format && (o.format == "complete_package" ==> o == CompletePackage)
  }

  /** Every option's format is plain. */
  lemma PlainFormats()
    ensures PlainFormat(EnhancedVideo) && PlainFormat(ExtractedAudio) && PlainFormat(EnhancedAudio)
    ensures PlainFormat(EnhancedImage) && PlainFormat(Storyboard)
    ensures PlainFormat(JsonData) && PlainFormat(CsvData) && PlainFormat(XmlData) && PlainFormat(CompletePackage)
  {
    assert |"complete_package"| == 16;
  }

  lemma OptionFormats(job: ProcessingJob)
    ensures forall o :: o in OptionsFor(job) ==> PlainFormat(o)
  {
    PlainFormats();
  }

  /** The file name of an option whose format is plain. */
  lemma NameOf(job: ProcessingJob, o: DownloadOption)
    requires PlainFormat(o)
    ensures DownloadName(job, o) == Stem(job.fileName) + "_" + o.format + "." + o.fileExtension
  {
    var stem := Stem(job.fileName);
    if o.category != Source && o.format == "complete_package" {
      assert "_" + "complete_package" + "." + "zip" == "_complete_package.zip";
      NameAssoc(stem, "complete_package", "zip");
    }
  }

  lemma NameAssoc(stem: string, f: string, e: string)
    ensures stem + "_" + f + "." + e == stem + ("_" + f + "." + e)
  { }

  /** Every offered option downloads as the stem, '_', its format, '.' and
      its extension, and no two offered options share a file name. */
  lemma OfferedNames(job: ProcessingJob)
    ensures var options := OptionsFor(job);
      && (forall o :: o in options ==> DownloadName(job, o) == Stem(job.fileName) + "_" + o.format + "." + o.fileExtension)
      && (forall i, j :: 0 <= i < j < |options| ==> DownloadName(job, options[i]) != DownloadName(job, options[j]))
  {
    var options := OptionsFor(job);
    var stem := Stem(job.fileName);
    OptionsDistinct(job);
    OptionFormats(job);
    forall o | o in options
      ensures DownloadName(job, o) == stem + "_" + o.format + "." + o.fileExtension
    {
      NameOf(job, o);
    }
    forall i, j | 0 <= i < j < |options|
      ensures DownloadName(job, options[i]) != DownloadName(job, options[j])
    {
      var a, b := options[i], options[j];
      assert a in options && b in options;
      NameOf(job, a);
      NameOf(job, b);
      NamesDiffer(stem, a.format, a.fileExtension, b.format, b.fileExtension);
    }
  }

  /** The pieces of every agent in turn, each rendered from the agent's id
      and the entries of its results; None when an agent's results make
      `Object.entries` throw. Both text exports walk the agents this way. */
  function Gather(agents: Dict, render: (string, Dict) -> seq<string>): Option<seq<string>> {
    if agents == [] then Some([])
    else match Entries(agents[0].1)
      case None => None
      case Some(metrics) =>
        match Gather(agents[1..], render)
        case None => None
        case Some(rest) => Some(render(agents[0].0, metrics) + rest)
  }

  /** One more agent renders after the agents before it. */
  lemma {:induction false} GatherAppend(agents: Dict, a: (string, Json), render: (string, Dict) -> seq<string>)
    requires Gather(agents, render).Some? && Entries(a.1).Some?
    ensures Gather(agents + [a], render) == Some(Gather(agents, render).value + render(a.0, Entries(a.1).value))
  {
    if agents == [] {
      var last := render(a.0, Entries(a.1).value);
      assert [a][1..] == [];
      assert agents + [a] == [a];
      assert Gather([a], render) == Some(last + []);
      assert last + [] == [] + last;
    } else {
      var b := agents + [a];
      assert b[0] == agents[0] && b[1..] == agents[1..] + [a];
      GatherAppend(agents[1..], a, render);
      var first := render(agents[0].0, Entries(agents[0].1).value);
      var rest := Gather(agents[1..], render).value;
      var last := render(a.0, Entries(a.1).value);
      assert Gather(b, render) == Some(first + (rest + last));
      assert first + (rest + last) == (first + rest) + last;
    }
  }

  /** One agent whose results have no entries makes the whole walk throw. */
  lemma {:induction false} GatherFail(agents: Dict, k: nat, render: (string, Dict) -> seq<string>)
    requires k < |agents| && Entries(agents[k].1).None?
    ensures Gather(agents, render).None?
  {
    if k > 0 {
      GatherFail(agents[1..], k - 1, render);
    }
  }

  /** The walk over a prefix, one agent at a time. */
  lemma GatherStep(agents: Dict, a: nat, render: (string, Dict) -> seq<string>)
    requires a < |agents| && Gather(agents[..a], render).Some? && Entries(agents[a].1).Some?
    ensures Gather(agents[..a + 1], render)
            == Some(Gather(agents[..a], render).value + render(agents[a].0, Entries(agents[a].1).value))
  {
    GatherAppend(agents[..a], agents[a], render);
    assert agents[..a + 1] == agents[..a] + [agents[a]];
  }

  /** The forEach over the agents of both text exports: each agent's pieces
      appended to the text in turn; an agent whose results have no entries
      throws. */
  method AppendGathered(text: string, agents: Dict, render: (string, Dict) -> seq<string>) returns (r: Option<string>)
    ensures r == (if Gather(agents, render).Some? then Some(text + Concat(Gather(agents, render).value)) else None)
  {
    var t := text;
    ghost var pieces: seq<string> := [];
    assert agents[..0] == [] && t == text + Concat(pieces);
    for a := 0 to |agents|
      invariant Gather(agents[..a], render) == Some(pieces)
      invariant t == text + Concat(pieces)
    {
      var entries := Entries(agents[a].1);
      if entries.None? {
        GatherFail(agents, a, render);
        return None;
      }
      var lines := render(agents[a].0, entries.value);
      GatherStep(agents, a, render);
      ConcatSplit(pieces, lines);
      t := AppendLines(t, lines);
      pieces := pieces + lines;
    }
    assert agents[..|agents|] == agents;
    r := Some(t);
  }

  /** `Metadata,Job ID,…` and the other job lines of the CSV export. */
  function JobLines(job: ProcessingJob): seq<string> {
    [MetaLine("Job ID", job.id), MetaLine("File Name", job.fileName), MetaLine("File Type", job.fileType),
     MetaLine("Status", StatusName(job.status)), MetaLine("Progress", IntToString(job.progress) + "%")]
  }

  /** One line per metric: `agentId,key,value`. */
  function MetricLines(agentId: string, metrics: Dict): (lines: seq<string>)
    ensures |lines| == |metrics|
  {
    if metrics == [] then [] else [agentId + "," + metrics[0].0 + "," + JsString(metrics[0].1) + "\n"] + MetricLines(agentId, metrics[1..])
  }

  /** The metric lines of every agent in turn; None when an agent's results
      make `Object.entries` throw. */
  function ResultLines(agents: Dict): Option<seq<string>> {
    Gather(agents, MetricLines)
  }

  /** The number of (agent, metric) pairs. */
  function PairCount(agents: Dict): nat
    requires ResultLines(agents).Some?
  {
    if agents == [] then 0 else |Entries(agents[0].1).value| + PairCount(agents[1..])
  }

  lemma {:induction false} ResultLinesCount(agents: Dict)
    requires ResultLines(agents).Some?
    ensures |ResultLines(agents).value| == PairCount(agents)
  {
    if agents != [] {
      ResultLinesCount(agents[1..]);
    }
  }

  /** The CSV export of a job, line by line. */
  function CsvLines(job: ProcessingJob): Option<seq<string>> {
    match ResultLines(job.results)
    case None => None
    case Some(lines) => Some(["Agent,Metric,Value\n"] + JobLines(job) + lines)
  }

  /** The CSV export is the header line, five job lines, then one line per
      (agent, metric) pair. */
  lemma CsvShape(job: ProcessingJob)
    requires CsvLines(job).Some?
    ensures var lines := CsvLines(job).value;
      && |lines| == 6 + PairCount(job.results)
      && lines[0] == "Agent,Metric,Value\n"
      && (forall i :: 1 <= i < 6 ==> "Metadata," <= lines[i])
      && lines[6..] == ResultLines(job.results).value
  {
    ResultLinesCount(job.results);
    var lines := CsvLines(job).value;
    assert lines[6..] == ResultLines(job.results).value;
  }

  /** The CSV text accumulated by the forEach loops. */
  method GenerateCsv(job: ProcessingJob) returns (csv: Option<string>)
    ensures csv == (if CsvLines(job).Some? then Some(Concat(CsvLines(job).value)) else None)
  {
    var head := ["Agent,Metric,Value\n"] + JobLines(job);
    csv := AppendGathered(Concat(head), job.results, MetricLines);
    if csv.Some? {
      ConcatSplit(head, ResultLines(job.results).value);
    }
  }

  /** The opening line of an agent's element in the XML export. */
  function AgentOpening(agentId: string): string {
    AgentPrefix + agentId + "\">\n"
  }

  /** What every agent element's opening line starts with. */
  const AgentPrefix: string := "    <Agent id=\""

  const AgentClosing: string := "    </Agent>\n"

  /** One element per metric: `<key>value</key>`. */
  function MetricElements(metrics: Dict): (lines: seq<string>)
    ensures |lines| == |metrics|
  {
    if metrics == [] then []
    else ["      <" + metrics[0].0 + ">" + JsString(metrics[0].1) + "</" + metrics[0].0 + ">\n"] + MetricElements(metrics[1..])
  }

  /** The lines of an agent's element. */
  function AgentElement(agentId: string, metrics: Dict): seq<string> {
    [AgentOpening(agentId)] + MetricElements(metrics) + [AgentClosing]
  }

  /** The elements of every agent in turn; None when `Object.entries` throws. */
  function AgentElements(agents: Dict): Option<seq<string>> {
    Gather(agents, AgentElement)
  }

  const XmlDeclaration: string := "<?xml version=\"1.0\" encoding=\"UTF-8\"?>\n"

  function XmlHead(job: ProcessingJob): seq<string> {
    [XmlDeclaration + "<ProcessingResults>\n",
     "  <Job id=\"" + job.id + "\" fileName=\"" + job.fileName + "\" fileType=\"" + job.fileType + "\" status=\""
       + StatusName(job.status) + "\" progress=\"" + IntToString(job.progress) + "\"/>\n",
     "  <Results>\n"]
  }

  function XmlTail(now: string): seq<string> {
    ["  </Results>\n", "  <Metadata downloadedAt=\"" + now + "\" format=\"XML\"/>\n", "</ProcessingResults>"]
  }

  /** generateXML, piece by piece; `now` is the ISO time of the download. */
  function XmlPieces(job: ProcessingJob, now: string): Option<seq<string>> {
    match AgentElements(job.results)
    case None => None
    case Some(elements) => Some(XmlHead(job) + elements + XmlTail(now))
  }

  lemma {:induction false} NoMetricOpenings(metrics: Dict)
    ensures CountStarting(MetricElements(metrics), AgentPrefix) == 0
  {
    if metrics != [] {
      var line := MetricElements(metrics)[0];
      assert line[4] == ' ';
      NoMetricOpenings(metrics[1..]);
    }
  }

  lemma {:induction false} AgentOpenings(agents: Dict)
    requires AgentElements(agents).Some?
    ensures CountStarting(AgentElements(agents).value, AgentPrefix) == |agents|
  {
    if agents != [] {
      var metrics := Entries(agents[0].1).value;
      AgentOpenings(agents[1..]);
      NoMetricOpenings(metrics);
      var opening := AgentOpening(agents[0].0);
      assert AgentPrefix <= opening;
      assert CountStarting([opening], AgentPrefix) == 1;
      assert AgentClosing[5] == '/';
      assert CountStarting([AgentClosing], AgentPrefix) == 0;
      CountStartingAppend([opening], MetricElements(metrics), AgentPrefix);
      CountStartingAppend([opening] + MetricElements(metrics), [AgentClosing], AgentPrefix);
      CountStartingAppend(AgentElement(agents[0].0, metrics), AgentElements(agents[1..]).value, AgentPrefix);
    }
  }

  /** The XML export opens exactly one `<Agent>` element per results entry. */
  lemma XmlAgentCount(job: ProcessingJob, now: string)
    requires XmlPieces(job, now).Some?
    ensures CountStarting(XmlPieces(job, now).value, AgentPrefix) == |job.results|
  {
    var head := XmlHead(job);
    var elements := AgentElements(job.results).value;
    var tail := XmlTail(now);
    AgentOpenings(job.results);
    HeadOpenings(job);
    TailOpenings(now);
    CountStartingAppend(head, elements, AgentPrefix);
    CountStartingAppend(head + elements, tail, AgentPrefix);
  }

  /** No line of the document head opens an agent element. */
  lemma HeadOpenings(job: ProcessingJob)
    ensures CountStarting(XmlHead(job), AgentPrefix) == 0
  {
    var head := XmlHead(job);
    assert head[0][2] == 'x';
    assert head[1][3] == 'J';
    assert head[2][3] == 'R';
    NoneStarting(head, AgentPrefix);
  }

  /** No line of the document tail opens an agent element. */
  lemma TailOpenings(now: string)
    ensures CountStarting(XmlTail(now), AgentPrefix) == 0
  {
    var tail := XmlTail(now);
    assert tail[0][3] == '/';
    assert tail[1][3] == 'M';
    assert tail[2][1] == '/';
    NoneStarting(tail, AgentPrefix);
  }

  method GenerateXml(job: ProcessingJob, now: string) returns (xml: Option<string>)
    ensures xml == (if XmlPieces(job, now).Some? then Some(Concat(XmlPieces(job, now).value)) else None)
  {
    var head := XmlHead(job);
    var body := AppendGathered(Concat(head), job.results, AgentElement);
    if body.None? {
      return None;
    }
    var tail := XmlTail(now);
    var text := AppendLines(body.value, tail);
    ghost var elements := AgentElements(job.results).value;
    ConcatSplit(head, elements);
    ConcatSplit(head + elements, tail);
    xml := Some(text);
  }

  // ---------------------------------------------------------------------------
  // handleDownload

  /** What a download holds: media bytes, the WAV buffer (its header and its
      length), the canvas storyboard (not modelled), text, or a JSON value
      (its serialisation is not modelled). */
  datatype Content =
    | MediaBytes(bytes: seq<byte>)
    | WavBuffer(header: seq<byte>, length: nat)
    | StoryboardCanvas
    | PlainText(text: string)
    | JsonValue(value: Json)

  /** A saved file: its name, the type of the Blob handed to the anchor, and
      its content. */
  datatype Download = Download(fileName: string, mimeType: string, content: Content)

  /** The type of the Blob generateEnhancedMediaFile builds, which is the one
      saved, whatever type the option declares: the audio is always a WAV. */
  function MediaType(format: string): string {
    if format == "storyboard" || format == "enhanced_image" then "image/png"
    else if format == "enhanced_video" then "video/mp4"
    else if format == "enhanced_audio" then "audio/wav"
    else "text/plain"
  }

  /** generateEnhancedMediaFile and generateSourceFile. */
  function MediaFile(format: string): Content {
    if format == "storyboard" then StoryboardCanvas
    else if format == "enhanced_video" then MediaBytes(Mp4File)
    else if format == "enhanced_audio" then WavBuffer(WavHeader(), 44 + DataSize)
    else if format == "enhanced_image" then MediaBytes(PngFile)
    else PlainText("Unknown file format")
  }

  /** generateCompletePackage; `sizeMb` stands for the random size estimate. */
  function PackageText(job: ProcessingJob, sizeMb: int, now: string): string {
    "Complete Package for: " + job.fileName + "\nJob ID: " + job.id
    + "\n\nThis package would contain:\n1. Enhanced source files (video/audio/image)\n2. Processing data (JSON, CSV, XML)\n"
    + "3. Storyboard files (if applicable)\n4. Processing reports\n5. Metadata and logs\n\nTotal estimated size: "
    + IntToString(sizeMb) + " MB\n\nGenerated: " + now + "\n"
  }

  /** The JSON data export. */
  function JsonExport(job: ProcessingJob, now: string): Json {
    JObj([("job", JObj([("id", JStr(job.id)), ("fileName", JStr(job.fileName)), ("fileType", JStr(job.fileType)),
                        ("status", JStr(StatusName(job.status))), ("progress", JNum(job.progress))])),
          ("results", JObj(job.results)),
          ("metadata", JObj([("downloadedAt", JStr(now)), ("format", JStr("JSON")), ("version", JStr("2.0"))]))])
  }

  const DownloadFailed: string := "Download failed. Please try again."

  /** handleDownload: the file saved for an option, or the alert shown when
      generating its content throws. */
  function DownloadFor(job: ProcessingJob, option: DownloadOption, now: string, sizeMb: int): Result<Download, string> {
    var name := DownloadName(job, option);
    if option.category == Source then Ok(Download(name, MediaType(option.format), MediaFile(option.format)))
    else if option.format == "complete_package" then Ok(Download(name, "text/plain", PlainText(PackageText(job, sizeMb, now))))
    else if option.format == "json" then Ok(Download(name, option.mimeType, JsonValue(JsonExport(job, now))))
    else if option.format == "csv" then
      match CsvLines(job)
      case None => Err(DownloadFailed)
      case Some(lines) => Ok(Download(name, option.mimeType, PlainText(Concat(lines))))
    else if option.format == "xml" then
      match XmlPieces(job, now)
      case None => Err(DownloadFailed)
      case Some(pieces) => Ok(Download(name, option.mimeType, PlainText(Concat(pieces))))
    else Ok(Download(name, option.mimeType, JsonValue(JObj(job.results))))
  }

  /** Only the CSV and XML exports can fail: a source file is always saved,
      and a failed download shows the alert. */
  lemma DownloadAlert(job: ProcessingJob, option: DownloadOption, now: string, sizeMb: int)
    ensures var r := DownloadFor(job, option, now, sizeMb);
      (r.Err? ==> r.error == DownloadFailed && option.category != Source) && (option.category == Source ==> r.Ok?)
  { }

  /** A data export fails exactly when its text cannot be built. */
  lemma DownloadFails(job: ProcessingJob, option: DownloadOption, now: string, sizeMb: int)
    requires option.category != Source
    ensures DownloadFor(job, option, now, sizeMb).Err? <==>
              (option.format == "csv" && CsvLines(job).None?) || (option.format == "xml" && XmlPieces(job, now).None?)
  {
    var csv, xml := option.format == "csv", option.format == "xml";
    if option.format == "complete_package" || option.format == "json" {
      assert !csv && !xml;
    } else if csv {
      assert !xml;
    }
  }

  /** Every saved download has its option's file name. */
  lemma DownloadNamed(job: ProcessingJob, option: DownloadOption, now: string, sizeMb: int)
    ensures var r := DownloadFor(job, option, now, sizeMb); r.Ok? ==> r.value.fileName == DownloadName(job, option)
  { }

  /** A source file and the package are Blobs already and keep their own
      type; text and JSON are wrapped in a Blob of the option's type. */
  lemma DownloadTyped(job: ProcessingJob, option: DownloadOption, now: string, sizeMb: int)
    ensures var r := DownloadFor(job, option, now, sizeMb);
      r.Ok? ==> r.value.mimeType == (if option.category == Source then MediaType(option.format)
                                     else if option.format == "complete_package" then "text/plain"
                                     else option.mimeType)
  { }

  method HandleDownload(job: ProcessingJob, option: DownloadOption, now: string, sizeMb: int) returns (r: Result<Download, string>)
    ensures r == DownloadFor(job, option, now, sizeMb)
  {
    var name := DownloadName(job, option);
    if option.category == Source {
      var content: Content;
      if option.format == "enhanced_audio" {
        var buf := GenerateWav();
        content := WavBuffer(buf[..44], buf.Length);
      } else {
        content := MediaFile(option.format);
      }
      return Ok(Download(name, MediaType(option.format), content));
    }
    if option.format == "complete_package" {
      return Ok(Download(name, "text/plain", PlainText(PackageText(job, sizeMb, now))));
    }
    if option.format == "json" {
      return Ok(Download(name, option.mimeType, JsonValue(JsonExport(job, now))));
    } else if option.format == "csv" {
      var csv := GenerateCsv(job);
      if csv.None? {
        return Err(DownloadFailed);
      }
      return Ok(Download(name, option.mimeType, PlainText(csv.value)));
    } else if option.format == "xml" {
      var xml := GenerateXml(job, now);
      if xml.None? {
        return Err(DownloadFailed);
      }
      return Ok(Download(name, option.mimeType, PlainText(xml.value)));
    }
    r := Ok(Download(name, option.mimeType, JsonValue(JObj(job.results))));
  }
}
