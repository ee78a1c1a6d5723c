/** Compression configuration metadata (Sources/Core/Processing/CompressionModels.swift):
    the four output formats with their names and file extensions, the
    quality presets with their bitrates, the configuration record, the
    lossy-encoder configuration, and the statistics snapshot produced at
    finalisation. Floating-point fields are reals; dates are seconds. */
module CompressionModels {
  import opened Ints
  import opened Wrappers

  datatype Format = Aac | Mp3 | Alac | Uncompressed

  predicate IsLossy(f: Format) {
    f == Aac || f == Mp3
  }

  function DisplayName(f: Format): string {
    match f
    case Aac => "AAC"
    case Mp3 => "MP3"
    case Alac => "ALAC (Lossless)"
    case Uncompressed => "Uncompressed"
  }

  function FileExtension(f: Format): string {
    match f
    case Aac => "m4a"
    case Mp3 => "mp3"
    case Alac => "m4a"
    case Uncompressed => "caf"
  }

  datatype Quality = Low | Medium | High | Maximum

  /** Nominal bitrate of a preset, in kbps. */
  function QualityBitrate(q: Quality): UInt32 {
    match q
    case Low => 64
    case Medium => 128
    case High => 192
    case Maximum => 256
  }

  /** Preset position, for stating that bitrates follow the preset order. */
  function QualityRank(q: Quality): nat {
    match q
    case Low => 0
    case Medium => 1
    case High => 2
    case Maximum => 3
  }

  datatype CompressionConfiguration = CompressionConfiguration(
    format: Format,
    bitrate: UInt32,
    quality: Option<Quality>,
    enableVBR: bool,
    sampleRate: real,
    channelCount: UInt32,
    enableMultiChannel: bool)

  datatype LossyFormat = LossyAac | LossyMp3

  /** `AVAudioQuality`, with its raw values. */
  datatype AudioQuality = QualityMin | QualityLow | QualityMedium | QualityHigh | QualityMax {
    function RawValue(): int {
      match this
      case QualityMin => 0
      case QualityLow => 0x20
      case QualityMedium => 0x40
      case QualityHigh => 0x60
      case QualityMax => 0x7F
    }
  }

  datatype LossyCompressionConfiguration = LossyCompressionConfiguration(
    format: LossyFormat,
    bitrate: UInt32,
    enableVBR: bool,
    sampleRate: real,
    channelCount: UInt32,
    quality: AudioQuality)

  /** The fields of `CompressionStatistics` the pipeline computes or checks.
      Session id, encoding speed, CPU and memory figures are left out. */
  datatype CompressionStatistics = CompressionStatistics(
    format: Format,
    startTime: real,
    endTime: real,
    duration: real,
    compressedSize: Int64,
    bitrate: UInt32,
    sampleRate: real,
    channelCount: UInt32,
    enabledVBR: bool,
    averageBitrate: Option<UInt32>,
    peakBitrate: Option<UInt32>)

  /** `isLossy` holds exactly for AAC and MP3, and `fileExtension` is the
      table aac/alac to m4a, mp3 to mp3, uncompressed to caf. */
  lemma FormatTable(f: Format)
    ensures IsLossy(f) <==> f in {Aac, Mp3}
    ensures FileExtension(f) == "m4a" <==> f == Aac || f == Alac
    ensures FileExtension(f) == "mp3" <==> f == Mp3
    ensures FileExtension(f) == "caf" <==> f == Uncompressed
  {
  }

  /** Different formats have different display names. */
  lemma DisplayNameInjective(f: Format, g: Format)
    requires DisplayName(f) == DisplayName(g)
    ensures f == g
  {
    assert DisplayName(f)[0] == DisplayName(g)[0];
    if f == Aac || g == Aac {
      assert DisplayName(f)[1] == DisplayName(g)[1];
    }
  }

  /** Preset bitrates rise strictly with the preset and all lie in the
      64..320 kbps band that lossy validation accepts. */
  lemma QualityBitrateMonotone(p: Quality, q: Quality)
    ensures 64 <= QualityBitrate(p) <= 320
    ensures QualityRank(p) < QualityRank(q) <==> QualityBitrate(p) < QualityBitrate(q)
    ensures QualityBitrate(p) == QualityBitrate(q) ==> p == q
  {
  }
}
