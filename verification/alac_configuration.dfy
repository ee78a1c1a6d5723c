/** Apple Lossless settings (Sources/Core/Processing/ALACConfiguration.swift):
    a configuration with defaults, its validation against the ALAC limits,
    the file settings built from a validated configuration, and the
    interleaved 16-bit PCM client format that feeds the encoder. Building
    an `AVAudioFormat` from the settings is left to the platform. */
module AlacConfiguration {
  import opened Ints
  import opened Wrappers
  import opened CompressionModels
  import opened AudioSettings

  datatype AlacConfig = AlacConfig(sampleRate: real, channelCount: UInt32, bitDepth: int, quality: AudioQuality)

  /** `init()` with every default: 48 kHz stereo, 16 bits, maximum quality. */
  const DEFAULT: AlacConfig := AlacConfig(48000.0, 2, 16, QualityMax)

  datatype AlacValidationError =
    | UnsupportedChannelCount(channels: UInt32)
    | UnsupportedSampleRate(rate: real)
    | UnsupportedBitDepth(depth: int)

  /** The ALAC limits: one to eight channels, 8 to 192 kHz, 16 or 24 bits. */
  predicate Supported(config: AlacConfig) {
    && 1 <= config.channelCount <= 8
    && 8000.0 <= config.sampleRate <= 192000.0
    && (config.bitDepth == 16 || config.bitDepth == 24)
  }

  /** `validate(_:)`: the channel count is checked first, then the sample
      rate, then the bit depth; a valid configuration comes back as it is. */
  function Validate(config: AlacConfig): (r: Result<AlacConfig, AlacValidationError>)
    ensures r.Success? <==> Supported(config)
    ensures r.Success? ==> r.value == config
    ensures !(1 <= config.channelCount <= 8) ==> r == Failure(UnsupportedChannelCount(config.channelCount))
    ensures 1 <= config.channelCount <= 8 && !(8000.0 <= config.sampleRate <= 192000.0) ==>
      r == Failure(UnsupportedSampleRate(config.sampleRate))
    ensures r.Failure? && r.error.UnsupportedBitDepth? ==>
      1 <= config.channelCount <= 8 && 8000.0 <= config.sampleRate <= 192000.0 && r.error.depth == config.bitDepth
  {
    if !(config.channelCount >= 1 && config.channelCount <= 8) then
      Failure(UnsupportedChannelCount(config.channelCount))
    else if !(config.sampleRate >= 8000.0 && config.sampleRate <= 192000.0) then
      Failure(UnsupportedSampleRate(config.sampleRate))
    else if !(config.bitDepth == 16 || config.bitDepth == 24) then
      Failure(UnsupportedBitDepth(config.bitDepth))
    else Success(config)
  }

  /** `alacSettings(for:)`: the settings for a validated configuration,
      carrying its channel count, rate, bit depth and quality. */
  function AlacSettings(config: AlacConfig): (r: Result<Settings, AlacValidationError>)
    ensures r.Success? <==> Supported(config)
    ensures r.Failure? ==> r == Failure(Validate(config).error)
    ensures r.Success? ==>
      && r.value.Keys == {FormatIDKey, NumberOfChannelsKey, SampleRateKey, EncoderBitDepthHintKey,
                          EncoderAudioQualityKey, SampleRateConverterAudioQualityKey}
      && r.value[FormatIDKey] == FormatValue(AppleLossless)
  {
    var cfg :- Validate(config);
    Success(map[
      FormatIDKey := FormatValue(AppleLossless),
      NumberOfChannelsKey := IntValue(cfg.channelCount),
      SampleRateKey := RealValue(cfg.sampleRate),
      EncoderBitDepthHintKey := IntValue(cfg.bitDepth),
      EncoderAudioQualityKey := IntValue(cfg.quality.RawValue()),
      SampleRateConverterAudioQualityKey := IntValue(cfg.quality.RawValue())])
  }

  /** `alacFormat(for:)` up to the platform call: the settings it would
      hand to `AVAudioFormat(settings:)`, or nothing when validation fails. */
  function AlacFormatSettings(config: AlacConfig): (r: Option<Settings>)
    ensures r.Some? <==> Supported(config)
    ensures r.Some? ==> r.value == AlacSettings(config).value
  {
    match AlacSettings(config)
    case Success(s) => Some(s)
    case Failure(_) => None
  }

  datatype CommonFormat = PcmFormatInt16

  datatype PcmFormat = PcmFormat(commonFormat: CommonFormat, sampleRate: real, channels: UInt32, interleaved: bool)

  /** `pcmClientFormat(for:)`: interleaved 16-bit integer PCM at the
      configuration's rate and channel count. */
  function PcmClientFormat(config: AlacConfig): (r: Result<PcmFormat, AlacValidationError>)
    ensures r.Success? <==> Supported(config)
    ensures r.Failure? ==> r.error == Validate(config).error
    ensures r.Success? ==>
      && r.value.commonFormat == PcmFormatInt16 && r.value.interleaved
      && r.value.sampleRate == config.sampleRate && r.value.channels == config.channelCount
  {
    var cfg :- Validate(config);
    Success(PcmFormat(PcmFormatInt16, cfg.sampleRate, cfg.channelCount, true))
  }

  function QualityOfRaw(raw: int): Option<AudioQuality> {
    if raw == QualityMin.RawValue() then Some(QualityMin)
    else if raw == QualityLow.RawValue() then Some(QualityLow)
    else if raw == QualityMedium.RawValue() then Some(QualityMedium)
    else if raw == QualityHigh.RawValue() then Some(QualityHigh)
    else if raw == QualityMax.RawValue() then Some(QualityMax)
    else None
  }

  /** Reads a configuration back out of ALAC settings. */
  function ConfigOfSettings(s: Settings): Option<AlacConfig> {
    if NumberOfChannelsKey in s && s[NumberOfChannelsKey].IntValue?
       && 0 <= s[NumberOfChannelsKey].intValue < UINT32_LIMIT
       && SampleRateKey in s && s[SampleRateKey].RealValue?
       && EncoderBitDepthHintKey in s && s[EncoderBitDepthHintKey].IntValue?
       && EncoderAudioQualityKey in s && s[EncoderAudioQualityKey].IntValue?
       && QualityOfRaw(s[EncoderAudioQualityKey].intValue).Some?
    then Some(AlacConfig(s[SampleRateKey].realValue, s[NumberOfChannelsKey].intValue,
                         s[EncoderBitDepthHintKey].intValue, QualityOfRaw(s[EncoderAudioQualityKey].intValue).value))
    else None
  }

  // ------------------------------------------------------------- properties

  /** The default configuration is accepted. */
  lemma DefaultSupported()
    ensures Validate(DEFAULT) == Success(DEFAULT)
  {
  }

  /** The settings lose nothing: the configuration can be read back from
      them, and both quality keys carry the same quality. */
  lemma SettingsRoundTrip(config: AlacConfig)
    requires Supported(config)
    ensures ConfigOfSettings(AlacSettings(config).value) == Some(config)
    ensures AlacSettings(config).value[EncoderAudioQualityKey]
         == AlacSettings(config).value[SampleRateConverterAudioQualityKey]
  {
    var q := config.quality;
    assert QualityOfRaw(q.RawValue()) == Some(q);
  }

  /** Validation, the settings and the client format agree on which
      configurations are usable. */
  lemma BuildersAgree(config: AlacConfig)
    ensures Validate(config).Success? <==> AlacSettings(config).Success?
    ensures AlacSettings(config).Success? <==> PcmClientFormat(config).Success?
    ensures AlacFormatSettings(config).None? <==> Validate(config).Failure?
  {
  }

  /** Concrete rejections, one per limit, in the order they are checked:
      nine channels at an unsupported rate report the channels, a 4 kHz
      rate reports the rate, and 20 bits report the depth. */
  lemma ValidationOrderExamples()
    ensures Validate(AlacConfig(4000.0, 9, 20, QualityMax)) == Failure(UnsupportedChannelCount(9))
    ensures Validate(AlacConfig(4000.0, 2, 20, QualityMax)) == Failure(UnsupportedSampleRate(4000.0))
    ensures Validate(AlacConfig(44100.0, 2, 20, QualityMax)) == Failure(UnsupportedBitDepth(20))
    ensures Validate(AlacConfig(192000.0, 8, 24, QualityLow)).Success?
  {
  }
}
