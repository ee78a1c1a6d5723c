/** The MP3 encoder (Sources/Core/Processing/MP3Encoder.swift): it accepts
    a constant-bitrate MP3 configuration with one or two channels, builds
    the MPEG Layer 3 settings, estimates file sizes, and echoes its
    configuration into the statistics at finalisation. The state and the
    platform file I/O are modelled as for the AAC encoder. */
module Mp3Encoder {
  import opened Ints
  import opened Wrappers
  import opened CompressionModels
  import opened AudioSettings
  import Errors

  datatype Mp3State = Mp3State(
    configuration: Option<LossyCompressionConfiguration>,
    fileOpen: bool,
    lastSettings: Settings,
    written: seq<seq<real>>)

  const FRESH: Mp3State := Mp3State(None, false, map[], [])

  const MAX_CHANNELS: UInt32 := 2

  /** `initialize(configuration:)`: format first, then the channel count,
      then VBR; on failure the encoder is left as it was. */
  function Initialize(e: Mp3State, cfg: LossyCompressionConfiguration): (r: Result<Mp3State, Errors.AudioRecorderError>)
    ensures r.Success? <==> cfg.format == LossyMp3 && 1 <= cfg.channelCount <= MAX_CHANNELS && !cfg.enableVBR
    ensures r.Success? ==> r.value == e.(configuration := Some(cfg))
    ensures r.Failure? ==> r.error == Errors.CompressionConfigurationInvalid(
      if cfg.format != LossyMp3 then Errors.EncoderRequiresMp3
      else if !(1 <= cfg.channelCount <= 2) then Errors.Mp3MonoOrStereoOnly
      else Errors.Mp3VbrNotSupported)
  {
    if cfg.format != LossyMp3 then Failure(Errors.CompressionConfigurationInvalid(Errors.EncoderRequiresMp3))
    else if !(cfg.channelCount >= 1 && cfg.channelCount <= 2) then
      Failure(Errors.CompressionConfigurationInvalid(Errors.Mp3MonoOrStereoOnly))
    else if cfg.enableVBR then Failure(Errors.CompressionConfigurationInvalid(Errors.Mp3VbrNotSupported))
    else Success(e.(configuration := Some(cfg)))
  }

  /** `createMP3Settings`: never more than two channels. */
  function CreateSettings(bitrate: UInt32, sampleRate: real, channelCount: UInt32): (s: Settings)
    ensures s.Keys == {FormatIDKey, NumberOfChannelsKey, SampleRateKey, EncoderBitRateKey,
                       EncoderAudioQualityKey, SampleRateConverterAudioQualityKey}
    ensures s[FormatIDKey] == FormatValue(MPEGLayer3)
    ensures s[NumberOfChannelsKey] == IntValue(Min(channelCount, 2))
    ensures 0 <= s[NumberOfChannelsKey].intValue <= MAX_CHANNELS
    ensures channelCount <= 2 ==> s[NumberOfChannelsKey] == IntValue(channelCount)
    ensures s[SampleRateKey] == RealValue(sampleRate)
    ensures s[EncoderBitRateKey] == IntValue(bitrate * 1000)
    ensures s[EncoderAudioQualityKey] == IntValue(QualityHigh.RawValue())
    ensures s[SampleRateConverterAudioQualityKey] == IntValue(QualityMax.RawValue())
  {
    var channels := Min(channelCount, 2);
    map[
      FormatIDKey := FormatValue(MPEGLayer3),
      NumberOfChannelsKey := IntValue(channels),
      SampleRateKey := RealValue(sampleRate),
      EncoderBitRateKey := IntValue(bitrate * 1000),
      EncoderAudioQualityKey := IntValue(QualityHigh.RawValue()),
      SampleRateConverterAudioQualityKey := IntValue(QualityMax.RawValue())]
  }

  /** `createAudioFile(at:format:)`: the settings are recorded before the
      open, so they stay recorded when it fails; a failure to open the file
      is reported as `compressionNotSupported`. A successful open replaces
      the current file by a new, empty one. */
  function CreateAudioFile(e: Mp3State, fileOk: bool): (r: Attempt<Mp3State, Errors.AudioRecorderError>)
    ensures e.configuration.None? ==>
      r == Attempt(e, Some(Errors.CompressionConfigurationInvalid(Errors.EncoderNotInitialized)))
    ensures e.configuration.Some? && !fileOk ==>
      r.thrown == Some(Errors.CompressionNotSupported(Errors.Mp3WritingNotSupported))
    ensures r.thrown.None? <==> e.configuration.Some? && fileOk
    ensures r.after.configuration == e.configuration
    ensures r.thrown.Some? ==> r.after.written == e.written
    ensures r.thrown.None? ==> r.after.written == []
    ensures r.after.fileOpen == (e.fileOpen || r.thrown.None?)
    ensures e.configuration.Some? ==>
      r.after.lastSettings == CreateSettings(e.configuration.value.bitrate, e.configuration.value.sampleRate,
                                             e.configuration.value.channelCount)
  {
    match e.configuration
    case None => Attempt(e, Some(Errors.CompressionConfigurationInvalid(Errors.EncoderNotInitialized)))
    case Some(cfg) =>
      var e1 := e.(lastSettings := CreateSettings(cfg.bitrate, cfg.sampleRate, cfg.channelCount));
      if !fileOk then Attempt(e1, Some(Errors.CompressionNotSupported(Errors.Mp3WritingNotSupported)))
      else Attempt(e1.(fileOpen := true, written := []), None)
  }

  /** `encode(buffer:)`. */
  function Encode(e: Mp3State, samples: seq<real>): (r: Result<Mp3State, Errors.AudioRecorderError>)
    ensures r.Failure? <==> !e.fileOpen
    ensures r.Failure? ==> r.error == Errors.CompressionConfigurationInvalid(Errors.AudioFileNotCreated)
    ensures r.Success? ==> r.value == e.(written := e.written + [samples])
  {
    if !e.fileOpen then Failure(Errors.CompressionConfigurationInvalid(Errors.AudioFileNotCreated))
    else Success(e.(written := e.written + [samples]))
  }

  /** `finalize()`: the configuration echoed with no average or peak
      bitrate. Both dates are the clock reading `now`, so the duration and
      the compressed size are zero. */
  function Finalize(e: Mp3State, now: real): (r: Result<CompressionStatistics, Errors.AudioRecorderError>)
    ensures r.Failure? <==> e.configuration.None?
    ensures r.Failure? ==> r.error == Errors.CompressionConfigurationInvalid(Errors.MissingConfig)
    ensures r.Success? ==>
      var cfg := e.configuration.value;
      && r.value.format == Mp3
      && r.value.bitrate == cfg.bitrate && r.value.sampleRate == cfg.sampleRate
      && r.value.channelCount == cfg.channelCount && r.value.enabledVBR == cfg.enableVBR
      && r.value.averageBitrate.None? && r.value.peakBitrate.None?
      && r.value.duration == 0.0 && r.value.compressedSize == 0
  {
    match e.configuration
    case None => Failure(Errors.CompressionConfigurationInvalid(Errors.MissingConfig))
    case Some(cfg) =>
      Success(CompressionStatistics(
        Mp3, now, now, 0.0, 0,
        cfg.bitrate, cfg.sampleRate, cfg.channelCount, cfg.enableVBR, None, None))
  }

  /** `getEstimatedFileSize(for:)`: 0 when unconfigured, whatever the
      duration; otherwise with the same `Int64` traps excluded as for the
      AAC encoder. */
  function EstimatedFileSize(e: Mp3State, duration: real): (r: Int64)
    requires e.configuration.Some? ==> -INT64_LIMIT <= Trunc(duration) < INT64_LIMIT
    requires e.configuration.Some? ==>
      -INT64_LIMIT <= Trunc(duration) * (e.configuration.value.bitrate * 125) < INT64_LIMIT
    ensures e.configuration.None? ==> r == 0
    ensures e.configuration.Some? ==> r == Trunc(duration) * e.configuration.value.bitrate * 1000 / 8
  {
    match e.configuration
    case None => 0
    case Some(cfg) =>
      var bitsPerSecond := cfg.bitrate * 1000;
      var bytesPerSecond := bitsPerSecond / 8;
      Trunc(duration) * bytesPerSecond
  }

  function SupportsMultiChannel(): bool {
    false
  }

  function MaximumChannelCount(): UInt32 {
    MAX_CHANNELS
  }

  /** The advertised limits are the ones `initialize` enforces. */
  lemma CapabilitiesMatchInitialize(e: Mp3State, cfg: LossyCompressionConfiguration)
    requires cfg.format == LossyMp3 && !cfg.enableVBR
    ensures Initialize(e, cfg).Success? <==> 1 <= cfg.channelCount <= MaximumChannelCount()
    ensures SupportsMultiChannel() <==> MaximumChannelCount() > 2
  {
  }

  /** Settings built from an accepted configuration carry its channel count
      unchanged. */
  lemma InitializedSettingsKeepChannels(e: Mp3State, cfg: LossyCompressionConfiguration)
    requires Initialize(e, cfg).Success?
    ensures CreateSettings(cfg.bitrate, cfg.sampleRate, cfg.channelCount)[NumberOfChannelsKey]
         == IntValue(cfg.channelCount)
  {
  }

  /** A failed open leaves the settings recorded, and a retry that opens
      the file ends exactly where a first successful open does. */
  lemma RetryAfterFailedOpen(e: Mp3State)
    requires e.configuration.Some?
    ensures var failed := CreateAudioFile(e, false).after;
      && failed.lastSettings == CreateAudioFile(e, true).after.lastSettings
      && CreateAudioFile(failed, true) == CreateAudioFile(e, true)
  {
  }

  /** Writes go to the file of the latest successful open only. */
  lemma ReopenStartsEmptyFile(e: Mp3State, x: seq<real>, y: seq<real>)
    requires e.configuration.Some?
    ensures var e1 := CreateAudioFile(e, true).after;
      && Encode(e1, x).Success?
      && var e2 := CreateAudioFile(Encode(e1, x).value, true).after;
      && Encode(e2, y).Success?
      && Encode(e2, y).value.written == [y]
  {
  }
}
