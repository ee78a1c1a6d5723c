/** The AAC encoder (Sources/Core/Processing/AACEncoder.swift): it accepts
    an AAC configuration with 1..8 channels, builds the AVFoundation
    settings for constant or variable bitrate, estimates file sizes, and
    echoes its configuration into the statistics at finalisation.

    The encoder is a value: `configuration` is what `initialize` stored,
    `fileOpen` records whether `createAudioFile` succeeded, and `written`
    lists the buffers handed to the current file, in order: a successful
    `createAudioFile` replaces the file by a new, empty one. Opening and writing the
    file is platform I/O: whether the open succeeds is a parameter, and a
    write to an open file is taken to succeed. */
module AacEncoder {
  import opened Ints
  import opened Wrappers
  import opened CompressionModels
  import opened AudioSettings
  import Errors

  datatype AacState = AacState(
    configuration: Option<LossyCompressionConfiguration>,
    fileOpen: bool,
    lastSettings: Settings,
    written: seq<seq<real>>)

  const FRESH: AacState := AacState(None, false, map[], [])

  const MAX_CHANNELS: UInt32 := 8

  /** `initialize(configuration:)`: an AAC configuration with 1..8
      channels is stored; anything else is rejected and the encoder is left
      as it was. */
  function Initialize(e: AacState, cfg: LossyCompressionConfiguration): (r: Result<AacState, Errors.AudioRecorderError>)
    ensures r.Success? <==> cfg.format == LossyAac && 1 <= cfg.channelCount <= MAX_CHANNELS
    ensures r.Success? ==> r.value == e.(configuration := Some(cfg))
    ensures cfg.format != LossyAac ==> r == Failure(Errors.CompressionConfigurationInvalid(Errors.EncoderRequiresAac))
    ensures cfg.format == LossyAac && r.Failure? ==> r == Failure(Errors.CompressionConfigurationInvalid(Errors.AacChannelRange))
  {
    if cfg.format != LossyAac then Failure(Errors.CompressionConfigurationInvalid(Errors.EncoderRequiresAac))
    else if !(cfg.channelCount >= 1 && cfg.channelCount <= 8) then
      Failure(Errors.CompressionConfigurationInvalid(Errors.AacChannelRange))
    else Success(e.(configuration := Some(cfg)))
  }

  /** `avQualityForBitrate`: the VBR quality hint for a bitrate band. */
  function QualityForBitrate(bitrate: UInt32): AudioQuality {
    if bitrate <= 96 then QualityMedium
    else if bitrate <= 160 then QualityHigh
    else QualityMax
  }

  /** `createAACSettings`. */
  function CreateSettings(bitrate: UInt32, sampleRate: real, channelCount: UInt32, enableVBR: bool): (s: Settings)
    ensures s.Keys == {FormatIDKey, NumberOfChannelsKey, SampleRateKey, EncoderAudioQualityKey,
                       SampleRateConverterAudioQualityKey, EncoderBitRateStrategyKey,
                       if enableVBR then EncoderAudioQualityForVBRKey else EncoderBitRateKey}
    ensures s[FormatIDKey] == FormatValue(MPEG4AAC)
    ensures s[NumberOfChannelsKey] == IntValue(channelCount)
    ensures s[SampleRateKey] == RealValue(sampleRate)
    ensures s[EncoderAudioQualityKey] == IntValue(QualityHigh.RawValue())
    ensures s[SampleRateConverterAudioQualityKey] == IntValue(QualityMax.RawValue())
    ensures enableVBR ==>
      && s[EncoderBitRateStrategyKey] == StrategyValue(Variable)
      && s[EncoderAudioQualityForVBRKey] == IntValue(QualityForBitrate(bitrate).RawValue())
      && EncoderBitRateKey !in s
    ensures !enableVBR ==>
      && s[EncoderBitRateStrategyKey] == StrategyValue(Constant)
      && s[EncoderBitRateKey] == IntValue(bitrate * 1000)
      && EncoderAudioQualityForVBRKey !in s
  {
    var base := map[
      FormatIDKey := FormatValue(MPEG4AAC),
      NumberOfChannelsKey := IntValue(channelCount),
      SampleRateKey := RealValue(sampleRate),
      EncoderAudioQualityKey := IntValue(QualityHigh.RawValue()),
      SampleRateConverterAudioQualityKey := IntValue(QualityMax.RawValue())];
    if enableVBR then
      base[EncoderBitRateStrategyKey := StrategyValue(Variable)]
          [EncoderAudioQualityForVBRKey := IntValue(QualityForBitrate(bitrate).RawValue())]
    else
      base[EncoderBitRateStrategyKey := StrategyValue(Constant)]
          [EncoderBitRateKey := IntValue(bitrate * 1000)]
  }

  /** `createAudioFile(at:format:)`: needs a configuration; builds and
      records the settings, then asks the platform to open the file, which
      succeeds when `fileOk` holds. The settings are recorded before the
      open, so they stay recorded when it fails; a successful open replaces
      the current file by a new, empty one, and a failed one keeps it. The
      format converter is not modelled. */
  function CreateAudioFile(e: AacState, fileOk: bool): (r: Attempt<AacState, Errors.PipelineError>)
    ensures e.configuration.None? ==>
      r == Attempt(e, Some(Errors.Recorder(Errors.CompressionConfigurationInvalid(Errors.EncoderNotInitialized))))
    ensures e.configuration.Some? && !fileOk ==> r.thrown == Some(Errors.Platform)
    ensures r.thrown.None? <==> e.configuration.Some? && fileOk
    ensures r.after.configuration == e.configuration
    ensures r.thrown.Some? ==> r.after.written == e.written
    ensures r.thrown.None? ==> r.after.written == []
    ensures r.after.fileOpen == (e.fileOpen || r.thrown.None?)
    ensures e.configuration.Some? ==>
      r.after.lastSettings == CreateSettings(e.configuration.value.bitrate, e.configuration.value.sampleRate,
                                             e.configuration.value.channelCount, e.configuration.value.enableVBR)
  {
    match e.configuration
    case None => Attempt(e, Some(Errors.Recorder(Errors.CompressionConfigurationInvalid(Errors.EncoderNotInitialized))))
    case Some(cfg) =>
      var e1 := e.(lastSettings := CreateSettings(cfg.bitrate, cfg.sampleRate, cfg.channelCount, cfg.enableVBR));
      if !fileOk then Attempt(e1, Some(Errors.Platform))
      else Attempt(e1.(fileOpen := true, written := []), None)
  }

  /** `encode(buffer:)`: before the file exists it throws; afterwards the
      buffer is appended to the file. */
  function Encode(e: AacState, samples: seq<real>): (r: Result<AacState, Errors.AudioRecorderError>)
    ensures r.Failure? <==> !e.fileOpen
    ensures r.Failure? ==> r.error == Errors.CompressionConfigurationInvalid(Errors.AudioFileNotCreated)
    ensures r.Success? ==> r.value == e.(written := e.written + [samples])
  {
    if !e.fileOpen then Failure(Errors.CompressionConfigurationInvalid(Errors.AudioFileNotCreated))
    else Success(e.(written := e.written + [samples]))
  }

  /** `finalize()`: the configuration echoed into statistics. Start and end
      time, duration and compressed size come from the clock and the file
      system and are parameters; `avgKbps` is the average the source
      derives from them. */
  function Finalize(e: AacState, start: real, end: real, compressedSize: Int64, avgKbps: UInt32)
    : (r: Result<CompressionStatistics, Errors.AudioRecorderError>)
    ensures r.Failure? <==> e.configuration.None?
    ensures r.Failure? ==> r.error == Errors.CompressionConfigurationInvalid(Errors.MissingConfig)
    ensures r.Success? ==>
      var cfg := e.configuration.value;
      && r.value.format == Aac
      && r.value.bitrate == cfg.bitrate && r.value.sampleRate == cfg.sampleRate
      && r.value.channelCount == cfg.channelCount && r.value.enabledVBR == cfg.enableVBR
      && (r.value.averageBitrate.Some? <==> cfg.enableVBR)
      && (r.value.peakBitrate.Some? <==> cfg.enableVBR)
      && r.value.averageBitrate == r.value.peakBitrate
  {
    match e.configuration
    case None => Failure(Errors.CompressionConfigurationInvalid(Errors.MissingConfig))
    case Some(cfg) =>
      Success(CompressionStatistics(
        Aac, start, end, end - start, compressedSize,
        cfg.bitrate, cfg.sampleRate, cfg.channelCount, cfg.enableVBR,
        if cfg.enableVBR then Some(avgKbps) else None,
        if cfg.enableVBR then Some(avgKbps) else None))
  }

  /** `getEstimatedFileSize(for:)`: whole seconds times bytes per second.
      An unconfigured encoder answers 0 before it looks at the duration; a
      configured one traps when the duration or the product leaves `Int64`,
      which the precondition excludes. */
  function EstimatedFileSize(e: AacState, duration: real): (r: Int64)
    requires e.configuration.Some? ==> -INT64_LIMIT <= Trunc(duration) < INT64_LIMIT
    requires e.configuration.Some? ==>
      -INT64_LIMIT <= Trunc(duration) * (e.configuration.value.bitrate * 125) < INT64_LIMIT
    ensures e.configuration.None? ==> r == 0
    ensures e.configuration.Some? ==> r == Trunc(duration) * e.configuration.value.bitrate * 1000 / 8
  {
    match e.configuration
    case None => 0
    case Some(cfg) =>
      var bitsPerSecond := cfg.bitrate * 1000;
      var bytesPerSecond := bitsPerSecond / 8;
      Trunc(duration) * bytesPerSecond
  }

  function SupportsMultiChannel(): bool {
    true
  }

  function MaximumChannelCount(): UInt32 {
    MAX_CHANNELS
  }

  /** The advertised channel limit is the one `initialize` enforces: an
      otherwise acceptable configuration is taken exactly when its channel
      count is between 1 and the maximum, and more than two is possible. */
  lemma CapabilitiesMatchInitialize(e: AacState, cfg: LossyCompressionConfiguration)
    requires cfg.format == LossyAac
    ensures Initialize(e, cfg).Success? <==> 1 <= cfg.channelCount <= MaximumChannelCount()
    ensures SupportsMultiChannel() <==> MaximumChannelCount() > 2
  {
  }

  /** The estimate is the configured bitrate, in bytes, over whole seconds:
      `bitrate × 125` bytes per second, so it grows with the duration. */
  lemma EstimateMonotone(e: AacState, d1: real, d2: real)
    requires e.configuration.Some?
    requires 0.0 <= d1 <= d2
    requires Trunc(d2) < INT64_LIMIT
    requires Trunc(d2) * (e.configuration.value.bitrate * 125) < INT64_LIMIT
    ensures Trunc(d1) <= Trunc(d2)
    ensures EstimatedFileSize(e, d1) == Trunc(d1) * e.configuration.value.bitrate * 125
    ensures EstimatedFileSize(e, d1) <= EstimatedFileSize(e, d2)
  {
    var b: int := e.configuration.value.bitrate;
    assert d1.Floor <= d2.Floor;
    assert (Trunc(d2) - Trunc(d1)) * (b * 125) >= 0;
    assert Trunc(d1) * b * 1000 / 8 == Trunc(d1) * b * 125;
    assert Trunc(d2) * b * 1000 / 8 == Trunc(d2) * b * 125;
  }

  /** A failed open leaves nothing a retry depends on: opening again after
      a failure ends exactly where a first successful open does, and the
      settings it would use are already recorded. */
  lemma RetryAfterFailedOpen(e: AacState)
    requires e.configuration.Some?
    ensures var failed := CreateAudioFile(e, false).after;
      && failed.lastSettings == CreateAudioFile(e, true).after.lastSettings
      && CreateAudioFile(failed, true) == CreateAudioFile(e, true)
  {
  }

  /** Writes go to the file of the latest successful open only: a buffer
      written before a re-open is not in the new file. */
  lemma ReopenStartsEmptyFile(e: AacState, x: seq<real>, y: seq<real>)
    requires e.configuration.Some?
    ensures var e1 := CreateAudioFile(e, true).after;
      && Encode(e1, x).Success?
      && var e2 := CreateAudioFile(Encode(e1, x).value, true).after;
      && Encode(e2, y).Success?
      && Encode(e2, y).value.written == [y]
  {
  }
}
