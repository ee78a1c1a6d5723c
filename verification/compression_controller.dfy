/** The compression controller (Sources/Core/Processing/CompressionController.swift):
    it validates a configuration, remembers it, and builds the engine for
    its format: the lossy engine for AAC and MP3, a stub for ALAC that
    echoes its configuration at finalisation, and a passthrough engine for
    uncompressed output. Until an engine exists, processing is a no-op and
    finalising or creating the output file fails.

    A throwing mutator is modelled as a function returning an `Attempt`
    (or an `Answer` when it also returns a value): the controller after the
    call, where a throw part-way through keeps what was already assigned,
    and the error thrown, if any. The lossy engine's serial encode queue
    runs in the background; `RunQueued` is one step of it. */
module CompressionControllers {
  import opened Ints
  import opened Wrappers
  import opened CompressionModels
  import opened Errors
  import LossyEngines
  import CompressionFallback
  import BufferPools

  datatype Engine =
    | Lossy(lossy: LossyEngines.LossyEngine)
    | AlacStub(stubConfig: CompressionConfiguration)
    | Passthrough

  datatype ControllerState = ControllerState(engine: Option<Engine>, configuration: Option<CompressionConfiguration>)

  const EMPTY: ControllerState := ControllerState(None, None)

  const ALLOWED_RATES: set<real> := {22050.0, 44100.0, 48000.0}

  /** `validateConfiguration(_:)`: the lossy bitrate and sample-rate checks
      come first, then the MP3 channel and VBR checks. */
  function ValidateConfiguration(config: CompressionConfiguration): (r: Outcome<ControllerError>)
    ensures r.Pass? <==> CompressionFallback.Compatible(config)
    ensures IsLossy(config.format) && !(64 <= config.bitrate <= 320) ==> r == Fail(InvalidBitrate(config.bitrate))
    ensures config.format == Mp3 && CompressionFallback.Compatible(config.(channelCount := 2, enableVBR := false)) ==>
      && (config.channelCount > 2 ==> r == Fail(MultiChannelNotSupported(Mp3, config.channelCount)))
      && (config.channelCount <= 2 && config.enableVBR ==> r == Fail(VbrNotSupported(Mp3)))
  {
    if IsLossy(config.format) && (config.bitrate < 64 || config.bitrate > 320) then
      Fail(InvalidBitrate(config.bitrate))
    else if IsLossy(config.format) && config.sampleRate !in ALLOWED_RATES then
      Fail(InvalidSampleRate(config.sampleRate))
    else if config.format == Mp3 && config.channelCount > 2 then
      Fail(MultiChannelNotSupported(Mp3, config.channelCount))
    else if config.format == Mp3 && config.enableVBR then
      Fail(VbrNotSupported(Mp3))
    else Pass
  }

  /** `makeEngine(for:)`: only the lossy engine can fail to build. */
  function MakeEngine(config: CompressionConfiguration): (r: Result<Engine, AudioRecorderError>)
    ensures r.Success? <==>
      && (config.format == Aac ==> 1 <= config.channelCount <= 8)
      && (config.format == Mp3 ==> 1 <= config.channelCount)
    ensures r.Success? ==>
      && (IsLossy(config.format) <==> r.value.Lossy?)
      && (config.format == Alac <==> r.value == AlacStub(config))
      && (config.format == Uncompressed <==> r.value == Passthrough)
    ensures r.Success? && r.value.Lossy? ==> r.value.lossy == LossyEngines.Init(config).value
  {
    match config.format
    case Aac | Mp3 =>
      var e :- LossyEngines.Init(config);
      Success(Lossy(e))
    case Alac => Success(AlacStub(config))
    case Uncompressed => Success(Passthrough)
  }

  /** `initialize(with:)`: a rejected configuration leaves the controller
      untouched; an accepted one is stored before the engine is built, so
      an engine failure leaves the new configuration beside the previous
      engine. */
  function Initialize(c: ControllerState, config: CompressionConfiguration): (r: Attempt<ControllerState, PipelineError>)
    ensures ValidateConfiguration(config).Fail? ==>
      r == Attempt(c, Some(Controller(ValidateConfiguration(config).error)))
    ensures ValidateConfiguration(config).Pass? ==> r.after.configuration == Some(config)
    ensures ValidateConfiguration(config).Pass? && MakeEngine(config).Success? ==>
      r == Attempt(ControllerState(Some(MakeEngine(config).value), Some(config)), None)
    ensures ValidateConfiguration(config).Pass? && MakeEngine(config).Failure? ==>
      r == Attempt(c.(configuration := Some(config)), Some(Recorder(MakeEngine(config).error)))
  {
    match ValidateConfiguration(config)
    case Fail(err) => Attempt(c, Some(Controller(err)))
    case Pass =>
      var c1 := c.(configuration := Some(config));
      match MakeEngine(config)
      case Failure(err) => Attempt(c1, Some(Recorder(err)))
      case Success(engine) => Attempt(c1.(engine := Some(engine)), None)
  }

  /** The configuration `initializeWithCompatibility` settles on: the
      given one when compatible, otherwise its sanitised form. */
  function CompatibleConfiguration(config: CompressionConfiguration): (r: CompressionConfiguration)
    ensures CompressionFallback.Compatible(r)
    ensures CompressionFallback.Compatible(config) ==> r == config
    ensures !CompressionFallback.Compatible(config) ==> r == CompressionFallback.Sanitize(config)
    ensures r.format == config.format
  {
    CompressionFallback.SanitizeMakesCompatible(config);
    if CompressionFallback.ValidateCompatibility(config).Pass? then config
    else CompressionFallback.Sanitize(config)
  }

  /** `initializeWithCompatibility(_:)`: the second compatibility check
      after sanitising never fails, so the only error left is the engine's. */
  function InitializeWithCompatibility(c: ControllerState, config: CompressionConfiguration)
    : (r: Attempt<ControllerState, PipelineError>)
    ensures r.after.configuration == Some(CompatibleConfiguration(config))
    ensures r.thrown.None? <==> MakeEngine(CompatibleConfiguration(config)).Success?
    ensures r.thrown.None? ==> r.after.engine == Some(MakeEngine(CompatibleConfiguration(config)).value)
    ensures r.thrown.Some? ==>
      && r.after.engine == c.engine
      && r.thrown == Some(Recorder(MakeEngine(CompatibleConfiguration(config)).error))
  {
    CompressionFallback.SanitizeMakesCompatible(config);
    var c1 := match CompressionFallback.ValidateCompatibility(config)
      case Pass => Result<ControllerState, PipelineError>.Success(c.(configuration := Some(config)))
      case Fail(_) =>
        var sanitized := CompressionFallback.Sanitize(config);
        match CompressionFallback.ValidateCompatibility(sanitized)
        case Fail(err) => Failure(Recorder(err))
        case Pass => Success(c.(configuration := Some(sanitized)));
    match c1
    case Failure(err) => Attempt(c, Some(err))
    case Success(c2) =>
      match c2.configuration
      case None => Attempt(c2, None)
      case Some(cfg) =>
        match MakeEngine(cfg)
        case Failure(err) => Attempt(c2, Some(Recorder(err)))
        case Success(engine) => Attempt(c2.(engine := Some(engine)), None)
  }

  /** `processAudioBuffer(_:)`: only the lossy engine does anything with a
      buffer; every engine returns `nil`. */
  function ProcessAudioBuffer(c: ControllerState, buf: LossyEngines.PcmBuffer, alloc: Option<nat>): (r: ControllerState)
    requires c.engine.Some? && c.engine.value.Lossy? ==> LossyEngines.OriginalBytes(buf) < INT64_LIMIT
    ensures r.configuration == c.configuration
    ensures !(c.engine.Some? && c.engine.value.Lossy?) ==> r == c
    ensures c.engine.Some? && c.engine.value.Lossy? ==>
      r.engine == Some(Lossy(LossyEngines.ProcessAudioBuffer(c.engine.value.lossy, buf, alloc)))
  {
    match c.engine
    case None => c
    case Some(Lossy(e)) => c.(engine := Some(Lossy(LossyEngines.ProcessAudioBuffer(e, buf, alloc))))
    case Some(_) => c
  }

  /** One step of the lossy engine's serial encode queue: its oldest job
      runs and gives its copy back. Other engines have no queue. */
  function RunQueued(c: ControllerState): (r: ControllerState)
    ensures r.configuration == c.configuration
    ensures !(c.engine.Some? && c.engine.value.Lossy?) ==> r == c
    ensures c.engine.Some? && c.engine.value.Lossy? ==>
      r.engine == Some(Lossy(LossyEngines.RunNext(c.engine.value.lossy)))
  {
    match c.engine
    case Some(Lossy(e)) => c.(engine := Some(Lossy(LossyEngines.RunNext(e))))
    case _ => c
  }

  /** `finalizeCompression()`. The stubs read the clock for both dates;
      `end` stands for that reading. The lossy engine waits for its queue,
      and the controller keeps the engine as the queue left it. */
  function FinalizeCompression(c: ControllerState, start: real, end: real, compressedSize: Int64, avgKbps: UInt32)
    : (r: Answer<ControllerState, CompressionStatistics, PipelineError>)
    ensures r.after.configuration == c.configuration
    ensures !(c.engine.Some? && c.engine.value.Lossy?) ==> r.after == c
    ensures c.engine.None? ==> r.result == Failure(Controller(EngineNotInitialized))
    ensures c.engine == Some(Passthrough) ==>
      && r.result.Success? && r.result.value.format == Uncompressed
      && r.result.value.bitrate == 0 && r.result.value.sampleRate == 0.0 && r.result.value.channelCount == 0
      && r.result.value.compressedSize == 0 && r.result.value.duration == 0.0 && !r.result.value.enabledVBR
    ensures c.engine.Some? && c.engine.value.AlacStub? ==>
      var cfg := c.engine.value.stubConfig;
      && r.result.Success? && r.result.value.format == Alac
      && r.result.value.bitrate == cfg.bitrate && r.result.value.sampleRate == cfg.sampleRate
      && r.result.value.channelCount == cfg.channelCount && r.result.value.enabledVBR == cfg.enableVBR
    ensures c.engine.Some? && c.engine.value.Lossy? ==>
      && r.after.engine == Some(Lossy(LossyEngines.FinalizeCompression(c.engine.value.lossy, start, end, compressedSize, avgKbps).after))
      && r.after.engine.value.lossy.pending == []
      && (r.result.Success? <==> LossyEngines.EncoderConfiguration(c.engine.value.lossy.encoder).Some?)
  {
    match c.engine
    case None => Answer(c, Failure(Controller(EngineNotInitialized)))
    case Some(Lossy(e)) =>
      var f := LossyEngines.FinalizeCompression(e, start, end, compressedSize, avgKbps);
      var c1 := c.(engine := Some(Lossy(f.after)));
      (match f.result
       case Success(stats) => Answer(c1, Success(stats))
       case Failure(err) => Answer(c1, Failure(Recorder(err))))
    case Some(AlacStub(cfg)) =>
      Answer(c, Success(CompressionStatistics(Alac, end, end, 0.0, 0, cfg.bitrate, cfg.sampleRate, cfg.channelCount,
                                              cfg.enableVBR, None, None)))
    case Some(Passthrough) =>
      Answer(c, Success(CompressionStatistics(Uncompressed, end, end, 0.0, 0, 0, 0.0, 0, false, None, None)))
  }

  /** `createOutputFile(at:format:)`. The stubs keep no file state; whether
      the platform opens the file is `fileOk`. The lossy engine keeps its
      encoder's state after the attempt, whether or not the open fails. */
  function CreateOutputFile(c: ControllerState, fileOk: bool): (r: Attempt<ControllerState, PipelineError>)
    ensures r.after.configuration == c.configuration
    ensures c.engine.None? ==> r == Attempt(c, Some(Controller(EngineNotInitialized)))
    ensures c.engine.Some? && !c.engine.value.Lossy? ==> r.after == c && (r.thrown.None? <==> fileOk)
    ensures c.engine.Some? && c.engine.value.Lossy? ==>
      && (r.thrown.None? <==> fileOk && LossyEngines.EncoderConfiguration(c.engine.value.lossy.encoder).Some?)
      && r.after.engine == Some(Lossy(LossyEngines.CreateOutputFile(c.engine.value.lossy, fileOk).after))
  {
    match c.engine
    case None => Attempt(c, Some(Controller(EngineNotInitialized)))
    case Some(Lossy(e)) =>
      var attempt := LossyEngines.CreateOutputFile(e, fileOk);
      Attempt(c.(engine := Some(Lossy(attempt.after))), attempt.thrown)
    case Some(_) => Attempt(c, if fileOk then None else Some(Platform))
  }

  /** The lossy engine's invariant, when there is a lossy engine. */
  predicate Inv(c: ControllerState) {
    c.engine.Some? && c.engine.value.Lossy? ==> LossyEngines.Inv(c.engine.value.lossy)
  }

  // ------------------------------------------------------------- properties

  /** The controller and the fallback manager accept exactly the same
      configurations. */
  lemma ValidatorsAgree(config: CompressionConfiguration)
    ensures ValidateConfiguration(config).Pass? <==> CompressionFallback.ValidateCompatibility(config).Pass?
  {
  }

  /** They check in different orders, so a configuration breaking several
      rules is reported differently: an MP3 surround configuration at 32
      kbps is a bitrate error to the controller and a channel error to the
      fallback manager. */
  lemma ValidatorsReportDifferently()
    ensures var config := CompressionConfiguration(Mp3, 32, None, false, 44100.0, 6, true);
      && ValidateConfiguration(config) == Fail(InvalidBitrate(32))
      && CompressionFallback.ValidateCompatibility(config)
         == Fail(CompressionConfigurationInvalid(Mp3MonoOrStereoOnly))
  {
  }

  /** After validation, building the engine fails only for a zero channel
      count or an AAC configuration with more than eight channels. */
  lemma ValidatedEngineFailures(config: CompressionConfiguration)
    requires ValidateConfiguration(config).Pass?
    ensures MakeEngine(config).Failure? <==>
      (IsLossy(config.format) && config.channelCount == 0) || (config.format == Aac && config.channelCount > 8)
  {
  }

  /** A validated configuration survives into the statistics: finalising
      right after a successful `initialize` reports the configured format,
      bitrate and channel count for every format except uncompressed, which
      reports zeros. */
  lemma InitializeThenFinalize(c: ControllerState, config: CompressionConfiguration,
                               start: real, end: real, compressedSize: Int64, avgKbps: UInt32)
    requires Initialize(c, config).thrown.None?
    ensures var stats := FinalizeCompression(Initialize(c, config).after, start, end, compressedSize, avgKbps).result;
      && stats.Success?
      && stats.value.format == config.format
      && (config.format != Uncompressed ==>
            stats.value.bitrate == config.bitrate && stats.value.channelCount == config.channelCount)
      && (config.format == Uncompressed ==> stats.value.bitrate == 0 && stats.value.channelCount == 0)
  {
    var c1 := Initialize(c, config).after;
    if IsLossy(config.format) {
      var e := LossyEngines.Init(config).value;
      assert c1.engine == Some(Lossy(e));
      assert config.format == Mp3 ==> config.channelCount <= 2;
      assert LossyEngines.EncoderConfiguration(LossyEngines.Drain(e).encoder)
          == Some(LossyEngines.MakeLossyConfig(config).value);
    }
  }

  /** An engine failure in `initialize` leaves the controller holding the
      new configuration and the engine built for the previous one: here an
      uncompressed session's passthrough engine stays behind an AAC
      configuration with no channels. */
  lemma InitializeKeepsStaleEngine()
    ensures var c := ControllerState(Some(Passthrough), Some(CompressionConfiguration(Uncompressed, 0, None, false, 48000.0, 2, false)));
      var config := CompressionConfiguration(Aac, 128, None, false, 44100.0, 0, false);
      var r := Initialize(c, config);
      && r.thrown == Some(Recorder(CompressionConfigurationInvalid(AacChannelRange)))
      && r.after.configuration == Some(config)
      && r.after.engine == Some(Passthrough)
  {
  }

  /** Without an engine the controller does nothing and reports
      `engineNotInitialized`; in particular a fresh controller. */
  lemma NoEngineGuards(c: ControllerState, buf: LossyEngines.PcmBuffer, alloc: Option<nat>, fileOk: bool,
                       start: real, end: real, compressedSize: Int64, avgKbps: UInt32)
    requires c.engine.None?
    ensures ProcessAudioBuffer(c, buf, alloc) == c
    ensures FinalizeCompression(c, start, end, compressedSize, avgKbps) == Answer(c, Failure(Controller(EngineNotInitialized)))
    ensures CreateOutputFile(c, fileOk) == Attempt(c, Some(Controller(EngineNotInitialized)))
  {
  }

  /** `initializeWithCompatibility` repairs what `initialize` rejects: on a
      compatible configuration the two agree, and on any configuration the
      stored one passes `validateConfiguration`. */
  lemma CompatibilityPathRepairs(c: ControllerState, config: CompressionConfiguration)
    ensures ValidateConfiguration(InitializeWithCompatibility(c, config).after.configuration.value).Pass?
    ensures ValidateConfiguration(config).Pass? ==>
      InitializeWithCompatibility(c, config) == Initialize(c, config)
  {
  }

  /** Every controller operation keeps the lossy engine's invariant, given
      that a buffer the platform allocates for the pool is a new one: the
      copies the pool has lent out are exactly those waiting in the queue. */
  lemma OperationsKeepInv(c: ControllerState, config: CompressionConfiguration, buf: LossyEngines.PcmBuffer,
                          alloc: Option<nat>, fileOk: bool, start: real, end: real, compressedSize: Int64,
                          avgKbps: UInt32)
    requires Inv(c)
    ensures Inv(Initialize(c, config).after)
    ensures Inv(InitializeWithCompatibility(c, config).after)
    ensures Inv(RunQueued(c))
    ensures Inv(CreateOutputFile(c, fileOk).after)
    ensures Inv(FinalizeCompression(c, start, end, compressedSize, avgKbps).after)
    ensures (c.engine.Some? && c.engine.value.Lossy? ==>
              LossyEngines.OriginalBytes(buf) < INT64_LIMIT &&
              (alloc.Some? ==> BufferPools.FreshId(c.engine.value.lossy.pool, alloc.value))) ==>
            Inv(ProcessAudioBuffer(c, buf, alloc))
  {
    InitializeKeepsInv(c, config);
    CompatibleInitializeKeepsInv(c, config);
    if c.engine.Some? && c.engine.value.Lossy? {
      EngineStepsKeepInv(c, buf, alloc, fileOk, start, end, compressedSize, avgKbps);
    }
  }

  lemma InitializeKeepsInv(c: ControllerState, config: CompressionConfiguration)
    requires Inv(c)
    ensures Inv(Initialize(c, config).after)
  {
    if MakeEngine(config).Success? && MakeEngine(config).value.Lossy? {
      LossyEngines.InitInv(config);
    }
  }

  lemma CompatibleInitializeKeepsInv(c: ControllerState, config: CompressionConfiguration)
    requires Inv(c)
    ensures Inv(InitializeWithCompatibility(c, config).after)
  {
    var cfg := CompatibleConfiguration(config);
    if MakeEngine(cfg).Success? && MakeEngine(cfg).value.Lossy? {
      LossyEngines.InitInv(cfg);
    }
  }

  lemma EngineStepsKeepInv(c: ControllerState, buf: LossyEngines.PcmBuffer, alloc: Option<nat>, fileOk: bool,
                           start: real, end: real, compressedSize: Int64, avgKbps: UInt32)
    requires Inv(c)
    requires c.engine.Some? && c.engine.value.Lossy?
    ensures Inv(RunQueued(c))
    ensures Inv(CreateOutputFile(c, fileOk).after)
    ensures Inv(FinalizeCompression(c, start, end, compressedSize, avgKbps).after)
    ensures LossyEngines.OriginalBytes(buf) < INT64_LIMIT &&
            (alloc.Some? ==> BufferPools.FreshId(c.engine.value.lossy.pool, alloc.value)) ==>
            Inv(ProcessAudioBuffer(c, buf, alloc))
  {
    var e := c.engine.value.lossy;
    LossyEngines.RunNextKeepsInv(e);
    LossyEngines.FinalizeReleasesCopies(e, start, end, compressedSize, avgKbps);
    if LossyEngines.OriginalBytes(buf) < INT64_LIMIT && (alloc.Some? ==> BufferPools.FreshId(e.pool, alloc.value)) {
      LossyEngines.ProcessKeepsInv(e, buf, alloc);
    }
  }

  /** Finalising gives every copy back: afterwards a buffer is queued again
      whenever its shape already has a pool buffer or one can be allocated.
      In particular, the ninth buffer of a shape whose eight pool buffers
      were all lent out before finalisation is queued after it. */
  lemma FinalizeThenProcessQueues(c: ControllerState, start: real, end: real, compressedSize: Int64, avgKbps: UInt32,
                                  buf: LossyEngines.PcmBuffer, alloc: Option<nat>)
    requires Inv(c)
    requires c.engine.Some? && c.engine.value.Lossy?
    requires LossyEngines.OriginalBytes(buf) < INT64_LIMIT
    requires var pool := c.engine.value.lossy.pool;
      (LossyEngines.CloneKey(buf) in pool && |pool[LossyEngines.CloneKey(buf)]| > 0) || alloc.Some?
    ensures var f := FinalizeCompression(c, start, end, compressedSize, avgKbps).after;
      var g := ProcessAudioBuffer(f, buf, alloc);
      && g.engine.Some? && g.engine.value.Lossy?
      && |g.engine.value.lossy.pending| == 1 && g.engine.value.lossy.pending[0].samples == buf.samples
  {
    LossyEngines.FinalizeThenProcessQueues(c.engine.value.lossy, start, end, compressedSize, avgKbps, buf, alloc);
  }
}
