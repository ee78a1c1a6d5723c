/** The lossy compression engine (Sources/Core/Processing/LossyCompressionEngine.swift):
    it owns an AAC or MP3 encoder, turns the pipeline's configuration into
    the encoder's, counts the PCM bytes it has seen, and hands each buffer
    to a serial background queue through a copy rented from its buffer
    pool. Finalising waits for the queue, then asks the encoder for its
    statistics.

    The background queue is the sequence `pending` of jobs not yet run,
    oldest first; `RunNext` runs the oldest, as the serial queue does, and
    `Drain` runs them all, as `pendingGroup.wait()` waits for them. The
    progress report and the CPU heuristic are not modelled. */
module LossyEngines {
  import opened Ints
  import opened Wrappers
  import opened CompressionModels
  import opened BufferPools
  import AacEncoder
  import Mp3Encoder
  import Errors

  /** The encoder behind `AudioEncoderProtocol`. */
  datatype Encoder = AacEnc(aac: AacEncoder.AacState) | Mp3Enc(mp3: Mp3Encoder.Mp3State)

  /** An incoming PCM buffer: its format, its frame length and its samples. */
  datatype PcmBuffer = PcmBuffer(
    sampleRate: real,
    channels: UInt32,
    interleaved: bool,
    frameLength: UInt32,
    samples: seq<real>)

  /** A queued encode: the copied samples and the pool buffer holding them. */
  datatype Job = Job(samples: seq<real>, clone: PoolBuffer)

  datatype LossyEngine = LossyEngine(
    config: CompressionConfiguration,
    encoder: Encoder,
    bytesProcessed: Int64,
    pool: Pool,
    pending: seq<Job>)

  // ---------------------------------------------------------------- encoders

  function EncoderConfiguration(enc: Encoder): Option<LossyCompressionConfiguration> {
    match enc
    case AacEnc(a) => a.configuration
    case Mp3Enc(m) => m.configuration
  }

  predicate EncoderFileOpen(enc: Encoder) {
    match enc
    case AacEnc(a) => a.fileOpen
    case Mp3Enc(m) => m.fileOpen
  }

  /** The buffers the encoder has written to its current file, in order. */
  function Written(enc: Encoder): seq<seq<real>> {
    match enc
    case AacEnc(a) => a.written
    case Mp3Enc(m) => m.written
  }

  function EncInitialize(enc: Encoder, cfg: LossyCompressionConfiguration): (r: Result<Encoder, Errors.AudioRecorderError>)
    ensures r.Success? ==> r.value.AacEnc? == enc.AacEnc?
    ensures r.Success? ==> EncoderConfiguration(r.value) == Some(cfg)
    ensures r.Success? ==> Written(r.value) == Written(enc) && EncoderFileOpen(r.value) == EncoderFileOpen(enc)
  {
    match enc
    case AacEnc(a) =>
      var r :- AacEncoder.Initialize(a, cfg);
      Success(AacEnc(r))
    case Mp3Enc(m) =>
      var r :- Mp3Encoder.Initialize(m, cfg);
      Success(Mp3Enc(r))
  }

  /** The AAC encoder reports a failure to open the file as a platform
      error, the MP3 encoder as a recorder error. Either way the encoder's
      state after the attempt is kept. */
  function EncCreateFile(enc: Encoder, fileOk: bool): (r: Attempt<Encoder, Errors.PipelineError>)
    ensures r.thrown.None? <==> EncoderConfiguration(enc).Some? && fileOk
    ensures r.after.AacEnc? == enc.AacEnc?
    ensures EncoderConfiguration(r.after) == EncoderConfiguration(enc)
    ensures r.thrown.Some? ==> Written(r.after) == Written(enc)
    ensures r.thrown.None? ==> Written(r.after) == []
    ensures EncoderFileOpen(r.after) == (EncoderFileOpen(enc) || r.thrown.None?)
  {
    match enc
    case AacEnc(a) =>
      var r := AacEncoder.CreateAudioFile(a, fileOk);
      Attempt(AacEnc(r.after), r.thrown)
    case Mp3Enc(m) =>
      var r := Mp3Encoder.CreateAudioFile(m, fileOk);
      Attempt(Mp3Enc(r.after), if r.thrown.Some? then Some(Errors.Recorder(r.thrown.value)) else None)
  }

  function EncEncode(enc: Encoder, samples: seq<real>): (r: Result<Encoder, Errors.AudioRecorderError>)
    ensures r.Success? <==> EncoderFileOpen(enc)
    ensures r.Success? ==>
      && r.value.AacEnc? == enc.AacEnc?
      && Written(r.value) == Written(enc) + [samples]
      && EncoderFileOpen(r.value)
      && EncoderConfiguration(r.value) == EncoderConfiguration(enc)
  {
    match enc
    case AacEnc(a) =>
      var r :- AacEncoder.Encode(a, samples);
      Success(AacEnc(r))
    case Mp3Enc(m) =>
      var r :- Mp3Encoder.Encode(m, samples);
      Success(Mp3Enc(r))
  }

  /** Clock and file-size readings are parameters; the MP3 encoder reads
      the clock once, as `end`. */
  function EncFinalize(enc: Encoder, start: real, end: real, compressedSize: Int64, avgKbps: UInt32)
    : (r: Result<CompressionStatistics, Errors.AudioRecorderError>)
    ensures r.Success? <==> EncoderConfiguration(enc).Some?
    ensures r.Success? ==>
      && r.value.format == (if enc.AacEnc? then Aac else Mp3)
      && r.value.bitrate == EncoderConfiguration(enc).value.bitrate
      && r.value.channelCount == EncoderConfiguration(enc).value.channelCount
      && r.value.enabledVBR == EncoderConfiguration(enc).value.enableVBR
  {
    match enc
    case AacEnc(a) => AacEncoder.Finalize(a, start, end, compressedSize, avgKbps)
    case Mp3Enc(m) => Mp3Encoder.Finalize(m, end)
  }

  // ------------------------------------------------------------ configuration

  function PresetQuality(q: Quality): AudioQuality {
    match q
    case Low => QualityLow
    case Medium => QualityMedium
    case High => QualityHigh
    case Maximum => QualityMax
  }

  /** The quality inferred from the bitrate when no preset is given. */
  function InferQuality(bitrate: UInt32): AudioQuality {
    if 0 <= bitrate <= 96 then QualityMedium
    else if 97 <= bitrate <= 160 then QualityHigh
    else QualityMax
  }

  /** `makeLossyConfig(from:)`: AAC keeps every field; MP3 drops VBR and
      keeps at most two channels; other formats are rejected. */
  function MakeLossyConfig(config: CompressionConfiguration): (r: Result<LossyCompressionConfiguration, Errors.AudioRecorderError>)
    ensures r.Success? <==> IsLossy(config.format)
    ensures r.Failure? ==> r.error == Errors.CompressionConfigurationInvalid(Errors.UnsupportedLossyFormat)
    ensures r.Success? ==>
      && (r.value.format == LossyAac <==> config.format == Aac)
      && r.value.bitrate == config.bitrate
      && r.value.sampleRate == config.sampleRate
      && r.value.enableVBR == (config.format == Aac && config.enableVBR)
      && r.value.channelCount <= config.channelCount
      && (config.format == Aac || config.channelCount <= 2 ==> r.value.channelCount == config.channelCount)
      && (config.format == Mp3 ==> r.value.channelCount == Min(config.channelCount, 2))
      && r.value.quality == (if config.quality.Some? then PresetQuality(config.quality.value)
                             else InferQuality(config.bitrate))
  {
    var quality := match config.quality
      case Some(q) => PresetQuality(q)
      case None => InferQuality(config.bitrate);
    match config.format
    case Aac =>
      Success(LossyCompressionConfiguration(LossyAac, config.bitrate, config.enableVBR, config.sampleRate,
                                            config.channelCount, quality))
    case Mp3 =>
      Success(LossyCompressionConfiguration(LossyMp3, config.bitrate, false, config.sampleRate,
                                            Min(config.channelCount, 2), quality))
    case _ => Failure(Errors.CompressionConfigurationInvalid(Errors.UnsupportedLossyFormat))
  }

  /** `init(configuration:)`. An AAC engine needs 1..8 channels; an MP3
      engine needs at least one channel, since VBR and extra channels are
      dropped before the encoder sees them. */
  function Init(config: CompressionConfiguration): (r: Result<LossyEngine, Errors.AudioRecorderError>)
    ensures r.Success? <==>
      || (config.format == Aac && 1 <= config.channelCount <= 8)
      || (config.format == Mp3 && 1 <= config.channelCount)
    ensures !IsLossy(config.format) ==> r == Failure(Errors.CompressionConfigurationInvalid(Errors.LossyEngineAacMp3Only))
    ensures config.format == Aac && r.Failure? ==> r == Failure(Errors.CompressionConfigurationInvalid(Errors.AacChannelRange))
    ensures config.format == Mp3 && r.Failure? ==> r == Failure(Errors.CompressionConfigurationInvalid(Errors.Mp3MonoOrStereoOnly))
    ensures r.Success? ==>
      && r.value.config == config
      && r.value.encoder.AacEnc? == (config.format == Aac)
      && EncoderConfiguration(r.value.encoder) == Some(MakeLossyConfig(config).value)
      && !EncoderFileOpen(r.value.encoder) && Written(r.value.encoder) == []
      && r.value.bytesProcessed == 0 && r.value.pool == map[] && r.value.pending == []
  {
    if !IsLossy(config.format) then Failure(Errors.CompressionConfigurationInvalid(Errors.LossyEngineAacMp3Only))
    else
      var enc := if config.format == Aac then AacEnc(AacEncoder.FRESH) else Mp3Enc(Mp3Encoder.FRESH);
      var lossy := MakeLossyConfig(config).value;
      var enc' :- EncInitialize(enc, lossy);
      Success(LossyEngine(config, enc', 0, map[], []))
  }

  /** `createOutputFile(at:format:)`: the encoder opens the file; the
      queue, the pool and the counter are not touched, whether or not the
      open succeeds. A successful open starts a new, empty file; a failed
      one keeps the current file. */
  function CreateOutputFile(e: LossyEngine, fileOk: bool): (r: Attempt<LossyEngine, Errors.PipelineError>)
    ensures r.thrown.None? <==> EncoderConfiguration(e.encoder).Some? && fileOk
    ensures r.after.config == e.config && r.after.bytesProcessed == e.bytesProcessed
    ensures r.after.pending == e.pending && r.after.pool == e.pool
    ensures r.after.encoder.AacEnc? == e.encoder.AacEnc?
    ensures EncoderConfiguration(r.after.encoder) == EncoderConfiguration(e.encoder)
    ensures r.thrown.Some? ==> Written(r.after.encoder) == Written(e.encoder)
    ensures r.thrown.None? ==> Written(r.after.encoder) == []
    ensures EncoderFileOpen(r.after.encoder) == (EncoderFileOpen(e.encoder) || r.thrown.None?)
  {
    var attempt := EncCreateFile(e.encoder, fileOk);
    Attempt(e.(encoder := attempt.after), attempt.thrown)
  }

  // ---------------------------------------------------------------- buffers

  /** The 16-bit PCM size the engine books for a buffer. */
  function OriginalBytes(buf: PcmBuffer): nat {
    buf.channels * buf.frameLength * 2
  }

  /** The pool key `cloneBuffer` rents with: the buffer's own format, with a
      capacity of its frame length. */
  function CloneKey(buf: PcmBuffer): Key {
    Key(buf.sampleRate, buf.channels, buf.interleaved, buf.frameLength)
  }

  /** `processAudioBuffer(_:)`: the byte counter always advances, wrapping
      around; a copy is rented from the pool and queued for encoding, or,
      when the pool has none to give, the buffer is dropped. The source
      always returns `nil`, so there is no result besides the new state.
      Swift traps when `channels × frames × 2` overflows `Int`. `alloc` is
      the buffer the platform would allocate for the pool. */
  function ProcessAudioBuffer(e: LossyEngine, buf: PcmBuffer, alloc: Option<nat>): (r: LossyEngine)
    requires OriginalBytes(buf) < INT64_LIMIT
    ensures r.bytesProcessed == WrappingAdd(e.bytesProcessed, OriginalBytes(buf))
    ensures r.config == e.config && r.encoder == e.encoder
    ensures Rent(e.pool, CloneKey(buf), alloc).buffer.None? ==> r == e.(bytesProcessed := r.bytesProcessed)
    ensures Rent(e.pool, CloneKey(buf), alloc).buffer.Some? ==>
      r.pending == e.pending + [Job(buf.samples, Rent(e.pool, CloneKey(buf), alloc).buffer.value)]
  {
    var bytes := WrappingAdd(e.bytesProcessed, OriginalBytes(buf));
    var rented := Rent(e.pool, CloneKey(buf), alloc);
    match rented.buffer
    case None => e.(bytesProcessed := bytes)
    case Some(clone) =>
      e.(bytesProcessed := bytes, pool := rented.pool, pending := e.pending + [Job(buf.samples, clone)])
  }

  /** The queue runs its oldest job: the copy is encoded (an encoding error
      is swallowed and leaves the encoder as it was) and returned to the
      pool. */
  function RunNext(e: LossyEngine): (r: LossyEngine)
    ensures |e.pending| == 0 ==> r == e
    ensures |e.pending| > 0 ==>
      && r.pending == e.pending[1..]
      && r.pool == GiveBack(e.pool, e.pending[0].clone)
      && Written(r.encoder) == Written(e.encoder) + (if EncoderFileOpen(e.encoder) then [e.pending[0].samples] else [])
    ensures r.config == e.config && r.bytesProcessed == e.bytesProcessed
    ensures EncoderConfiguration(r.encoder) == EncoderConfiguration(e.encoder)
    ensures EncoderFileOpen(r.encoder) == EncoderFileOpen(e.encoder)
    ensures r.encoder.AacEnc? == e.encoder.AacEnc?
  {
    if |e.pending| == 0 then e
    else
      var job := e.pending[0];
      var enc := match EncEncode(e.encoder, job.samples)
        case Success(enc') => enc'
        case Failure(_) => e.encoder;
      e.(encoder := enc, pool := GiveBack(e.pool, job.clone), pending := e.pending[1..])
  }

  /** `pendingGroup.wait()`: every queued job has run. */
  function Drain(e: LossyEngine): (r: LossyEngine)
    ensures r.pending == []
    ensures r.config == e.config && r.bytesProcessed == e.bytesProcessed
    ensures EncoderConfiguration(r.encoder) == EncoderConfiguration(e.encoder)
    ensures EncoderFileOpen(r.encoder) == EncoderFileOpen(e.encoder)
    ensures r.encoder.AacEnc? == e.encoder.AacEnc?
    decreases |e.pending|
  {
    if |e.pending| == 0 then e else Drain(RunNext(e))
  }

  /** `finalizeCompression()`: waits for the queue, then asks the encoder
      for its statistics; the engine keeps what the queue did. */
  function FinalizeCompression(e: LossyEngine, start: real, end: real, compressedSize: Int64, avgKbps: UInt32)
    : (r: Answer<LossyEngine, CompressionStatistics, Errors.AudioRecorderError>)
    ensures r.after.pending == []
    ensures r.after.config == e.config && r.after.bytesProcessed == e.bytesProcessed
    ensures r.after.encoder.AacEnc? == e.encoder.AacEnc?
    ensures EncoderConfiguration(r.after.encoder) == EncoderConfiguration(e.encoder)
    ensures EncoderFileOpen(r.after.encoder) == EncoderFileOpen(e.encoder)
    ensures r.result.Success? <==> EncoderConfiguration(e.encoder).Some?
    ensures r.result.Success? ==>
      && r.result.value.format == (if e.encoder.AacEnc? then Aac else Mp3)
      && r.result.value.bitrate == EncoderConfiguration(e.encoder).value.bitrate
      && r.result.value.channelCount == EncoderConfiguration(e.encoder).value.channelCount
  {
    var drained := Drain(e);
    Answer(drained, EncFinalize(drained.encoder, start, end, compressedSize, avgKbps))
  }

  // ------------------------------------------------------------- properties

  /** The bitrate bands the engine infers a quality from are the bands the
      AAC encoder uses for its VBR quality hint. */
  lemma InferQualityMatchesAacVbrHint(bitrate: UInt32)
    ensures InferQuality(bitrate) == AacEncoder.QualityForBitrate(bitrate)
  {
  }

  /** The configuration an engine hands its encoder is one the encoder
      accepts, whenever the engine is built at all; so MP3 construction
      fails only for a zero channel count. */
  lemma InitConfigAccepted(config: CompressionConfiguration)
    requires Init(config).Success?
    ensures var lossy := MakeLossyConfig(config).value;
      && (config.format == Aac ==> AacEncoder.Initialize(AacEncoder.FRESH, lossy).Success?)
      && (config.format == Mp3 ==> Mp3Encoder.Initialize(Mp3Encoder.FRESH, lossy).Success? && !lossy.enableVBR)
  {
  }

  /** The clones of the queued jobs. */
  function PendingClones(jobs: seq<Job>): set<PoolBuffer> {
    set i | 0 <= i < |jobs| :: jobs[i].clone
  }

  predicate ClonesDistinct(jobs: seq<Job>) {
    forall i, j :: 0 <= i < j < |jobs| ==> jobs[i].clone != jobs[j].clone
  }

  /** The pool is valid and the buffers it has rented out are exactly the
      copies waiting in the queue, each in one job. */
  predicate Inv(e: LossyEngine) {
    && Valid(e.pool)
    && InUse(e.pool) == PendingClones(e.pending)
    && ClonesDistinct(e.pending)
  }

  lemma InitInv(config: CompressionConfiguration)
    requires Init(config).Success?
    ensures Inv(Init(config).value)
  {
  }

  /** Processing a buffer keeps the invariant, provided a newly allocated
      pool buffer is a new object. */
  lemma ProcessKeepsInv(e: LossyEngine, buf: PcmBuffer, alloc: Option<nat>)
    requires Inv(e)
    requires OriginalBytes(buf) < INT64_LIMIT
    requires alloc.Some? ==> FreshId(e.pool, alloc.value)
    ensures Inv(ProcessAudioBuffer(e, buf, alloc))
  {
    var key := CloneKey(buf);
    var rented := Rent(e.pool, key, alloc);
    RentValid(e.pool, key, alloc);
    if rented.buffer.Some? {
      var b := rented.buffer.value;
      RentMarksInUse(e.pool, key, alloc);
      var jobs := e.pending + [Job(buf.samples, b)];
      assert PendingClones(jobs) == PendingClones(e.pending) + {b} by {
        assert jobs[|e.pending|].clone == b;
        forall x | x in PendingClones(jobs)
          ensures x in PendingClones(e.pending) + {b}
        {
          var i :| 0 <= i < |jobs| && jobs[i].clone == x;
          if i < |e.pending| {
            assert e.pending[i] == jobs[i];
          }
        }
        forall x | x in PendingClones(e.pending)
          ensures x in PendingClones(jobs)
        {
          var i :| 0 <= i < |e.pending| && e.pending[i].clone == x;
          assert jobs[i] == e.pending[i];
        }
      }
      forall i, j | 0 <= i < j < |jobs|
        ensures jobs[i].clone != jobs[j].clone
      {
        assert jobs[i] == e.pending[i];
        if j < |e.pending| {
          assert jobs[j] == e.pending[j];
        } else {
          assert e.pending[i].clone in PendingClones(e.pending);
        }
      }
    }
  }

  /** Running a job keeps the invariant: the copy it returns to the pool was
      rented out by no other job. */
  lemma RunNextKeepsInv(e: LossyEngine)
    requires Inv(e)
    ensures Inv(RunNext(e))
  {
    if |e.pending| > 0 {
      var b := e.pending[0].clone;
      var rest := e.pending[1..];
      GiveBackValid(e.pool, b);
      GiveBackFrees(e.pool, b);
      assert PendingClones(rest) == PendingClones(e.pending) - {b} by {
        forall x | x in PendingClones(rest)
          ensures x in PendingClones(e.pending) - {b}
        {
          var i :| 0 <= i < |rest| && rest[i].clone == x;
          assert e.pending[i + 1] == rest[i];
        }
        forall x | x in PendingClones(e.pending) - {b}
          ensures x in PendingClones(rest)
        {
          var i :| 0 <= i < |e.pending| && e.pending[i].clone == x;
          assert rest[i - 1] == e.pending[i];
        }
      }
    }
  }

  /** All queued samples, oldest first. */
  function QueuedSamples(jobs: seq<Job>): seq<seq<real>> {
    if |jobs| == 0 then [] else [jobs[0].samples] + QueuedSamples(jobs[1..])
  }

  /** Waiting for the queue writes every queued buffer to an open file, in
      the order the buffers arrived, returns every copy to the pool, and
      keeps the invariant. Before the file is open nothing is written. */
  lemma {:induction false} DrainWritesInOrder(e: LossyEngine)
    requires Inv(e)
    ensures Inv(Drain(e))
    ensures InUse(Drain(e).pool) == {}
    ensures EncoderFileOpen(e.encoder) ==> Written(Drain(e).encoder) == Written(e.encoder) + QueuedSamples(e.pending)
    ensures !EncoderFileOpen(e.encoder) ==> Written(Drain(e).encoder) == Written(e.encoder)
    decreases |e.pending|
  {
    if |e.pending| > 0 {
      var e1 := RunNext(e);
      RunNextKeepsInv(e);
      DrainWritesInOrder(e1);
      assert Drain(e) == Drain(e1);
      if EncoderFileOpen(e.encoder) {
        calc {
          Written(Drain(e).encoder);
          Written(e1.encoder) + QueuedSamples(e1.pending);
          (Written(e.encoder) + [e.pending[0].samples]) + QueuedSamples(e.pending[1..]);
          Written(e.encoder) + QueuedSamples(e.pending);
        }
      }
    } else {
      assert PendingClones(e.pending) == {};
    }
  }

  /** Re-opening the output replaces the file: once the queue has run, the
      new file holds exactly the buffers that were queued at the re-open,
      and nothing written to the earlier file. */
  lemma ReopenThenDrainWritesOnlyQueued(e: LossyEngine)
    requires Inv(e)
    requires EncoderConfiguration(e.encoder).Some?
    ensures Written(Drain(CreateOutputFile(e, true).after).encoder) == QueuedSamples(e.pending)
  {
    var f := CreateOutputFile(e, true).after;
    assert Inv(f);
    DrainWritesInOrder(f);
  }

  /** Processing a sequence of buffers, each with its allocation. */
  function ProcessAll(e: LossyEngine, bufs: seq<PcmBuffer>, allocs: seq<Option<nat>>): (r: LossyEngine)
    requires |allocs| == |bufs|
    requires forall i :: 0 <= i < |bufs| ==> OriginalBytes(bufs[i]) < INT64_LIMIT
    decreases |bufs|
  {
    if |bufs| == 0 then e
    else ProcessAll(ProcessAudioBuffer(e, bufs[0], allocs[0]), bufs[1..], allocs[1..])
  }

  function TotalBytes(bufs: seq<PcmBuffer>): nat {
    if |bufs| == 0 then 0 else OriginalBytes(bufs[0]) + TotalBytes(bufs[1..])
  }

  /** The wrapping counter stays congruent, modulo 2^64, to the exact
      number of bytes booked, whether or not the pool could supply copies. */
  lemma {:induction false} BytesProcessedCounts(e: LossyEngine, bufs: seq<PcmBuffer>, allocs: seq<Option<nat>>)
    requires |allocs| == |bufs|
    requires forall i :: 0 <= i < |bufs| ==> OriginalBytes(bufs[i]) < INT64_LIMIT
    ensures (ProcessAll(e, bufs, allocs).bytesProcessed - (e.bytesProcessed + TotalBytes(bufs))) % INT64_MODULUS == 0
    decreases |bufs|
  {
    if |bufs| > 0 {
      var e1 := ProcessAudioBuffer(e, bufs[0], allocs[0]);
      BytesProcessedCounts(e1, bufs[1..], allocs[1..]);
      var d1 := e1.bytesProcessed - (e.bytesProcessed + OriginalBytes(bufs[0]));
      var d2 := ProcessAll(e1, bufs[1..], allocs[1..]).bytesProcessed - (e1.bytesProcessed + TotalBytes(bufs[1..]));
      assert d1 == 0 || d1 == -INT64_MODULUS || d1 == INT64_MODULUS;
      var q := d2 / INT64_MODULUS;
      assert d2 == q * INT64_MODULUS;
      var k := if d1 == 0 then 0 else if d1 < 0 then -1 else 1;
      assert d1 + d2 == (k + q) * INT64_MODULUS;
      ModAddMultiple(0, k + q, INT64_MODULUS);
    } else {
      ModSmall(0, INT64_MODULUS);
    }
  }

  /** Finalising leaves an engine that can go on: every queued buffer is in
      the file (when it is open) in arrival order, every copy is back in the
      pool, and the invariant holds. */
  lemma FinalizeReleasesCopies(e: LossyEngine, start: real, end: real, compressedSize: Int64, avgKbps: UInt32)
    requires Inv(e)
    ensures var f := FinalizeCompression(e, start, end, compressedSize, avgKbps).after;
      && Inv(f) && InUse(f.pool) == {}
      && Written(f.encoder) == Written(e.encoder) + (if EncoderFileOpen(e.encoder) then QueuedSamples(e.pending) else [])
  {
    DrainWritesInOrder(e);
  }

  /** A buffer arriving after finalisation is queued again whenever its
      shape already has a pool buffer or a new one can be allocated: the
      copies lent before were all given back, so none of them blocks it. */
  lemma FinalizeThenProcessQueues(e: LossyEngine, start: real, end: real, compressedSize: Int64, avgKbps: UInt32,
                                  buf: PcmBuffer, alloc: Option<nat>)
    requires Inv(e)
    requires OriginalBytes(buf) < INT64_LIMIT
    requires (CloneKey(buf) in e.pool && |e.pool[CloneKey(buf)]| > 0) || alloc.Some?
    ensures var f := FinalizeCompression(e, start, end, compressedSize, avgKbps).after;
      var g := ProcessAudioBuffer(f, buf, alloc);
      |g.pending| == 1 && g.pending[0].samples == buf.samples
  {
    var f := FinalizeCompression(e, start, end, compressedSize, avgKbps).after;
    FinalizeReleasesCopies(e, start, end, compressedSize, avgKbps);
    assert f.pool == Drain(e).pool;
    DrainKeepsKeys(e);
    NoneInUseRents(f.pool, CloneKey(buf), alloc);
  }

  /** Running the queue never forgets a pool list or shortens one. */
  lemma {:induction false} DrainKeepsKeys(e: LossyEngine)
    ensures forall k :: k in e.pool ==> k in Drain(e).pool && |Drain(e).pool[k]| == |e.pool[k]|
    decreases |e.pending|
  {
    if |e.pending| > 0 {
      GiveBackKeepsLengths(e.pool, e.pending[0].clone);
      DrainKeepsKeys(RunNext(e));
    }
  }
}
