/** Compatibility checks and repairs for a compression configuration
    (Sources/Core/Processing/CompressionFallbackManager.swift): the early
    compatibility validation, the sanitiser that clamps an invalid lossy
    configuration into the supported range, and the user-facing recovery
    suggestion for a compression error. Writing the fallback CAF file is
    platform I/O and is not modelled. */
module CompressionFallback {
  import opened Ints
  import opened Wrappers
  import opened CompressionModels
  import Errors

  const MIN_LOSSY_BITRATE: UInt32 := 64
  const MAX_LOSSY_BITRATE: UInt32 := 320

  /** The sample rates lossy output accepts, in the order the sanitiser
      searches them. */
  const ALLOWED_RATES: seq<real> := [22050.0, 44100.0, 48000.0]

  predicate AllowedRate(rate: real) {
    rate in ALLOWED_RATES
  }

  /** The rules both validators enforce, whatever order they check them in:
      a lossy configuration needs a 64..320 kbps bitrate and an allowed
      sample rate, and MP3 needs at most two channels and no VBR. */
  predicate Compatible(config: CompressionConfiguration) {
    && (IsLossy(config.format) ==>
          MIN_LOSSY_BITRATE <= config.bitrate <= MAX_LOSSY_BITRATE && AllowedRate(config.sampleRate))
    && (config.format == Mp3 ==> config.channelCount <= 2 && !config.enableVBR)
  }

  /** `validateCompatibility(for:)`: the MP3 checks come first, then the
      lossy bitrate and sample-rate checks. */
  function ValidateCompatibility(config: CompressionConfiguration): (r: Outcome<Errors.AudioRecorderError>)
    ensures r.Pass? <==> Compatible(config)
    ensures r.Fail? ==> r.error.CompressionConfigurationInvalid?
    ensures config.format == Mp3 && config.channelCount > 2 ==>
      r == Fail(Errors.CompressionConfigurationInvalid(Errors.Mp3MonoOrStereoOnly))
    ensures IsLossy(config.format) && !(64 <= config.bitrate <= 320) && Compatible(config.(bitrate := 64)) ==>
      r == Fail(Errors.CompressionConfigurationInvalid(Errors.BitrateOutOfRange))
  {
    if config.format == Mp3 && config.channelCount > 2 then
      Fail(Errors.CompressionConfigurationInvalid(Errors.Mp3MonoOrStereoOnly))
    else if config.format == Mp3 && config.enableVBR then
      Fail(Errors.CompressionConfigurationInvalid(Errors.Mp3VbrNotSupported))
    else if IsLossy(config.format) && (config.bitrate < 64 || config.bitrate > 320) then
      Fail(Errors.CompressionConfigurationInvalid(Errors.BitrateOutOfRange))
    else if IsLossy(config.format) && !AllowedRate(config.sampleRate) then
      Fail(Errors.CompressionConfigurationInvalid(Errors.SampleRateNotAllowed))
    else Pass
  }

  function Distance(a: real, b: real): real {
    AbsReal(a - b)
  }

  /** Swift's `min(by:)` scan: a later candidate replaces the current one
      only when it is strictly closer to `rate`. */
  function Closest(best: real, rest: seq<real>, rate: real): (r: real)
    ensures r == best || r in rest
    ensures Distance(r, rate) <= Distance(best, rate)
    ensures forall i :: 0 <= i < |rest| ==> Distance(r, rate) <= Distance(rest[i], rate)
    decreases |rest|
  {
    if |rest| == 0 then best
    else
      var next := if Distance(rest[0], rate) < Distance(best, rate) then rest[0] else best;
      Closest(next, rest[1..], rate)
  }

  /** The allowed rate nearest to `rate`; of two equally near, the lower. */
  function NearestRate(rate: real): (r: real)
    ensures AllowedRate(r)
    ensures forall i :: 0 <= i < |ALLOWED_RATES| ==> Distance(r, rate) <= Distance(ALLOWED_RATES[i], rate)
    ensures forall i :: 0 <= i < |ALLOWED_RATES| && Distance(ALLOWED_RATES[i], rate) == Distance(r, rate) ==>
      r <= ALLOWED_RATES[i]
  {
    ClosestOfThree(rate);
    Closest(ALLOWED_RATES[0], ALLOWED_RATES[1..], rate)
  }

  /** The scan over the three allowed rates, step by step. */
  lemma ClosestOfThree(rate: real)
    ensures var a := ALLOWED_RATES;
      var b1 := if Distance(a[1], rate) < Distance(a[0], rate) then a[1] else a[0];
      var b2 := if Distance(a[2], rate) < Distance(b1, rate) then a[2] else b1;
      Closest(a[0], a[1..], rate) == b2
  {
    var a := ALLOWED_RATES;
    var b1 := if Distance(a[1], rate) < Distance(a[0], rate) then a[1] else a[0];
    assert a[1..][1..] == [a[2]];
    assert Closest(a[0], a[1..], rate) == Closest(b1, [a[2]], rate);
  }

  /** `sanitizeConfiguration(_:)`. */
  function Sanitize(config: CompressionConfiguration): (r: CompressionConfiguration)
    ensures r.format == config.format && r.quality == config.quality
    ensures r.enableMultiChannel == config.enableMultiChannel
    ensures !IsLossy(config.format) ==> r == config
    ensures IsLossy(config.format) ==> r.bitrate == Max(64, Min(config.bitrate, 320))
    ensures IsLossy(config.format) ==>
      r.sampleRate == (if AllowedRate(config.sampleRate) then config.sampleRate else NearestRate(config.sampleRate))
    ensures config.format == Mp3 ==> r.channelCount == Min(config.channelCount, 2) && !r.enableVBR
    ensures config.format == Aac ==> r.channelCount == config.channelCount && r.enableVBR == config.enableVBR
  {
    var cfg0 := config;
    var cfg1 := if IsLossy(cfg0.format) then
      var b1 := if cfg0.bitrate < 64 then 64 else cfg0.bitrate;
      var b2 := if b1 > 320 then 320 else b1;
      var rate := if !AllowedRate(cfg0.sampleRate) then NearestRate(cfg0.sampleRate) else cfg0.sampleRate;
      cfg0.(bitrate := b2, sampleRate := rate)
    else cfg0;
    if cfg1.format == Mp3 then
      var ch := if cfg1.channelCount > 2 then 2 else cfg1.channelCount;
      cfg1.(channelCount := ch, enableVBR := false)
    else cfg1
  }

  const SUGGEST_NOT_SUPPORTED: string :=
    "This system may not support the requested encoder. Try --aac or remove compression flags to record uncompressed CAF."
  const SUGGEST_CONFIGURATION: string :=
    "Adjust bitrate (64-320), sample rate (22050/44100/48000), and for MP3 use mono or stereo without --vbr."
  const SUGGEST_ENCODING_FAILED: string :=
    "The recorder will fall back to uncompressed CAF automatically. You can also retry with a lower bitrate or switch formats."

  /** `recoverySuggestion(for:)`: guidance for the three compression errors,
      the empty string for every other error. */
  function RecoverySuggestion(err: Errors.AudioRecorderError): (r: string)
    ensures r != "" <==> err.IsCompression()
    ensures err.CompressionNotSupported? ==> r == SUGGEST_NOT_SUPPORTED
    ensures err.CompressionConfigurationInvalid? ==> r == SUGGEST_CONFIGURATION
    ensures err.CompressionEncodingFailed? ==> r == SUGGEST_ENCODING_FAILED
  {
    match err
    case CompressionNotSupported(_) => SUGGEST_NOT_SUPPORTED
    case CompressionConfigurationInvalid(_) => SUGGEST_CONFIGURATION
    case CompressionEncodingFailed => SUGGEST_ENCODING_FAILED
    case _ => ""
  }

  // ------------------------------------------------------------- properties

  /** Whatever it is given, the sanitiser produces a configuration that
      passes the compatibility check, so the second check in
      `initializeWithCompatibility` never throws. */
  lemma SanitizeMakesCompatible(config: CompressionConfiguration)
    ensures ValidateCompatibility(Sanitize(config)).Pass?
  {
    var r := Sanitize(config);
    if IsLossy(config.format) {
      if !AllowedRate(config.sampleRate) {
        assert AllowedRate(NearestRate(config.sampleRate));
      }
    }
  }

  /** A compatible configuration passes through the sanitiser unchanged. */
  lemma SanitizeFixesCompatible(config: CompressionConfiguration)
    requires Compatible(config)
    ensures Sanitize(config) == config
  {
    if config.format == Mp3 {
      assert Sanitize(config) == config.(enableVBR := false);
    }
  }

  /** Sanitising twice is sanitising once. */
  lemma SanitizeIdempotent(config: CompressionConfiguration)
    ensures Sanitize(Sanitize(config)) == Sanitize(config)
  {
    SanitizeMakesCompatible(config);
    SanitizeFixesCompatible(Sanitize(config));
  }

  /** Only fields that break a rule change: the bitrate moves to the nearer
      end of 64..320, an unsupported rate moves to the nearest allowed one,
      and an MP3 channel count above two becomes two. */
  lemma SanitizeMinimalChange(config: CompressionConfiguration)
    requires IsLossy(config.format)
    ensures 64 <= config.bitrate <= 320 ==> Sanitize(config).bitrate == config.bitrate
    ensures config.bitrate < 64 ==> Sanitize(config).bitrate == 64
    ensures config.bitrate > 320 ==> Sanitize(config).bitrate == 320
    ensures AllowedRate(config.sampleRate) ==> Sanitize(config).sampleRate == config.sampleRate
    ensures config.channelCount <= 2 ==> Sanitize(config).channelCount == config.channelCount
  {
  }

  /** Concrete snaps: 8000 Hz goes to 22050, 96000 Hz to 48000, and 46050 Hz,
      which lies 1950 Hz from both 44100 and 48000, to the lower 44100. */
  lemma NearestRateExamples()
    ensures NearestRate(8000.0) == 22050.0
    ensures NearestRate(96000.0) == 48000.0
    ensures NearestRate(46050.0) == 44100.0
    ensures NearestRate(33075.0) == 22050.0
  {
    ClosestOfThree(8000.0);
    ClosestOfThree(96000.0);
    ClosestOfThree(46050.0);
    ClosestOfThree(33075.0);
  }

  /** Every rejection by the compatibility check leads the user to the
      configuration advice. */
  lemma IncompatibleSuggestsConfiguration(config: CompressionConfiguration)
    requires !Compatible(config)
    ensures ValidateCompatibility(config).Fail?
    ensures RecoverySuggestion(ValidateCompatibility(config).error) == SUGGEST_CONFIGURATION
  {
  }
}
