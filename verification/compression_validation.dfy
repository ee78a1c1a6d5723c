/** Post-recording checks (Sources/Core/Processing/CompressionValidation.swift):
    the integrity of the written file, the consistency of the statistics,
    the compressed size against the size the bitrate predicts, and the
    reported VBR average against the observed one. Each check returns a
    report that is valid exactly when it lists no issue.

    The file system and the audio decoder are not modelled: whether the
    file exists, its size and whether an AAC file opens are inputs. Issue
    messages are replaced by tags carrying the values they mention. */
module CompressionValidation {
  import opened Ints
  import opened Wrappers
  import opened CompressionModels
  import Strings
  import Mp3Encoder

  datatype Issue =
    | FileMissing(path: string)
    | UnexpectedExtension(actual: string, expected: string)
    | FileEmpty
    | AacUnreadable
    | EndBeforeStart
    | NegativeDuration
    | NegativeCompressedSize
    | BitrateMissing
    | SizeDeviates(ratio: real)
    | AverageBitrateDeviates

  datatype ValidationReport = ValidationReport(isValid: bool, issues: seq<Issue>)

  function Report(issues: seq<Issue>): (r: ValidationReport)
    ensures r.isValid <==> r.issues == []
    ensures r.issues == issues
  {
    ValidationReport(|issues| == 0, issues)
  }

  /** What the platform reports about the file at a path. */
  datatype FileFacts = FileFacts(present: bool, size: Option<int>, opensAsAudio: bool)

  /** The extension check: the path's extension and the format's, both
      lower-cased, must match. */
  predicate ExtensionMatches(pathExtension: string, format: Format) {
    Strings.Lowercased(pathExtension) == Strings.Lowercased(FileExtension(format))
  }

  /** `validateFileIntegrity(url:format:)`: the file must exist, carry the
      format's extension in any letter case, not be empty, and, for AAC
      only, open for reading. */
  function ValidateFileIntegrity(path: string, pathExtension: string, format: Format, facts: FileFacts)
    : (r: ValidationReport)
    ensures r.isValid <==>
      && facts.present
      && ExtensionMatches(pathExtension, format)
      && facts.size != Some(0)
      && (format == Aac ==> facts.opensAsAudio)
    ensures (FileMissing(path) in r.issues) <==> !facts.present
    ensures (UnexpectedExtension(pathExtension, Strings.Lowercased(FileExtension(format))) in r.issues)
            <==> !ExtensionMatches(pathExtension, format)
    ensures (FileEmpty in r.issues) <==> facts.size == Some(0)
    ensures (AacUnreadable in r.issues) <==> format == Aac && !facts.opensAsAudio
    ensures |r.issues| <= 4
  {
    var expected := Strings.Lowercased(FileExtension(format));
    var i1 := if !facts.present then [FileMissing(path)] else [];
    var i2 := if Strings.Lowercased(pathExtension) != expected then [UnexpectedExtension(pathExtension, expected)] else [];
    var i3 := if facts.size == Some(0) then [FileEmpty] else [];
    var i4 := if format == Aac && !facts.opensAsAudio then [AacUnreadable] else [];
    InConcat(FileMissing(path), i1, i2, i3, i4);
    InConcat(UnexpectedExtension(pathExtension, expected), i1, i2, i3, i4);
    InConcat(FileEmpty, i1, i2, i3, i4);
    InConcat(AacUnreadable, i1, i2, i3, i4);
    Report(i1 + i2 + i3 + i4)
  }

  /** An issue is in the four lists joined when it is in one of them. */
  lemma InConcat(x: Issue, a: seq<Issue>, b: seq<Issue>, c: seq<Issue>, d: seq<Issue>)
    ensures x in a + b + c + d <==> x in a || x in b || x in c || x in d
  {
  }

  /** The four consistency rules the statistics must satisfy. */
  predicate Consistent(stats: CompressionStatistics) {
    && stats.startTime <= stats.endTime
    && stats.duration >= 0.0
    && stats.compressedSize >= 0
    && (IsLossy(stats.format) ==> stats.bitrate != 0)
  }

  /** `validateMetadataConsistency(_:)`: one issue per broken rule, in the
      order the rules are listed. */
  function ValidateMetadataConsistency(stats: CompressionStatistics): (r: ValidationReport)
    ensures r.isValid <==> Consistent(stats)
    ensures (EndBeforeStart in r.issues) <==> stats.endTime < stats.startTime
    ensures (NegativeDuration in r.issues) <==> stats.duration < 0.0
    ensures (NegativeCompressedSize in r.issues) <==> stats.compressedSize < 0
    ensures (BitrateMissing in r.issues) <==> stats.bitrate == 0 && IsLossy(stats.format)
    ensures |r.issues| <= 4
  {
    var i1 := if stats.endTime < stats.startTime then [EndBeforeStart] else [];
    var i2 := if stats.duration < 0.0 then [NegativeDuration] else [];
    var i3 := if stats.compressedSize < 0 then [NegativeCompressedSize] else [];
    var i4 := if stats.bitrate == 0 && (stats.format == Aac || stats.format == Mp3) then [BitrateMissing] else [];
    InConcat(EndBeforeStart, i1, i2, i3, i4);
    InConcat(NegativeDuration, i1, i2, i3, i4);
    InConcat(NegativeCompressedSize, i1, i2, i3, i4);
    InConcat(BitrateMissing, i1, i2, i3, i4);
    Report(i1 + i2 + i3 + i4)
  }

  /** The size the bitrate and duration predict, before conversion. */
  function ExpectedBytesReal(stats: CompressionStatistics): real {
    (stats.bitrate as real * 1000.0 / 8.0) * stats.duration
  }

  /** `Int64(...)` traps outside `Int64`. */
  predicate ExpectedFits(stats: CompressionStatistics) {
    -INT64_LIMIT <= Trunc(ExpectedBytesReal(stats)) < INT64_LIMIT
  }

  /** The tolerance `validateEfficiency` uses when the caller gives none. */
  const DEFAULT_TOLERANCE: real := 0.35

  /** `validateEfficiency(stats:toleranceRatio:)`: when a positive size is
      expected, the relative deviation of the compressed size from it must
      not exceed the tolerance. */
  function ValidateEfficiency(stats: CompressionStatistics, toleranceRatio: real): (r: ValidationReport)
    requires ExpectedFits(stats)
    ensures |r.issues| <= 1
    ensures forall i :: 0 <= i < |r.issues| ==> r.issues[i].SizeDeviates? && r.issues[i].ratio > toleranceRatio
    ensures Trunc(ExpectedBytesReal(stats)) <= 0 ==> r.isValid
  {
    var expectedBytes := Trunc(ExpectedBytesReal(stats));
    if expectedBytes > 0 then
      var diff := AbsReal(stats.compressedSize as real - expectedBytes as real);
      var ratio := diff / expectedBytes as real;
      if ratio > toleranceRatio then Report([SizeDeviates(ratio)]) else Report([])
    else Report([])
  }

  /** `Double(x) / e > t` is `x > t * e` for a positive `e`. */
  lemma DivGreater(x: real, e: real, t: real)
    requires e > 0.0
    ensures x / e > t <==> x > t * e
  {
    var q := x / e;
    assert e * q == x;
    if q > t {
      MulLtReal(e, t, q);
    } else {
      MulLeReal(e, q, t);
    }
  }

  /** The efficiency check without division: a positive expected size
      flags the report exactly when the compressed size lies further from
      it than the tolerance times the expected size. */
  lemma EfficiencyWithoutDivision(stats: CompressionStatistics, toleranceRatio: real)
    requires ExpectedFits(stats)
    ensures var e := Trunc(ExpectedBytesReal(stats));
      !ValidateEfficiency(stats, toleranceRatio).isValid <==>
        e > 0 && AbsReal(stats.compressedSize as real - e as real) > toleranceRatio * e as real
  {
    var e := Trunc(ExpectedBytesReal(stats));
    if e > 0 {
      DivGreater(AbsReal(stats.compressedSize as real - e as real), e as real, toleranceRatio);
    }
  }

  /** The observed average before conversion to `UInt32`, in kbps. */
  function ObservedKbpsReal(stats: CompressionStatistics): real
    requires stats.duration > 0.0
  {
    (stats.compressedSize as real * 8.0 / stats.duration) / 1000.0
  }

  /** Whether `validateAverageBitrate` gets past its guard. */
  predicate ChecksAverage(stats: CompressionStatistics) {
    stats.enabledVBR && stats.averageBitrate.Some? && stats.duration > 0.0
  }

  /** `UInt32(...)` traps at or below -1 and at or above 2^32; truncation
      toward zero maps everything in between into `UInt32`. */
  predicate ObservedFits(stats: CompressionStatistics) {
    ChecksAverage(stats) ==> 0 <= Trunc(ObservedKbpsReal(stats)) < UINT32_LIMIT
  }

  /** The tolerance on the VBR average, in kbps. */
  const AVERAGE_TOLERANCE_KBPS: int := 64

  /** `validateAverageBitrate(stats:)`: only VBR statistics with an average
      and a positive duration are checked; they fail when the observed
      average differs from the reported one by more than 64 kbps. */
  function ValidateAverageBitrate(stats: CompressionStatistics): (r: ValidationReport)
    requires ObservedFits(stats)
    ensures !ChecksAverage(stats) ==> r.isValid
    ensures ChecksAverage(stats) ==>
      var observed := Trunc(ObservedKbpsReal(stats));
      (r.isValid <==> stats.averageBitrate.value - AVERAGE_TOLERANCE_KBPS <= observed <= stats.averageBitrate.value + AVERAGE_TOLERANCE_KBPS)
    ensures r.issues == [] || r.issues == [AverageBitrateDeviates]
  {
    if !(stats.enabledVBR && stats.averageBitrate.Some? && stats.duration > 0.0) then Report([])
    else
      var avg := stats.averageBitrate.value;
      var observed: UInt32 := Trunc(ObservedKbpsReal(stats));
      var diff := Abs(observed - avg);
      if diff > AVERAGE_TOLERANCE_KBPS then Report([AverageBitrateDeviates]) else Report([])
  }

  // ------------------------------------------------------------- properties

  /** Extensions already are lower case, so a file named with its format's
      extension passes the extension check, in any mix of letter case. */
  lemma OwnExtensionMatches(format: Format, ext: string)
    requires Strings.Lowercased(ext) == FileExtension(format)
    ensures ExtensionMatches(ext, format)
  {
    Strings.LowercasedNoCapitals(FileExtension(format));
  }

  /** Ten seconds of 128 kbps predict 160000 bytes; 200000 bytes deviate
      by 0.25, which the default tolerance accepts and a tolerance of 0.2
      rejects. */
  lemma DefaultToleranceExample()
    ensures var stats := CompressionStatistics(Aac, 0.0, 10.0, 10.0, 200000, 128, 44100.0, 2, false, None, None);
      && ExpectedFits(stats)
      && ValidateEfficiency(stats, DEFAULT_TOLERANCE).isValid
      && !ValidateEfficiency(stats, 0.2).isValid
  {
    var stats := CompressionStatistics(Aac, 0.0, 10.0, 10.0, 200000, 128, 44100.0, 2, false, None, None);
    assert ExpectedBytesReal(stats) == 160000.0;
    assert Trunc(160000.0) == 160000;
  }

  /** A compressed size equal to the predicted one always passes the
      efficiency check, whatever the (non-negative) tolerance. */
  lemma ExactSizePasses(stats: CompressionStatistics, toleranceRatio: real)
    requires ExpectedFits(stats)
    requires stats.compressedSize == Trunc(ExpectedBytesReal(stats))
    requires toleranceRatio >= 0.0
    ensures ValidateEfficiency(stats, toleranceRatio).isValid
  {
    EfficiencyWithoutDivision(stats, toleranceRatio);
    var e := Trunc(ExpectedBytesReal(stats));
    if e > 0 {
      MulNonnegReal(toleranceRatio, e as real);
    }
  }

  /** The statistics the MP3 encoder reports pass every check on any
      validated configuration: zero duration and size predict nothing,
      and without VBR there is no average to compare. */
  lemma Mp3StatisticsPass(e: Mp3Encoder.Mp3State, now: real, toleranceRatio: real)
    requires Mp3Encoder.Finalize(e, now).Success?
    requires e.configuration.value.bitrate != 0 && !e.configuration.value.enableVBR
    ensures var stats := Mp3Encoder.Finalize(e, now).value;
      && ExpectedFits(stats) && ObservedFits(stats)
      && ValidateMetadataConsistency(stats).isValid
      && ValidateEfficiency(stats, toleranceRatio).isValid
      && ValidateAverageBitrate(stats).isValid
  {
    var stats := Mp3Encoder.Finalize(e, now).value;
    assert ExpectedBytesReal(stats) == 0.0;
  }
}
