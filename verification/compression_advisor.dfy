/** Format advice (Sources/Core/Processing/CompressionAdvisor.swift): size
    estimates from bitrate and duration, a side-by-side AAC/MP3 comparison
    over a list of bitrates, and a recommended format, bitrate and sample
    rate for a kind of content. The free-text rationale and warnings are
    replaced by tags naming which sentence the source appends. */
module CompressionAdvisor {
  import opened Ints
  import opened CompressionModels
  import Sorting

  datatype ContentType = Speech | Music | Mixed | LongForm

  /** The sentences `recommend` may append to the rationale, in the
      source's order of appearance. */
  datatype RationalePart =
    | Mp3ForCompatibility
    | SpeechAt96
    | MusicAt192
    | MixedAt128
    | LongFormAt96
    | ModerateAt128
    | Mp3LargerFiles
    | AacBetterQuality

  datatype AdviceWarning = Mp3MultiChannelUnsupported

  datatype FormatAdvice = FormatAdvice(
    format: Format,
    recommendedBitrateKbps: UInt32,
    sampleRate: real,
    rationale: seq<RationalePart>,
    warnings: seq<AdviceWarning>)

  datatype Entry = Entry(format: Format, bitrateKbps: UInt32, estimatedBytes: Int64)

  datatype FormatComparison = FormatComparison(durationSeconds: real, entries: seq<Entry>)

  /** The container overhead added to every estimate, in bytes. */
  const OVERHEAD_BYTES: int := 1024

  /** Three hours: longer long-form content gets the lower bitrate. */
  const LONG_FORM_SECONDS: real := 10800.0

  /** The payload bytes before truncation: bitrate in bytes per second
      times the duration, negative durations counting as zero. */
  function PayloadBytes(bitrateKbps: UInt32, durationSeconds: real): real {
    (bitrateKbps as real * 1000.0 / 8.0) * MaxReal(0.0, durationSeconds)
  }

  /** `Int64(...)` and `+ 1024` trap outside `Int64`. */
  predicate EstimateFits(bitrateKbps: UInt32, durationSeconds: real) {
    Trunc(PayloadBytes(bitrateKbps, durationSeconds)) + OVERHEAD_BYTES < INT64_LIMIT
  }

  /** `estimateSizeBytes(format:bitrateKbps:durationSeconds:)`: the whole
      payload bytes plus the overhead. The format plays no part. */
  function EstimateSizeBytes(format: Format, bitrateKbps: UInt32, durationSeconds: real): (r: Int64)
    requires EstimateFits(bitrateKbps, durationSeconds)
    ensures r >= OVERHEAD_BYTES
    ensures durationSeconds <= 0.0 ==> r == OVERHEAD_BYTES
    ensures (r - OVERHEAD_BYTES) as real <= PayloadBytes(bitrateKbps, durationSeconds)
              < (r - OVERHEAD_BYTES + 1) as real
  {
    MulNonnegReal(bitrateKbps as real * 1000.0 / 8.0, MaxReal(0.0, durationSeconds));
    var bitsPerSecond := bitrateKbps as real * 1000.0;
    var bytes := Trunc((bitsPerSecond / 8.0) * MaxReal(0.0, durationSeconds));
    bytes + OVERHEAD_BYTES
  }

  /** The payload grows with the bitrate and with the duration. */
  lemma PayloadMonotone(b1: UInt32, b2: UInt32, d1: real, d2: real)
    requires b1 <= b2 && d1 <= d2
    ensures 0.0 <= PayloadBytes(b1, d1) <= PayloadBytes(b2, d2)
  {
    var r1, r2 := b1 as real * 1000.0 / 8.0, b2 as real * 1000.0 / 8.0;
    var m1, m2 := MaxReal(0.0, d1), MaxReal(0.0, d2);
    MulLeReal(r1, m1, m2);
    MulLeReal(m2, r1, r2);
    var p1, p12, p2 := r1 * m1, r1 * m2, r2 * m2;
    assert p1 <= p12;
    assert p12 == m2 * r1 && p2 == m2 * r2;
    assert p12 <= p2;
    MulNonnegReal(r1, m1);
  }

  /** Longer recordings and higher bitrates never shrink the estimate, and
      every format gets the same estimate. */
  lemma EstimateMonotone(f: Format, g: Format, b1: UInt32, b2: UInt32, d1: real, d2: real)
    requires b1 <= b2 && d1 <= d2
    requires EstimateFits(b2, d2)
    ensures EstimateFits(b1, d1)
    ensures EstimateSizeBytes(f, b1, d1) <= EstimateSizeBytes(g, b2, d2)
    ensures EstimateSizeBytes(f, b1, d1) == EstimateSizeBytes(g, b1, d1)
  {
    PayloadMonotone(b1, b2, d1, d2);
    TruncMonotone(PayloadBytes(b1, d1), PayloadBytes(b2, d2));
  }

  function UIntLe(a: UInt32, b: UInt32): bool {
    a <= b
  }

  lemma UIntLeTotalOrder()
    ensures Sorting.TotalOrder(UIntLe)
  {
  }

  function AacEntry(b: UInt32, d: real): Entry
    requires EstimateFits(b, d)
  {
    Entry(Aac, b, EstimateSizeBytes(Aac, b, d))
  }

  function Mp3Entry(b: UInt32, d: real): Entry
    requires EstimateFits(b, d)
  {
    Entry(Mp3, b, EstimateSizeBytes(Mp3, b, d))
  }

  /** The loop of `compare` without MP3: one AAC entry per bitrate. */
  function AacEntries(sorted: seq<UInt32>, d: real): (r: seq<Entry>)
    requires forall i :: 0 <= i < |sorted| ==> EstimateFits(sorted[i], d)
    ensures |r| == |sorted|
    ensures forall i :: 0 <= i < |sorted| ==> r[i] == AacEntry(sorted[i], d)
    decreases |sorted|
  {
    if |sorted| == 0 then []
    else [AacEntry(sorted[0], d)] + AacEntries(sorted[1..], d)
  }

  /** The loop of `compare` with MP3: each AAC entry followed by its MP3
      twin. */
  function PairedEntries(sorted: seq<UInt32>, d: real): (r: seq<Entry>)
    requires forall i :: 0 <= i < |sorted| ==> EstimateFits(sorted[i], d)
    ensures |r| == 2 * |sorted|
    ensures forall i :: 0 <= i < |sorted| ==> r[2 * i] == AacEntry(sorted[i], d) && r[2 * i + 1] == Mp3Entry(sorted[i], d)
    decreases |sorted|
  {
    if |sorted| == 0 then []
    else
      var rest := PairedEntries(sorted[1..], d);
      var r := [AacEntry(sorted[0], d), Mp3Entry(sorted[0], d)] + rest;
      forall i | 1 <= i < |sorted|
        ensures r[2 * i] == AacEntry(sorted[i], d) && r[2 * i + 1] == Mp3Entry(sorted[i], d)
      {
        var j := i - 1;
        assert sorted[i] == sorted[1..][j];
        assert r[2 * i] == rest[2 * j] && r[2 * i + 1] == rest[2 * j + 1];
      }
      r
  }

  /** The entry at position `i` of the comparison over sorted bitrates. */
  lemma EntryAt(sorted: seq<UInt32>, d: real, includeMp3: bool, i: int)
    requires forall k :: 0 <= k < |sorted| ==> EstimateFits(sorted[k], d)
    requires 0 <= i < (if includeMp3 then 2 else 1) * |sorted|
    ensures var r := if includeMp3 then PairedEntries(sorted, d) else AacEntries(sorted, d);
      var k := if includeMp3 then i / 2 else i;
      && 0 <= k < |sorted|
      && r[i].bitrateKbps == sorted[k]
      && r[i].format == (if includeMp3 && i % 2 == 1 then Mp3 else Aac)
      && EstimateFits(r[i].bitrateKbps, d)
      && r[i].estimatedBytes == EstimateSizeBytes(Aac, r[i].bitrateKbps, d)
  {
    if includeMp3 {
      var r := PairedEntries(sorted, d);
      var k := i / 2;
      assert r[2 * k] == AacEntry(sorted[k], d) && r[2 * k + 1] == Mp3Entry(sorted[k], d);
      if i % 2 == 0 {
        assert i == 2 * k;
      } else {
        assert i == 2 * k + 1;
      }
    } else {
      var r := AacEntries(sorted, d);
      assert r[i] == AacEntry(sorted[i], d);
    }
  }

  /** `compare(durationSeconds:bitratesKbps:includeMP3:)`: the entries run
      through the bitrates in ascending order, AAC first and MP3 after it
      when included, each with the size estimate for its bitrate. */
  function Compare(durationSeconds: real, bitratesKbps: seq<UInt32>, includeMp3: bool): (r: FormatComparison)
    requires forall i :: 0 <= i < |bitratesKbps| ==> EstimateFits(bitratesKbps[i], durationSeconds)
    ensures r.durationSeconds == durationSeconds
    ensures |r.entries| == (if includeMp3 then 2 else 1) * |bitratesKbps|
    ensures forall i, j :: 0 <= i < j < |r.entries| ==> r.entries[i].bitrateKbps <= r.entries[j].bitrateKbps
    ensures forall i :: 0 <= i < |r.entries| ==>
      && r.entries[i].bitrateKbps in bitratesKbps
      && r.entries[i].format == (if includeMp3 && i % 2 == 1 then Mp3 else Aac)
      && EstimateFits(r.entries[i].bitrateKbps, durationSeconds)
      && r.entries[i].estimatedBytes == EstimateSizeBytes(Aac, r.entries[i].bitrateKbps, durationSeconds)
  {
    UIntLeTotalOrder();
    var sorted := Sorting.Sort(bitratesKbps, UIntLe);
    SortedFits(bitratesKbps, sorted, durationSeconds);
    var entries := if includeMp3 then PairedEntries(sorted, durationSeconds) else AacEntries(sorted, durationSeconds);
    forall i | 0 <= i < |entries|
      ensures entries[i].bitrateKbps in bitratesKbps
      ensures entries[i].format == (if includeMp3 && i % 2 == 1 then Mp3 else Aac)
      ensures EstimateFits(entries[i].bitrateKbps, durationSeconds)
      ensures entries[i].estimatedBytes == EstimateSizeBytes(Aac, entries[i].bitrateKbps, durationSeconds)
    {
      EntryAt(sorted, durationSeconds, includeMp3, i);
    }
    forall i, j | 0 <= i < j < |entries|
      ensures entries[i].bitrateKbps <= entries[j].bitrateKbps
    {
      EntryAt(sorted, durationSeconds, includeMp3, i);
      EntryAt(sorted, durationSeconds, includeMp3, j);
      var a, b := if includeMp3 then i / 2 else i, if includeMp3 then j / 2 else j;
      assert a <= b;
      if a < b {
        assert UIntLe(sorted[a], sorted[b]);
      }
    }
    FormatComparison(durationSeconds, entries)
  }

  lemma SortedFits(s: seq<UInt32>, sorted: seq<UInt32>, d: real)
    requires forall i :: 0 <= i < |s| ==> EstimateFits(s[i], d)
    requires multiset(sorted) == multiset(s)
    ensures forall i :: 0 <= i < |sorted| ==> EstimateFits(sorted[i], d) && sorted[i] in s
  {
    forall i | 0 <= i < |sorted|
      ensures EstimateFits(sorted[i], d) && sorted[i] in s
    {
      assert sorted[i] in multiset(sorted);
      assert sorted[i] in multiset(s);
    }
  }

  /** The format before the final MP3 guard: MP3 only when maximum
      compatibility is asked for and the channels fit in stereo. */
  function ChosenFormat(channels: UInt32, needMaxCompatibility: bool): Format {
    if needMaxCompatibility then (if channels > 2 then Aac else Mp3) else Aac
  }

  /** `recommend(content:durationSeconds:channels:needMaxCompatibility:)`. */
  function Recommend(content: ContentType, durationSeconds: real, channels: UInt32, needMaxCompatibility: bool)
    : (r: FormatAdvice)
    ensures r.format == Mp3 <==> needMaxCompatibility && channels <= 2
    ensures r.format == Aac || r.format == Mp3
    ensures r.warnings == (if needMaxCompatibility && channels > 2 then [Mp3MultiChannelUnsupported] else [])
    ensures content == Speech ==> r.recommendedBitrateKbps == 96 && r.sampleRate == 44100.0
    ensures content == Music ==> r.recommendedBitrateKbps == 192 && r.sampleRate == 48000.0
    ensures content == Mixed ==> r.recommendedBitrateKbps == 128 && r.sampleRate == 44100.0
    ensures content == LongForm ==> (r.sampleRate == 44100.0 &&
      r.recommendedBitrateKbps == (if durationSeconds > LONG_FORM_SECONDS then 96 else 128))
    ensures |r.rationale| > 0 && r.rationale[|r.rationale| - 1] == (if r.format == Mp3 then Mp3LargerFiles else AacBetterQuality)
    ensures (Mp3ForCompatibility in r.rationale) <==> r.format == Mp3
  {
    var warnings := if needMaxCompatibility && channels > 2 then [Mp3MultiChannelUnsupported] else [];
    var format := ChosenFormat(channels, needMaxCompatibility);
    var parts := if format == Mp3 then [Mp3ForCompatibility] else [];
    var (bitrate, sr, part) := match content
      case Speech => (96, 44100.0, SpeechAt96)
      case Music => (192, 48000.0, MusicAt192)
      case Mixed => (128, 44100.0, MixedAt128)
      case LongForm =>
        if durationSeconds > LONG_FORM_SECONDS then (96, 44100.0, LongFormAt96) else (128, 44100.0, ModerateAt128);
    var format' := if format == Mp3 && channels > 2 then Aac else format;
    var note := if format' == Mp3 then Mp3LargerFiles else AacBetterQuality;
    FormatAdvice(format', bitrate, sr, parts + [part] + [note], warnings)
  }

  /** The final MP3 guard of `recommend` never fires: MP3 is only chosen
      for at most two channels. */
  lemma Mp3GuardNeverFires(channels: UInt32, needMaxCompatibility: bool)
    ensures ChosenFormat(channels, needMaxCompatibility) == Mp3 ==> channels <= 2
  {
  }

  /** Every recommendation is a lossy format at one of 96, 128 or 192 kbps
      and 44.1 or 48 kHz: inside the range lossy validation accepts. */
  lemma AdviceInRange(content: ContentType, durationSeconds: real, channels: UInt32, needMaxCompatibility: bool)
    ensures var r := Recommend(content, durationSeconds, channels, needMaxCompatibility);
      && r.recommendedBitrateKbps in {96, 128, 192}
      && 64 <= r.recommendedBitrateKbps <= 320
      && r.sampleRate in {44100.0, 48000.0}
  {
  }

  /** The bitrate and sample rate depend on the content and duration
      only: the channel count and the compatibility wish change the format
      and the notes, never the numbers. */
  lemma NumbersIgnoreFormat(content: ContentType, durationSeconds: real, c1: UInt32, c2: UInt32, n1: bool, n2: bool)
    ensures Recommend(content, durationSeconds, c1, n1).recommendedBitrateKbps
         == Recommend(content, durationSeconds, c2, n2).recommendedBitrateKbps
    ensures Recommend(content, durationSeconds, c1, n1).sampleRate == Recommend(content, durationSeconds, c2, n2).sampleRate
  {
  }

  /** A longer long-form recording never gets a higher bitrate. */
  lemma LongFormMonotone(d1: real, d2: real, channels: UInt32, needMaxCompatibility: bool)
    requires d1 <= d2
    ensures Recommend(LongForm, d2, channels, needMaxCompatibility).recommendedBitrateKbps
         <= Recommend(LongForm, d1, channels, needMaxCompatibility).recommendedBitrateKbps
  {
  }
}
