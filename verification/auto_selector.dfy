/** Automatic configuration (Sources/Core/Processing/CompressionAutoSelector.swift):
    the advisor's recommendation turned into a full compression
    configuration for the requested channel count. */
module CompressionAutoSelector {
  import opened Ints
  import opened Wrappers
  import opened CompressionModels
  import CompressionAdvisor
  import CompressionFallback
  import CompressionControllers

  datatype AutoSelectOptions = AutoSelectOptions(
    content: CompressionAdvisor.ContentType,
    durationSeconds: real,
    channels: UInt32,
    needMaxCompatibility: bool)

  /** `selectConfiguration(options:)`: the advised format, bitrate and
      sample rate, VBR exactly for AAC, no quality preset, the requested
      channel count, and multi-channel mode above stereo. */
  function SelectConfiguration(options: AutoSelectOptions): (r: CompressionConfiguration)
    ensures r.format == Mp3 <==> options.needMaxCompatibility && options.channels <= 2
    ensures r.format == Aac <==> !(options.needMaxCompatibility && options.channels <= 2)
    ensures r.enableVBR <==> r.format == Aac
    ensures r.quality == None
    ensures r.channelCount == options.channels
    ensures r.enableMultiChannel <==> options.channels > 2
    ensures r.bitrate in {96, 128, 192} && r.sampleRate in {44100.0, 48000.0}
    ensures var advice := CompressionAdvisor.Recommend(options.content, options.durationSeconds, options.channels,
                                                      options.needMaxCompatibility);
      r.format == advice.format && r.bitrate == advice.recommendedBitrateKbps && r.sampleRate == advice.sampleRate
  {
    var advice := CompressionAdvisor.Recommend(options.content, options.durationSeconds, options.channels,
                                               options.needMaxCompatibility);
    CompressionAdvisor.AdviceInRange(options.content, options.durationSeconds, options.channels,
                                     options.needMaxCompatibility);
    var format := advice.format;
    var vbr := format == Aac;
    CompressionConfiguration(format, advice.recommendedBitrateKbps, None, vbr, advice.sampleRate,
                             options.channels, options.channels > 2)
  }

  /** Every selected configuration passes both compatibility validators:
      its bitrate and rate are in range, and MP3 is only chosen for mono or
      stereo, without VBR. */
  lemma SelectedIsCompatible(options: AutoSelectOptions)
    ensures CompressionFallback.Compatible(SelectConfiguration(options))
    ensures CompressionFallback.ValidateCompatibility(SelectConfiguration(options)).Pass?
    ensures CompressionControllers.ValidateConfiguration(SelectConfiguration(options)).Pass?
  {
    var r := SelectConfiguration(options);
    assert CompressionFallback.AllowedRate(r.sampleRate) by {
      assert CompressionFallback.ALLOWED_RATES[1] == 44100.0;
      assert CompressionFallback.ALLOWED_RATES[2] == 48000.0;
    }
  }

  /** A controller initialised with the selection comes up without error
      exactly when one to eight channels are requested: zero channels are
      refused by both encoders, and more than eight always select AAC,
      whose encoder stops at eight. */
  lemma SelectedInitializes(c: CompressionControllers.ControllerState, options: AutoSelectOptions)
    ensures CompressionControllers.Initialize(c, SelectConfiguration(options)).thrown.None?
            <==> 1 <= options.channels <= 8
  {
    SelectedIsCompatible(options);
  }
}
