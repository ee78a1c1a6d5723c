/** The AVFoundation settings dictionaries the encoders build, as maps
    from a key tag to a typed value. Each key stands for the AVFoundation
    constant of the same name. */
module AudioSettings {

  /** `kAudioFormat…` identifiers. */
  datatype AudioFormatId = MPEG4AAC | MPEGLayer3 | AppleLossless | LinearPCM

  /** `AVAudioBitRateStrategy_…` values. */
  datatype BitRateStrategy = Constant | Variable

  datatype SettingKey =
    | FormatIDKey
    | NumberOfChannelsKey
    | SampleRateKey
    | EncoderAudioQualityKey
    | SampleRateConverterAudioQualityKey
    | EncoderBitRateStrategyKey
    | EncoderAudioQualityForVBRKey
    | EncoderBitRateKey
    | EncoderBitDepthHintKey

  datatype SettingValue =
    | FormatValue(formatId: AudioFormatId)
    | IntValue(intValue: int)
    | RealValue(realValue: real)
    | StrategyValue(strategy: BitRateStrategy)

  type Settings = map<SettingKey, SettingValue>
}
