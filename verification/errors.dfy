/** The error cases the compression pipeline raises
    (Sources/Core/Errors/AudioRecorderError.swift and the controller's own
    error enum in Sources/Core/Processing/CompressionController.swift).
    Only the case tags matter to the pipeline's logic; the free-text reasons
    some cases carry are replaced by a `Reason` tag naming which check
    raised them, and the user-facing descriptions are not modelled. */
module Errors {
  import opened Ints
  import CompressionModels

  type Format = CompressionModels.Format

  datatype PermissionType = ScreenRecording | FileSystem | Accessibility | Microphone

  /** Which check produced a `compressionConfigurationInvalid` or
      `compressionNotSupported` error. */
  datatype Reason =
    | Mp3MonoOrStereoOnly
    | Mp3VbrNotSupported
    | BitrateOutOfRange
    | SampleRateNotAllowed
    | LossyEngineAacMp3Only
    | UnsupportedLossyFormat
    | EncoderRequiresAac
    | EncoderRequiresMp3
    | AacChannelRange
    | EncoderNotInitialized
    | AudioFileNotCreated
    | MissingConfig
    | Mp3WritingNotSupported
    | Other

  datatype AudioRecorderError =
    | PermissionDenied(permission: PermissionType)
    | ProcessNotFound
    | AudioCaptureFailed
    | FileSystemError
    | InvalidRegex
    | ConfigurationError
    | AlacNotSupported
    | AlacEncodingFailed
    | CompressionNotSupported(notSupported: Reason)
    | CompressionConfigurationInvalid(invalid: Reason)
    | CompressionEncodingFailed
  {
    /** One of the three compression-specific cases. */
    predicate IsCompression() {
      CompressionNotSupported? || CompressionConfigurationInvalid? || CompressionEncodingFailed?
    }
  }

  /** `CompressionControllerError`. */
  datatype ControllerError =
    | EngineNotInitialized
    | InvalidBitrate(bitrate: UInt32)
    | InvalidSampleRate(sampleRate: real)
    | VbrNotSupported(format: Format)
    | MultiChannelNotSupported(format: Format, channels: UInt32)

  /** Anything a controller operation may throw: its own errors, the
      recorder errors raised by the engines and encoders below it, and an
      error from the platform audio-file layer, whose kind is not modelled. */
  datatype PipelineError =
    | Controller(controllerError: ControllerError)
    | Recorder(recorderError: AudioRecorderError)
    | Platform
}
