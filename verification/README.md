# audiocap-recorder core, in Dafny

This project models the core of audiocap-recorder, a macOS command-line
recorder. The recorder captures a process's audio and, optionally,
auxiliary input devices, and writes them to CAF, AAC, MP3 or ALAC files.
The model covers eight parts of that core:

- **The ring buffer** (`RingBuffers`) queues captured samples for each
  source. Writes that do not fit are truncated, and reads past the data
  are padded with silence.
- **The channel registry** (`InputDevices`) maps input devices to the
  output channels 3 to 8, and updates that map when a device connects or
  disconnects.
- **The compression pipeline:**
  - the format and configuration models (`CompressionModels`,
    `AudioSettings`, `Errors`);
  - the compatibility validator and sanitiser (`CompressionFallback`);
  - the controller that validates a configuration and builds an engine
    (`CompressionControllers`);
  - the lossy engine with its background encode queue
    (`LossyEngines`);
  - the AAC and MP3 encoders (`AacEncoder`, `Mp3Encoder`);
  - ALAC settings (`AlacConfiguration`);
  - the post-recording validators (`CompressionValidation`);
  - the advisor and auto-selector (`CompressionAdvisor`,
    `CompressionAutoSelector`);
  - transcoding chains (`CompressionChaining`).
- **The buffer pool** (`BufferPools`) lends out the copies that the lossy
  engine queues.
- **The adaptive bitrate suggestion** (`AdaptiveBitrate`).
- **The logger** (`Logging`).

Every component is a value: each operation takes a state and returns the
next one. A throwing Swift function returns a `Result` or an `Outcome`. A
throwing mutator returns the state after the call together with the error
it threw, if any (an `Attempt`), or together with its result (an
`Answer`), because Swift keeps what a mutator assigned before it threw.

Some things the source gets from the platform are parameters here:

- whether an audio file could be opened;
- the identity of a freshly allocated buffer;
- file existence and size;
- the iteration order of a Swift dictionary;
- the transcoder.

Swift's fixed-width integers are unbounded integers in the model, with an
explicit range predicate. Where Swift traps on overflow, the trap is a
precondition. Where Swift wraps (`&+=`), the model writes out the
wrap-around. `Float` and `Double` become exact reals.

Several properties are proved about the model:

- **Channel registry.**
  - Assignment keeps every still-present device on its channel.
  - Newcomers, in ascending uid order, fill the lowest free channels.
  - Assignment is idempotent and independent of the order of the device
    list.
  - `currentChannelAssignments` inverts the channel map.
  - A device that leaves and comes back can lose its channel to a
    newcomer.
- **Compression pipeline.**
  - Sanitising always yields a configuration that passes validation. A
    valid configuration is left unchanged.
  - The controller's validator and the fallback manager's validator
    accept exactly the same configurations, though they report errors in
    different orders.
  - The lossy engine's queue writes the buffers in arrival order and
    returns every pool buffer. After finalisation the engine lends out
    nothing, so the next buffer is queued again.
  - The auto-selector's configuration always validates. It initialises
    the controller exactly when one to eight channels are requested.
- **Other components.**
  - A transcoding chain threads each output into the next step and names
    every output distinctly.
  - The bitrate suggestion is always a common step. It is the step
    nearest the smoothed value, rounded and clamped to the allowed range,
    and for quiet or noisy content the smaller of that step and 128. It is
    monotone in the base bitrate.

## Model

| member | source | states |
|---|---|---|
| RingBuffers.Init | Sources/Core/Capture/RingBuffer.swift:10-13 | a new buffer of the given capacity is valid, holds no unread frames and starts writing at slot 0 |
| RingBuffers.Write | Sources/Core/Capture/RingBuffer.swift:15-27 | the unread contents become the old contents followed by as many of the new frames as fit in the free space; nothing unread is overwritten, and a zero-length or full write changes nothing |
| RingBuffers.Read | Sources/Core/Capture/RingBuffer.swift:29-47 | returns the oldest min(requested, available) unread frames in FIFO order, pads the rest of the output with zeros, and leaves exactly the remaining frames unread |
| RingBuffers.CopyUnread | Sources/Core/Capture/RingBuffer.swift:33-38 | the copy loop delivers the oldest unread frames in queue order, wrapping at the capacity |
| RingBuffers.PadWithSilence | Sources/Core/Capture/RingBuffer.swift:40-43 | the padding loop keeps the copied frames and fills every remaining output slot with silence |
| RingBuffers.ConsumedContents | Sources/Core/Capture/RingBuffer.swift:45 | lowering the unread count without moving the cursor drops exactly the oldest frames from the queue |
| RingBuffers.Reset | Sources/Core/Capture/RingBuffer.swift:49-55 | after a reset nothing is unread and the next write starts at slot 0 |
| RingBuffers.ReadAfterReset | Sources/Core/Capture/RingBuffer.swift:40-55 | reading right after a reset yields only silence and reports zero frames read |
| RingBuffers.WriteThenRead | Sources/Core/Capture/RingBuffer.swift:15-47 | a read after a write into a fresh buffer returns the written prefix followed by silence: the round trip of the queue |
| RingBuffers.WrittenContents | Sources/Core/Capture/RingBuffer.swift:21-26 | filling the next free slots in cursor order appends exactly those frames to the unread contents |
| RingBuffers.FreeSlotIsFresh | Sources/Core/Capture/RingBuffer.swift:21-23 | a free slot never aliases an unread slot or an earlier free slot, so a write cannot clobber data |
| InputDevices.HandlerDevice | Sources/Core/InputDevices/InputDeviceManager.swift:39-46 | the device a handler builds carries the uid, name and connection flag it was given and no channel |
| InputDevices.FreeChannels | Sources/Core/InputDevices/InputDeviceManager.swift:96-103 | the channels still free are exactly the candidates not already used |
| InputDevices.FreeChannelsIncreasing | Sources/Core/InputDevices/InputDeviceManager.swift:96-111 | free channels are handed out in ascending order |
| InputDevices.FreeAuxCount | Sources/Core/InputDevices/InputDeviceManager.swift:96-97 | with u of channels 3..8 in use, exactly 6 - u remain free |
| InputDevices.Pending | Sources/Core/InputDevices/InputDeviceManager.swift:100-103 | the devices waiting for a channel are exactly the listed uids without a kept channel, in ascending uid order |
| InputDevices.Kept | Sources/Core/InputDevices/InputDeviceManager.swift:93-95 | only listed devices keep their channel, and they keep the same one |
| InputDevices.AssignLoopValid | Sources/Core/InputDevices/InputDeviceManager.swift:105-111 | the assignment loop never gives a channel outside 3..8 and never gives one channel twice |
| InputDevices.AssignLoopClosedForm | Sources/Core/InputDevices/InputDeviceManager.swift:105-111 | the i-th waiting device receives the i-th free channel, and devices beyond the free channels receive none |
| InputDevices.AssignChannels | Sources/Core/InputDevices/InputDeviceManager.swift:91-123 | the returned list has the input's order and length and differs only in each device's channel, which is its entry in the new map |
| InputDevices.AssignChannelsValid | Sources/Core/InputDevices/InputDeviceManager.swift:91-123 | assignment preserves the channel-map invariant: channels in 3..8 and pairwise distinct |
| InputDevices.AssignChannelsKeepsAndForgets | Sources/Core/InputDevices/InputDeviceManager.swift:93-95 | a listed device keeps its previous channel, and an unlisted uid loses its entry |
| InputDevices.AssignChannelsNewcomers | Sources/Core/InputDevices/InputDeviceManager.swift:100-111 | newcomers sorted by uid take the lowest free channels in ascending order; any surplus stays unassigned |
| InputDevices.AssignChannelsSurplusLargest | Sources/Core/InputDevices/InputDeviceManager.swift:100-111 | a newcomer left without a channel sorts after every newcomer that received one |
| InputDevices.AssignChannelsCount | Sources/Core/InputDevices/InputDeviceManager.swift:89-111 | min(number of devices, 6) devices hold a channel after assignment |
| InputDevices.AssignChannelsOrderIndependent | Sources/Core/InputDevices/InputDeviceManager.swift:91-111 | the channel map does not depend on the order of the device list, and so not on dictionary iteration order |
| InputDevices.AssignChannelsIdempotent | Sources/Core/InputDevices/InputDeviceManager.swift:91-123 | assigning the same list twice changes neither the registry nor the returned list |
| InputDevices.AssignChannelsPreservesValid | Sources/Core/InputDevices/InputDeviceManager.swift:114-121 | assignment preserves the registry invariant: devices filed under their own uid and a valid channel map |
| InputDevices.RefreshSpec | Sources/Core/InputDevices/InputDeviceManager.swift:114-121 | after the refresh each updated device is filed under its uid, and other entries are unchanged |
| InputDevices.RefreshIdempotent | Sources/Core/InputDevices/InputDeviceManager.swift:114-121 | refreshing twice with the same list equals refreshing once |
| InputDevices.FirstWithUid | Sources/Core/InputDevices/InputDeviceManager.swift:49 | finds a device with the uid exactly when one is listed |
| InputDevices.DevicesInOrderUids | Sources/Core/InputDevices/InputDeviceManager.swift:48 | listing the dictionary's values in a key order yields devices with exactly those uids |
| InputDevices.OnConnectValid | Sources/Core/InputDevices/InputDeviceManager.swift:47-48 | a connect keeps the registry valid and adds exactly the new uid to the device map |
| InputDevices.OnConnectNotifies | Sources/Core/InputDevices/InputDeviceManager.swift:48-51 | the delegate hears of a connect exactly when the device got a channel, and hears that channel |
| InputDevices.OnConnectNewcomer | Sources/Core/InputDevices/InputDeviceManager.swift:47-51 | when all connected devices hold channels, a newcomer gets the lowest free channel and nothing else changes |
| InputDevices.OnDisconnectForgets | Sources/Core/InputDevices/InputDeviceManager.swift:56-60 | a disconnect keeps the registry valid and removes the uid from both maps |
| InputDevices.OnDisconnectKeepsOthers | Sources/Core/InputDevices/InputDeviceManager.swift:56-64 | every other device keeps its channel, and the delegate hears the departed device's former channel if it had one |
| InputDevices.OnDisconnectAllAssigned | Sources/Core/InputDevices/InputDeviceManager.swift:56-60 | when every device held a channel, the new map is the old one without the departed uid |
| InputDevices.AllAssignedMap | Sources/Core/InputDevices/InputDeviceManager.swift:91-123 | when exactly the listed uids hold channels, an assignment leaves the channel map unchanged |
| InputDevices.AssignChannelsKeys | Sources/Core/InputDevices/InputDeviceManager.swift:114-121 | after an assignment the device map holds the earlier devices plus every listed one |
| InputDevices.ReconnectLosesFormerChannel | Sources/Core/InputDevices/InputDeviceManager.swift:36-64 | a device that leaves, whose channel a newcomer then takes, is not given that channel back when it reconnects; the registry has no sticky memory |
| InputDevices.CurrentChannelAssignmentsInverse | Sources/Core/InputDevices/InputDeviceManager.swift:74-84 | the map by channel inverts the map by uid over connected devices, each entry stamped with its channel |
| CompressionModels.FormatTable | Sources/Core/Processing/CompressionModels.swift:47-56 | AAC and MP3 are the lossy formats; AAC and ALAC share the m4a extension; MP3 is mp3; uncompressed is caf |
| CompressionModels.DisplayNameInjective | Sources/Core/Processing/CompressionModels.swift:38-45 | no two formats share a display name |
| CompressionModels.QualityBitrateMonotone | Sources/Core/Processing/CompressionModels.swift:65-72 | the quality presets' bitrates lie within the lossy range 64..320, are distinct, and rise with the preset |
| CompressionFallback.ValidateCompatibility | Sources/Core/Processing/CompressionFallbackManager.swift:20-40 | passes exactly the compatible configurations: a lossy bitrate in 64..320, a lossy rate in {22050, 44100, 48000}, MP3 mono or stereo without VBR; the MP3 checks come first |
| CompressionFallback.NearestRate | Sources/Core/Processing/CompressionFallbackManager.swift:50-53 | the snapped rate is an allowed rate, no allowed rate is closer, and ties go to the first one listed |
| CompressionFallback.Sanitize | Sources/Core/Processing/CompressionFallbackManager.swift:43-62 | clamps the lossy bitrate, snaps the rate to the nearest allowed one, and limits MP3 to stereo without VBR; format, quality and non-lossy configurations are untouched |
| CompressionFallback.SanitizeMakesCompatible | Sources/Core/Processing/CompressionFallbackManager.swift:20-62 | every sanitised configuration passes the compatibility check |
| CompressionFallback.SanitizeFixesCompatible | Sources/Core/Processing/CompressionFallbackManager.swift:43-62 | a configuration that is already compatible is returned unchanged |
| CompressionFallback.SanitizeIdempotent | Sources/Core/Processing/CompressionFallbackManager.swift:43-62 | sanitising twice is sanitising once |
| CompressionFallback.SanitizeMinimalChange | Sources/Core/Processing/CompressionFallbackManager.swift:45-59 | a value already in range is kept, and an out-of-range bitrate goes to the nearer bound |
| CompressionFallback.NearestRateExamples | Sources/Core/Processing/CompressionFallbackManager.swift:50-53 | 8 kHz snaps to 22050, 96 kHz to 48000, and the midpoints go to the lower rate |
| CompressionFallback.RecoverySuggestion | Sources/Core/Processing/CompressionFallbackManager.swift:65-76 | each compression error case has its own guidance text, and every other error gets the empty string |
| CompressionFallback.IncompatibleSuggestsConfiguration | Sources/Core/Processing/CompressionFallbackManager.swift:20-40 | an incompatible configuration is rejected with a configuration error, whose guidance is the configuration advice |
| CompressionControllers.ValidateConfiguration | Sources/Core/Processing/CompressionController.swift:51-72 | passes exactly the compatible configurations; the bitrate check is reported before the MP3 checks |
| CompressionControllers.MakeEngine | Sources/Core/Processing/CompressionController.swift:74-85 | AAC and MP3 get the lossy engine, which fails exactly when its encoder refuses the channel count; ALAC gets the stub and uncompressed gets the passthrough |
| CompressionControllers.Initialize | Sources/Core/Processing/CompressionController.swift:8-12 | a rejected configuration changes nothing; an accepted one is stored even if engine construction then fails, and the engine is replaced only on success |
| CompressionControllers.CompatibleConfiguration | Sources/Core/Processing/CompressionController.swift:18-26 | the stored configuration is the input itself when that is compatible and its sanitised form otherwise; either way it validates and keeps the format |
| CompressionControllers.InitializeWithCompatibility | Sources/Core/Processing/CompressionController.swift:15-30 | stores the input if compatible and its sanitised form otherwise, and succeeds exactly when the engine for that configuration can be built, keeping the old engine if not |
| CompressionControllers.ProcessAudioBuffer | Sources/Core/Processing/CompressionController.swift:32-35 | without a lossy engine the controller is unchanged; with one, the engine processes the buffer |
| CompressionControllers.FinalizeCompression | Sources/Core/Processing/CompressionController.swift:37-42 | fails without an engine; the passthrough reports zeros and the ALAC stub echoes its configuration, both leaving the controller unchanged; the lossy engine is kept with its queue drained, and succeeds exactly when its encoder is configured |
| CompressionControllers.CreateOutputFile | Sources/Core/Processing/CompressionController.swift:44-49 | fails without an engine; otherwise the engine opens its file, and the lossy engine keeps its encoder's state after the attempt even when the open fails |
| CompressionControllers.RunQueued | Sources/Core/Processing/LossyCompressionEngine.swift:51-55 | one step of the background encode queue: a lossy engine runs its oldest job, any other controller is unchanged |
| CompressionControllers.ValidatorsAgree | Sources/Core/Processing/CompressionController.swift:51-72 | the controller and the fallback manager accept the same configurations |
| CompressionControllers.ValidatorsReportDifferently | Sources/Core/Processing/CompressionController.swift:53-66 | a surround MP3 configuration at 32 kbps is a bitrate error to the controller but a channel error to the fallback manager |
| CompressionControllers.ValidatedEngineFailures | Sources/Core/Processing/CompressionController.swift:74-85 | after validation, engine construction fails only for zero channels or AAC above eight |
| CompressionControllers.InitializeThenFinalize | Sources/Core/Processing/CompressionController.swift:8-42 | finalising right after a successful initialise reports the configured format, bitrate and channel count (zeros for uncompressed) |
| CompressionControllers.InitializeKeepsStaleEngine | Sources/Core/Processing/CompressionController.swift:8-12 | an engine failure leaves the new configuration beside the previous engine |
| CompressionControllers.NoEngineGuards | Sources/Core/Processing/CompressionController.swift:32-49 | without an engine, processing is a no-op and finalising or creating the file fails with engineNotInitialized |
| CompressionControllers.CompatibilityPathRepairs | Sources/Core/Processing/CompressionController.swift:15-30 | the compatibility path always stores a valid configuration and agrees with initialize on valid ones |
| CompressionControllers.OperationsKeepInv | Sources/Core/Processing/CompressionController.swift:8-49 | every controller operation, and every step of the queue, keeps the lent pool buffers equal to the queued copies |
| CompressionControllers.FinalizeThenProcessQueues | Sources/Core/Processing/CompressionController.swift:32-42 | after finalisation a buffer whose shape has a pool buffer, or can get one, is queued again: the copies lent before are all back |
| LossyEngines.MakeLossyConfig | Sources/Core/Processing/LossyCompressionEngine.swift:125-164 | only AAC and MP3 convert; a preset maps to its quality, otherwise the bitrate band decides; MP3 is forced to at most stereo and no VBR |
| LossyEngines.Init | Sources/Core/Processing/LossyCompressionEngine.swift:19-31 | construction succeeds exactly for AAC with 1-8 channels or MP3 with at least one channel, reporting which check failed, and starts with nothing counted, queued or written |
| LossyEngines.CreateOutputFile | Sources/Core/Processing/LossyCompressionEngine.swift:33-37 | opening the output succeeds exactly when the encoder is configured and the file opens; the queue, pool and counter are untouched either way; a successful open starts a new, empty file, a failed one keeps the current file, and the file is open afterwards if it was before or the open succeeded |
| LossyEngines.ProcessAudioBuffer | Sources/Core/Processing/LossyCompressionEngine.swift:39-57 | the byte counter advances by channels x frames x 2 with 64-bit wrap-around; a rented copy is queued, and when the pool has none the buffer is dropped |
| LossyEngines.RunNext | Sources/Core/Processing/LossyCompressionEngine.swift:51-55 | the oldest queued copy is encoded (if the file is open) and its pool buffer is returned |
| LossyEngines.Drain | Sources/Core/Processing/LossyCompressionEngine.swift:59-61 | waiting for the queue empties it and leaves configuration, counters and file state as they were |
| LossyEngines.FinalizeCompression | Sources/Core/Processing/LossyCompressionEngine.swift:59-62 | the engine comes back with an empty queue and its configuration, counter and file state kept; the statistics exist exactly when the encoder is configured and report its format, bitrate and channel count |
| LossyEngines.InferQualityMatchesAacVbrHint | Sources/Core/Processing/LossyCompressionEngine.swift:136-140 | the engine's inferred quality bands equal the AAC encoder's VBR hint bands |
| LossyEngines.InitConfigAccepted | Sources/Core/Processing/LossyCompressionEngine.swift:29-30 | the converted configuration is one the chosen encoder accepts |
| LossyEngines.ProcessKeepsInv | Sources/Core/Processing/LossyCompressionEngine.swift:39-57 | processing preserves the engine invariant: the pool stays valid, and the buffers it has lent out are exactly the queued copies, one per job |
| LossyEngines.RunNextKeepsInv | Sources/Core/Processing/LossyCompressionEngine.swift:51-55 | running a queued job preserves the engine invariant |
| LossyEngines.DrainWritesInOrder | Sources/Core/Processing/LossyCompressionEngine.swift:39-61 | after draining, every pool buffer is back and the current file has gained the queued samples in arrival order (nothing if no file is open) |
| LossyEngines.ReopenThenDrainWritesOnlyQueued | Sources/Core/Processing/LossyCompressionEngine.swift:33-61 | after a successful re-open and a drain, the file holds exactly the buffers queued at the re-open and nothing written to the earlier file |
| LossyEngines.BytesProcessedCounts | Sources/Core/Processing/LossyCompressionEngine.swift:43-44 | after many buffers the counter equals the total booked bytes modulo 2^64 |
| LossyEngines.FinalizeReleasesCopies | Sources/Core/Processing/LossyCompressionEngine.swift:51-61 | after finalisation nothing is lent out, the invariant holds, and an open file has gained every queued buffer in arrival order |
| LossyEngines.FinalizeThenProcessQueues | Sources/Core/Processing/LossyCompressionEngine.swift:39-61 | a buffer arriving after finalisation is queued whenever its shape has a pool buffer or one can be allocated |
| AacEncoder.Initialize | Sources/Core/Processing/AACEncoder.swift:13-21 | accepts exactly AAC with 1-8 channels, checking the format first |
| AacEncoder.CreateSettings | Sources/Core/Processing/AACEncoder.swift:113-130 | the settings carry AAC, the channel count and the rate; VBR adds a bitrate-band quality hint and CBR adds the bitrate in bit/s |
| AacEncoder.CreateAudioFile | Sources/Core/Processing/AACEncoder.swift:23-42 | fails unchanged before initialisation; otherwise records the configuration's settings, even when the open then fails with a platform error; a successful open replaces the file by a new, empty one, a failed one keeps the current file, and the file is open exactly when it was or the open succeeded |
| AacEncoder.Encode | Sources/Core/Processing/AACEncoder.swift:44-66 | appends the buffer to the file exactly when one is open |
| AacEncoder.Finalize | Sources/Core/Processing/AACEncoder.swift:68-97 | reports the configuration's bitrate, rate and channels, and a VBR average and peak only under VBR |
| AacEncoder.EstimatedFileSize | Sources/Core/Processing/AACEncoder.swift:99-104 | zero when unconfigured, for any duration; otherwise the truncated duration times the bytes per second |
| AacEncoder.CapabilitiesMatchInitialize | Sources/Core/Processing/AACEncoder.swift:108-110 | the advertised maximum channel count is the one initialisation enforces |
| AacEncoder.EstimateMonotone | Sources/Core/Processing/AACEncoder.swift:99-104 | the size estimate grows with the duration |
| AacEncoder.ReopenStartsEmptyFile | Sources/Core/Processing/AACEncoder.swift:23-28 | a re-open replaces the file: after open, write x, re-open, write y, the file holds only y |
| AacEncoder.RetryAfterFailedOpen | Sources/Core/Processing/AACEncoder.swift:23-28 | a failed open already records the settings, and retrying ends exactly where a first successful open does |
| Mp3Encoder.Initialize | Sources/Core/Processing/MP3Encoder.swift:11-22 | accepts exactly MP3, mono or stereo, without VBR, naming the first failed check |
| Mp3Encoder.CreateSettings | Sources/Core/Processing/MP3Encoder.swift:106-116 | the settings carry MP3, at most two channels, the rate and the bitrate in bit/s |
| Mp3Encoder.CreateAudioFile | Sources/Core/Processing/MP3Encoder.swift:24-42 | fails unchanged before initialisation; otherwise records the settings, even when the open then fails, which is reported as not supported; a successful open replaces the file by a new, empty one, a failed one keeps the current file, and the file is open exactly when it was or the open succeeded |
| Mp3Encoder.Encode | Sources/Core/Processing/MP3Encoder.swift:44-65 | appends the buffer to the file exactly when one is open |
| Mp3Encoder.Finalize | Sources/Core/Processing/MP3Encoder.swift:67-90 | reports the configuration with zero duration and size and no VBR figures |
| Mp3Encoder.EstimatedFileSize | Sources/Core/Processing/MP3Encoder.swift:92-97 | zero when unconfigured, for any duration; otherwise the truncated duration times the bytes per second |
| Mp3Encoder.CapabilitiesMatchInitialize | Sources/Core/Processing/MP3Encoder.swift:101-103 | the advertised maximum channel count is the one initialisation enforces |
| Mp3Encoder.InitializedSettingsKeepChannels | Sources/Core/Processing/MP3Encoder.swift:106-116 | for an accepted configuration the settings' channel count is the configured one |
| Mp3Encoder.ReopenStartsEmptyFile | Sources/Core/Processing/MP3Encoder.swift:24-33 | a re-open replaces the file: after open, write x, re-open, write y, the file holds only y |
| Mp3Encoder.RetryAfterFailedOpen | Sources/Core/Processing/MP3Encoder.swift:24-33 | a failed open already records the settings, and retrying ends exactly where a first successful open does |
| AlacConfiguration.Validate | Sources/Core/Processing/ALACConfiguration.swift:41-55 | accepts exactly 1-8 channels, 8-192 kHz and 16 or 24 bits, checking channels, then rate, then depth, and returns the configuration unchanged |
| AlacConfiguration.AlacSettings | Sources/Core/Processing/ALACConfiguration.swift:58-68 | settings exist exactly for valid configurations and declare Apple Lossless |
| AlacConfiguration.AlacFormatSettings | Sources/Core/Processing/ALACConfiguration.swift:72-79 | yields settings exactly when validation passes |
| AlacConfiguration.PcmClientFormat | Sources/Core/Processing/ALACConfiguration.swift:82-89 | for valid configurations, interleaved 16-bit PCM at the configured rate and channel count |
| AlacConfiguration.DefaultSupported | Sources/Core/Processing/ALACConfiguration.swift:10-18 | the default configuration validates |
| AlacConfiguration.SettingsRoundTrip | Sources/Core/Processing/ALACConfiguration.swift:58-68 | the configuration can be read back from its settings, and both quality keys agree |
| AlacConfiguration.BuildersAgree | Sources/Core/Processing/ALACConfiguration.swift:41-89 | validation, the settings and the client format accept the same configurations |
| AlacConfiguration.ValidationOrderExamples | Sources/Core/Processing/ALACConfiguration.swift:41-55 | a configuration breaking several limits reports the first in check order |
| CompressionValidation.Report | Sources/Core/Processing/CompressionValidation.swift:16-35 | a report is valid exactly when it lists no issue |
| CompressionValidation.ValidateFileIntegrity | Sources/Core/Processing/CompressionValidation.swift:16-35 | valid exactly when the file exists, has the format's extension in any case, is not empty, and (AAC only) opens; each issue appears exactly when its check fails |
| CompressionValidation.ValidateMetadataConsistency | Sources/Core/Processing/CompressionValidation.swift:37-52 | valid exactly when start precedes end, duration and size are non-negative, and lossy formats carry a bitrate; one issue per broken rule |
| CompressionValidation.ValidateEfficiency | Sources/Core/Processing/CompressionValidation.swift:54-67 | flags at most one deviation, and only when its ratio exceeds the tolerance; no positive expectation means valid |
| CompressionValidation.DefaultToleranceExample | Sources/Core/Processing/CompressionValidation.swift:54-67 | with the default tolerance 0.35, 200000 bytes for ten seconds at 128 kbps (expected 160000) is valid, and a tolerance of 0.2 rejects it |
| CompressionValidation.EfficiencyWithoutDivision | Sources/Core/Processing/CompressionValidation.swift:54-67 | the size is flagged exactly when it lies further from a positive expected size than tolerance x expected |
| CompressionValidation.ValidateAverageBitrate | Sources/Core/Processing/CompressionValidation.swift:69-80 | only VBR statistics with an average and a positive duration are checked, and they pass exactly within 64 kbps of the observed average |
| Strings.LowercasedNoCapitals | Sources/Core/Processing/CompressionValidation.swift:21-22 | lower-casing leaves text without capital letters unchanged, so the lower-case extension table needs no conversion |
| Strings.LowercasedIdempotent | Sources/Core/Processing/CompressionValidation.swift:21-22 | lower-casing twice is lower-casing once |
| CompressionValidation.OwnExtensionMatches | Sources/Core/Processing/CompressionValidation.swift:21-24 | a file named with its format's extension, in any letter case, passes the extension check |
| CompressionValidation.ExactSizePasses | Sources/Core/Processing/CompressionValidation.swift:54-67 | a size equal to the prediction passes for any non-negative tolerance |
| CompressionValidation.Mp3StatisticsPass | Sources/Core/Processing/MP3Encoder.swift:67-90 | the MP3 encoder's statistics pass every statistics check, since they predict and report nothing |
| CompressionAdvisor.EstimateSizeBytes | Sources/Core/Processing/CompressionAdvisor.swift:32-37 | at least the 1024-byte overhead, exactly that for non-positive durations, and never more than the payload plus overhead |
| CompressionAdvisor.EstimateMonotone | Sources/Core/Processing/CompressionAdvisor.swift:32-37 | the estimate grows with bitrate and duration and ignores the format |
| CompressionAdvisor.Compare | Sources/Core/Processing/CompressionAdvisor.swift:39-50 | one AAC entry per bitrate (with an MP3 entry after it if asked), bitrates ascending, each from the input, each with its estimate |
| CompressionAdvisor.Recommend | Sources/Core/Processing/CompressionAdvisor.swift:52-106 | MP3 exactly when compatibility is required for mono or stereo; a warning exactly for the multi-channel case; the content table's bitrate and rate; the closing note matches the format |
| CompressionAdvisor.Mp3GuardNeverFires | Sources/Core/Processing/CompressionAdvisor.swift:59-67 | MP3 is only chosen for at most two channels, so the later MP3 guard never changes the format |
| CompressionAdvisor.AdviceInRange | Sources/Core/Processing/CompressionAdvisor.swift:69-92 | every recommendation is 96, 128 or 192 kbps at 44.1 or 48 kHz |
| CompressionAdvisor.NumbersIgnoreFormat | Sources/Core/Processing/CompressionAdvisor.swift:69-92 | the bitrate and rate depend only on content and duration |
| CompressionAdvisor.LongFormMonotone | Sources/Core/Processing/CompressionAdvisor.swift:82-91 | for long-form content a longer recording never gets a higher bitrate |
| CompressionAutoSelector.SelectConfiguration | Sources/Core/Processing/CompressionAutoSelector.swift:21-28 | takes the advisor's format, bitrate and rate, VBR exactly for AAC, the requested channels, and multi-channel above stereo |
| CompressionAutoSelector.SelectedIsCompatible | Sources/Core/Processing/CompressionAutoSelector.swift:21-28 | every selected configuration passes both validators |
| CompressionAutoSelector.SelectedInitializes | Sources/Core/Processing/CompressionAutoSelector.swift:21-28 | the controller accepts the selection exactly when one to eight channels are requested |
| CompressionChaining.ChainExtension | Sources/Core/Processing/CompressionChaining.swift:25-30 | the chain's extension table agrees with each format's own file extension |
| CompressionChaining.RunChain | Sources/Core/Processing/CompressionChaining.swift:21-37 | at most one transcode per step; on success one output per step |
| CompressionChaining.ChainPlan | Sources/Core/Processing/CompressionChaining.swift:24-34 | step k transcodes the previous step's output (the input first) with step k's parameters into chain-step-k |
| CompressionChaining.FailureStops | Sources/Core/Processing/CompressionChaining.swift:32 | the first failing transcode ends the chain with its error, and no later step runs |
| CompressionChaining.AllSucceed | Sources/Core/Processing/CompressionChaining.swift:21-37 | when every transcode succeeds the chain returns one output per step |
| CompressionChaining.StepNamesDistinct | Sources/Core/Processing/CompressionChaining.swift:31 | different step indices give different file names |
| CompressionChaining.OutputsDistinct | Sources/Core/Processing/CompressionChaining.swift:31 | no two steps write the same output path |
| BufferPools.Rent | Sources/Core/Processing/BufferPool.swift:21-40 | only the requested key's list can change, and a failed rent changes nothing |
| BufferPools.RentCases | Sources/Core/Processing/BufferPool.swift:24-39 | reuses the first free buffer, else appends a new one below eight, else fails; a new key gets a one-buffer list |
| BufferPools.GiveBack | Sources/Core/Processing/BufferPool.swift:42-51 | only the buffer's own key's list can change |
| BufferPools.RentValid | Sources/Core/Processing/BufferPool.swift:21-40 | renting preserves the pool invariant: at most eight per key, keys match, identities distinct |
| BufferPools.GiveBackValid | Sources/Core/Processing/BufferPool.swift:42-51 | giving back preserves the pool invariant |
| BufferPools.RentMarksInUse | Sources/Core/Processing/BufferPool.swift:24-38 | a rented buffer was not lent before, and it is now exactly the one new lent buffer |
| BufferPools.GiveBackFrees | Sources/Core/Processing/BufferPool.swift:46-50 | giving back removes exactly that buffer from the lent set; an unknown buffer changes nothing |
| BufferPools.RentThenGiveBack | Sources/Core/Processing/BufferPool.swift:21-51 | rent followed by giveBack restores the set of lent buffers |
| BufferPools.NoneInUseRents | Sources/Core/Processing/BufferPool.swift:24-38 | with nothing lent out, a rent succeeds whenever the shape has a buffer or a new one can be allocated |
| AdaptiveBitrate.Score | Sources/Core/Processing/AdaptiveBitrateController.swift:88-91 | the complexity score lies in [0, 1] |
| AdaptiveBitrate.NearestStep | Sources/Core/Processing/AdaptiveBitrateController.swift:100-106 | the snapped value is one of the common steps |
| AdaptiveBitrate.NearestStepIsNearest | Sources/Core/Processing/AdaptiveBitrateController.swift:100-106 | no step is closer, and ties go to the lower step |
| AdaptiveBitrate.NearestStepMonotone | Sources/Core/Processing/AdaptiveBitrateController.swift:100-106 | a larger input never snaps to a smaller step |
| AdaptiveBitrate.Target | Sources/Core/Processing/AdaptiveBitrateController.swift:92-93 | the target lies between the minimum and maximum bitrate |
| AdaptiveBitrate.Snapped | Sources/Core/Processing/AdaptiveBitrateController.swift:98 | the result lies in [min, max] and is the rounded smoothed value itself whenever that already lies there; the `UInt32` conversion is required not to trap |
| AdaptiveBitrate.UncappedStep | Sources/Core/Processing/AdaptiveBitrateController.swift:92-106 | the step before the caps is a common step, and the rounded smoothed value it is snapped from always fits `UInt32`, so the conversion never traps |
| AdaptiveBitrate.SuggestBitrate | Sources/Core/Processing/AdaptiveBitrateController.swift:85-111 | always a common step: the uncapped step, and for quiet or noisy content the smaller of that step and 128, so the caps never raise it; the counter advances by one |
| AdaptiveBitrate.SuggestMonotoneInBase | Sources/Core/Processing/AdaptiveBitrateController.swift:94-110 | a higher base bitrate never lowers the suggestion |
| AdaptiveBitrate.SilentExample | Sources/Core/Processing/AdaptiveBitrateController.swift:108-109 | silence at base 192, in the default 64..320 kbps range, is capped to 128 |
| Logging.NewLogger | Sources/Core/Logging/Logger.swift:16-21 | a new logger reports the verbosity it was given and has written nothing |
| Logging.Info | Sources/Core/Logging/Logger.swift:23-25 | appends the message unchanged, keeping every earlier line |
| Logging.Warn | Sources/Core/Logging/Logger.swift:27-29 | appends one line: the warning prefix followed by exactly the message |
| Logging.Error | Sources/Core/Logging/Logger.swift:31-33 | appends one line: the error prefix followed by exactly the message |
| Logging.Debug | Sources/Core/Logging/Logger.swift:35-38 | in verbose mode appends the debug prefix and the message; otherwise changes nothing |
| Logging.Run | Sources/Core/Logging/Logger.swift:23-38 | a sequence of calls only appends, at most one line per call |
| Logging.RunCountsLines | Sources/Core/Logging/Logger.swift:23-38 | every call writes one line, except debug calls on a quiet logger, which write none |
| Logging.VerbosityOnlyAffectsDebug | Sources/Core/Logging/Logger.swift:35-38 | without debug calls, quiet and verbose loggers write the same lines |

## Left out

- Audio capture, file I/O, the `AVFoundation` encoders and converters, and `AVAudioFormat` construction are platform calls. The model takes their outcomes as inputs: whether a file opens, a new buffer's identity, file existence and size, and whether an AAC file reads back.
- Locks, dispatch queues and notification observers are not modelled. Each operation is atomic. The lossy engine's serial queue is an explicit list of pending jobs. `CompressionControllers.RunQueued` runs the oldest one, at whatever point the caller chooses, and finalising runs them all.
- `Float` and `Double` are exact reals. NaN, infinities and rounding error are not modelled.
- The adaptive bitrate controller's `analyze` (FFT, RMS, spectral measures) is not modelled. Its metrics are inputs to `SuggestBitrate`.
- `enumerateInputDevices`, `startMonitoring` and `stopMonitoring` are platform plumbing and are not modelled. The dictionary updates that the connect and disconnect handlers perform are modelled, as `OnConnect` and `OnDisconnect`.
- Swift dictionary iteration order is unspecified. It is a parameter: any duplicate-free listing of the keys. `DevicesInOrder` returns an empty list for an order that lists missing keys.
- Channel memory: the source keeps no memory of a departed device's channel. A comment in Tests/AudioCap4Tests/InputDeviceManagerTests.swift:98 says a reconnecting device's previous channel "should be restored if free", but the code gives a reconnecting device the lowest free channel like any newcomer. The model follows the code; `InputDevices.ReconnectLosesFormerChannel` proves that the former channel can be lost.
- The assignable channels are 3 to 8, as the code has them. One test in the repository expects channel 2 to be assignable; the model follows the code.
- InputDevices.AssignChannelsIdempotent: proved only for duplicate-free device lists. With duplicate uids the source's local used-channel set can give one uid two channels within a call. Every caller passes dictionary values, whose uids are distinct.
- InputDevices.AssignChannelsCount: stated for duplicate-free device lists only, for the same reason.
- The lossy engine's progress report and the CPU-based quality heuristic are not modelled.
- Statistics fields not modelled: `sessionId` (a fresh random `UUID()` on every call), `originalSize`, `compressionRatio`, `fileSizeReduction`, `encodingTime`, `averageEncodingSpeed`, `cpuUsagePercent` and `memoryUsageMB`. The AAC encoder derives `averageEncodingSpeed` and `encodingTime` from the compressed size and the duration; the others are constants in the source.
- AacEncoder.Finalize: the VBR average bitrate `avgKbps` is a parameter. The source derives it from the compressed size and the measured duration, falling back to the configured bitrate for a zero duration; that floating-point computation is not modelled.
- LossyEngines.ProcessAudioBuffer: requires that `channels × frames × 2` fits in `Int`, where Swift would trap.
- The compression fallback manager's `fallbackToUncompressedCAF` only writes a CAF file through the file controller, so it is not modelled.
- Error messages, the advisor's rationale text and the validation issue texts are replaced by tags. The tags carry the values the texts mention.
- CompressionAdvisor.Compare: states the length, the ascending order, the parity of formats and each entry's estimate. It does not state that the bitrates form a permutation of the input.
- CompressionAdvisor.EstimateSizeBytes: requires the estimate to fit in `Int64`, where Swift's conversion would trap.
- CompressionValidation.ValidateEfficiency: requires the expected byte count to fit in `Int64`, where Swift's conversion would trap.
- Default arguments: Swift's default parameter values become explicit parameters of the model. They are `toleranceRatio = 0.35` for `validateEfficiency` (the constant `CompressionValidation.DEFAULT_TOLERANCE`), `includeMP3 = true` for `compare`, `dryRun = true` for `runChain`, and `minKbps = 64, maxKbps = 320` for `suggestBitrate` (the constants `AdaptiveBitrate.DEFAULT_MIN_KBPS` and `DEFAULT_MAX_KBPS`). A caller of the model passes the value that Swift would fill in.
- CompressionValidation.ValidateAverageBitrate: requires the observed average to fit in `UInt32`, where Swift's conversion would trap.
- AdaptiveBitrate.SuggestBitrate: requires `minKbps <= maxKbps` and a counter below `Int.max`, where Swift traps. It also requires a non-zero sample rate, because floating-point division by zero is not modelled.
- The transcoder of `CompressionChaining` (`CompressionMigration.transcode`) is a parameter. Output paths are modelled as the directory, the step index and the extension, rendered as `directory/chain-step-<index>.<extension>`. URL normalisation is not modelled.
- Strings are sequences of characters. `Strings.LexLe` compares them character by character, and `Strings.Lowercased` lower-cases ASCII letters only. Swift compares strings by Unicode canonical equivalence and lower-cases with full case mapping. The two agree on ASCII text, such as the extensions m4a, mp3 and caf.
- The logger's console sink is the list of lines written. `print` is not modelled.
