# Capture session of the speech-recogniser channel screen

This project models the recording part of a demo iOS app. The app joins a
real-time audio channel, feeds the remote audio to the platform speech
recogniser and, on request, records that remote audio to an MP4 file. The
logic modelled here is `AgoraCaptureSession`, the small recording state
machine, together with the rules around it:

- `startRecording` creates an asset writer for a time-stamped file. It first
  removes a stale file, if there is one, and sets `isRecording` only when the
  writer is created.
- `stopRecording` acts only while recording. It asks the writer to finish
  only if the writer is writing, publishes the writer's URL as
  `mostRecentRecording`, and releases the encoder input.
- `processSampleBuffer` configures the AAC encoder input from the first
  buffer's stream format and starts the writing session at that buffer's
  time. It then appends each buffer if the input is ready and drops it if
  not.
- The PCM callback counts every buffer that arrives while recording. It then
  wraps the buffer as a timed sample buffer and processes it.
- The view controller keeps only the first remote uid that joins. It forwards
  PCM to the session only while recording, and its record button switches
  between start and stop.

Four modules, one per file:

- `Media` (`media.dfy`): platform value types (times, stream descriptions,
  PCM and sample buffers) and `ToStandardSampleBuffer`.
- `CaptureModel` (`capture_model.dfy`): the session's state as a value,
  `SessionState`, with every operation as a function on it. This module also
  holds the lemmas about runs of calls.
- `Capture` (`capture_session.dfy`): the classes `AssetWriter`,
  `AssetWriterInput` and `CaptureSession`. Their methods update fields in
  place, and each method is proved to change `State()` exactly as the
  matching `CaptureModel` function says.
- `Controller` (`channel_controller.dfy`): the controller class and its
  rules.

Platform answers that the code cannot decide are parameters of the
operations:
- whether a file exists, whether its removal succeeds, and whether the
  writer can be created;
- whether the input is ready for more data;
- whether each of the two steps of sample-buffer creation succeeds.

The host-clock presentation time is a parameter too. URLs are opaque values,
and the two evaluations of the time-stamped `recordedFileURL` are two
separate parameters.

Three behaviours of the code are reproduced as written:

- The existence check uses the first evaluation of `recordedFileURL`, but the
  removal names a second, fresh evaluation. `CaptureModel.Start` reports that
  second URL as the removal target.
- The writer's `canAdd` answer is only logged, so the input is always added.
- `mostRecentRecording` is set on stop even if writing never began.

Swift's runtime traps are modelled as outcomes that change no state:
- converting a sample rate beyond the `Int32` range to a timescale;
- incrementing the `Int32` counter past its maximum;
- reading readiness from the implicitly unwrapped input when it is nil.

The last one needs a buffer to reach `processSampleBuffer` after a stop has
released the input while the writer is still installed. The PCM callback
ignores buffers once recording has stopped, so under the session invariant
the callback never reaches this trap (`CaptureModel.OnRemotePcm`).

Three more behaviours of the code, as modelled:

- A failed start leaves the session as it was. There is no separate failed
  state.
- A second `startRecording` while recording replaces the writer. The old
  writer is never finalised. The record button prevents this.
- A later buffer with a different format is appended to the input configured
  from the first buffer. It is neither rejected nor resampled
  (`CaptureModel.FeedFromFresh`).

## Model

| member | source | states |
|---|---|---|
| `Media.ToStandardSampleBuffer` | SpeechRecognizer-iOS/ChannelViewController.swift:281-301 | A buffer results exactly when creation and data attachment both succeed. It carries the PCM buffer's format, its audio and `frameLength` as the sample count. Its timestamp is the given one, defaulting to zero. Its duration is one sample period, 1/sampleRate seconds, whatever `duration` argument is passed. Its decode time is invalid. |
| `Media.StreamDescriptionOf` | SpeechRecognizer-iOS/ChannelViewController.swift:240-245 | The stream description is found exactly when the buffer has a format description and it is an audio one. |
| `CaptureModel.OutputSettings` | SpeechRecognizer-iOS/ChannelViewController.swift:171-186 | The layout is Mono if and only if the stream has one channel per frame, and Stereo otherwise. Channel count and sample rate are copied from the stream. The format is AAC at 96000 bit/s, with a zero bitmap and no channel descriptions. |
| `CaptureModel.Start` | SpeechRecognizer-iOS/ChannelViewController.swift:200-218 | Removal is requested of the fresh URL exactly when a file exists at the checked one. The start succeeds if and only if there is no stale file or its removal succeeded, and the writer could be created. Only then is a new unstarted writer for the checked URL installed and `isRecording` set. On failure the state is unchanged. The input, counter and last recording are never touched. |
| `CaptureModel.Stop` | SpeechRecognizer-iOS/ChannelViewController.swift:220-232 | When not recording, nothing changes, so a second stop is a no-op. Otherwise recording ends, the input is released, and the last recording becomes the writer's URL (none without a writer). Finalisation is newly requested if and only if the writer was writing. Nothing else about the writer changes. |
| `CaptureModel.Process` | SpeechRecognizer-iOS/ChannelViewController.swift:234-254 | With no writer, nothing changes. With an unstarted writer and no audio format, the call returns with no change. With an unstarted writer and an audio format, exactly one input with that format's settings is added, the writer moves to Writing, and its session starts at the buffer's timestamp. The new input then holds exactly this buffer if the input is ready, and nothing otherwise. On a started writer with an input, the buffer is appended if and only if the input is ready, and nothing else changes. An appended buffer is the last sample. A started writer with no input traps with no change. At most one sample is gained per call. The invariant is kept. |
| `CaptureModel.OnRemotePcm` | SpeechRecognizer-iOS/ChannelViewController.swift:256-276 | When not recording, nothing changes. While recording without a trap, the counter rises by exactly 1. If conversion then fails, the outcome is a failed conversion and nothing but the counter changes. The timescale trap happens exactly for a rate beyond the Int32 range, and the counter trap exactly for a counter already at its maximum. A trap changes nothing. The buffer is processed if and only if recording, no trap, and both conversion steps succeed. It is then processed as the converted buffer, after counting. An appended sample carries the PCM buffer's format, frame count, audio and the given presentation time. An unstarted writer then starts writing, with its session at that time. Under the invariant the nil-input trap is never reached. Samples gained never exceed the counter's increase. The recording flag, last recording, writer presence and URL, and invariant are kept. |
| `CaptureModel.ReadyBuffers` | SpeechRecognizer-iOS/ChannelViewController.swift:251-253 | The buffers that found the input ready are never more than the deliveries. They are all of the deliveries, in order, if and only if every delivery found the input ready. |
| `CaptureModel.FeedWhileWriting` | SpeechRecognizer-iOS/ChannelViewController.swift:251-253 | Over any run of buffers, a started writer is left alone, and exactly the buffers that found the input ready are appended, in order. |
| `CaptureModel.FeedFromFresh` | SpeechRecognizer-iOS/ChannelViewController.swift:239-253 | From an unstarted writer, buffers before the first one with an audio format change nothing. That first one fixes the input's settings, the Writing status and the session start. From it on, exactly the ready buffers are appended, whatever their formats. |
| `CaptureModel.AppendedAtMostFed` | SpeechRecognizer-iOS/ChannelViewController.swift:251-253 | A run of processed buffers adds at most as many samples as there are buffers. |
| `CaptureModel.PcmIgnoredWhileIdle` | SpeechRecognizer-iOS/ChannelViewController.swift:262-263 | While not recording, any run of PCM deliveries leaves the state unchanged. |
| `CaptureModel.CounterCountsEveryBuffer` | SpeechRecognizer-iOS/ChannelViewController.swift:262-273 | While recording, with no trap, the counter rises by exactly the number of deliveries. |
| `CaptureModel.AppendedAtMostCounted` | SpeechRecognizer-iOS/ChannelViewController.swift:262-276 | Over a run of PCM deliveries, the counter rises by at most the number of deliveries. The samples appended never outnumber the counter's increase. |
| `CaptureModel.PcmAllKeepsWriter` | SpeechRecognizer-iOS/ChannelViewController.swift:262-276 | PCM deliveries keep the recording flag, the writer's presence and URL, and the invariant. |
| `CaptureModel.NothingWrittenAfterStop` | SpeechRecognizer-iOS/ChannelViewController.swift:220-232 | After a stop, from any state, every further PCM delivery leaves the state unchanged. |
| `CaptureModel.RecordingCycle` | SpeechRecognizer-iOS/ChannelViewController.swift:200-232 | From any state, also while recording, a successful start, any PCM deliveries, then a stop leave the session idle with no input. The last recording is the URL the writer was created for. |
| `Capture.CaptureSession.constructor` | SpeechRecognizer-iOS/ChannelViewController.swift:153-161 | A new session is idle: not recording, no writer, no input, counter 0, no last recording. The source's static last recording is not reset; see "## Left out". |
| `Capture.CaptureSession.ConfigureAudioInput` | SpeechRecognizer-iOS/ChannelViewController.swift:171-198 | Returns a new input with `OutputSettings` of the stream, real-time set and nothing appended. |
| `Capture.CaptureSession.StartRecording` | SpeechRecognizer-iOS/ChannelViewController.swift:200-218 | The new state, outcome and removal target are those of `CaptureModel.Start`. A successful start installs a newly allocated writer. |
| `Capture.CaptureSession.StopRecording` | SpeechRecognizer-iOS/ChannelViewController.swift:220-232 | The new state is `CaptureModel.Stop` of the old one. The writer object stays installed, and the input object is kept or released. |
| `Capture.CaptureSession.ProcessSampleBuffer` | SpeechRecognizer-iOS/ChannelViewController.swift:234-254 | The new state and outcome are those of `CaptureModel.Process`. The writer object is kept, and the input object is kept unless a new one is configured. An appended buffer goes to an input of the current writer. Configuring allocates a new input and adds exactly it to the writer's inputs. |
| `Capture.CaptureSession.DidReceiveRemotePcm` | SpeechRecognizer-iOS/ChannelViewController.swift:262-276 | The new state and outcome are those of `CaptureModel.OnRemotePcm`. The writer object is kept, and the input object is kept or newly configured. |
| `Controller.JoinAllKeepsFirst` | SpeechRecognizer-iOS/ChannelViewController.swift:138-146 | The uid ends as the current one if that is non-zero, and otherwise as the first non-zero uid to join. Later joins never replace it. |
| `Controller.ChannelController.constructor` | SpeechRecognizer-iOS/ChannelViewController.swift:19-29 | A new controller holds a new idle capture session, remote uid 0, and nothing sent to the recogniser. |
| `Controller.ChannelController.DidJoinedOfUid` | SpeechRecognizer-iOS/ChannelViewController.swift:138-146 | The uid becomes `Controller.JoinedUid` of the old one: it is set to the joining uid only while it is still 0. |
| `Controller.Toggle` | SpeechRecognizer-iOS/ChannelViewController.swift:63-72 | While recording, the button stops and recording ends. Otherwise it starts, and recording begins if and only if the start succeeds. The invariant is kept. |
| `Controller.ChannelController.ToggleRecording` | SpeechRecognizer-iOS/ChannelViewController.swift:63-72 | The session's new state is `Controller.Toggle` of the old one. Its writer is kept or newly allocated, and its input is kept or released. |
| `Controller.Forward` | SpeechRecognizer-iOS/ChannelViewController.swift:129-134 | The controller's recording guard agrees with the session's own. The session sees exactly its callback's effect, and nothing while not recording. |
| `Controller.ChannelController.DidReceiveRemotePcm` | SpeechRecognizer-iOS/ChannelViewController.swift:129-134 | Every buffer is appended to the recognition request. The session changes as `Controller.Forward` says. Its writer object is kept, and its input is kept or newly configured. |

## Left out

- UI: outlets, button colours, the label text, navigation, and the share
  sheet of `exportRecentRecording`. These are view code with no logic.
- Speech recognition setup and callbacks. These are foreign framework calls.
  Only the appending of each buffer to the recognition request is kept, as a
  sequence.
- The RTC engine and the media worker: join, leave, buffer registration and
  `MediaWorker.setRemoteUid`. These belong to a closed network SDK.
- `playbackRecording` is audio playback I/O.
- `calculateAudioCMTime` reads the host clock and does floating-point
  arithmetic. Its result is an opaque parameter. Only its `Int32` timescale
  conversion, and the trap on it, is modelled.
- `recordedFileURL` is built from the current time in floating point. Each
  evaluation is an opaque URL parameter.
- Sample rates are whole hertz (`nat`). Fractional and non-finite `Double`
  rates, and the truncation of `Int32(Double)`, are not modelled.
- `canAdd`: its answer is only logged in the source, so it is not an input of
  the model.
- `Process`: `startWriting` and `append` are taken to succeed. Their
  failures are left out: the source ignores `append`'s result, and a failed
  append would move the writer to failed status, while the model records
  every ready buffer as appended. Also left out are the platform's
  exception when an input cannot be added, and the asynchronous completion
  or failure of `finishWriting`. So no operation
  moves a writer to status `Other`.
- AAC encoding, MP4 muxing and the memory layout of sample buffers are
  platform internals. Audio data is an opaque sequence, and appending is
  recorded as a sequence of sample buffers.
- `mostRecentRecording` is a static property in the source, shared by all
  sessions. Here it is a field of each session, so a new session starts with
  none, where the source's static keeps the previous session's value.
- Threading is left out. The audio callback runs on a producer thread with no
  synchronisation, and the model takes all calls as strictly sequential.
- Runs of calls: a Swift trap ends the process, but `PcmAll` and the lemmas
  about runs keep applying later deliveries to the unchanged state. Such a
  run past a trap stands for no real execution.
- The periodic log line every fifth buffer, and all other logging, is output
  only.
