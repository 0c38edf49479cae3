/** The recording state machine of the capture session as functions on
    values: the session's fields, its writer and its encoder input are
    described by `SessionState`, and every operation of the session is a
    function from the old state (and the platform's answers) to the new one.
    The classes in module Capture are proved to follow these functions. */
module CaptureModel {
  import opened Media

  // ----- Encoder output settings -----

  /** The four-character code 'aac ' of MPEG-4 AAC. */
  const AudioFormatMPEG4AAC: nat := 0x6161_6320
  /** Channel layout tags: (100 << 16) | 1 and (101 << 16) | 2. */
  const ChannelLayoutTagMono: nat := 0x0064_0001
  const ChannelLayoutTagStereo: nat := 0x0065_0002
  const EncoderBitRate: nat := 96000

  datatype ChannelLayout = ChannelLayout(tag: nat, bitmap: UInt32, numberChannelDescriptions: UInt32)

  /** The output settings dictionary of an encoder input. */
  datatype AudioSettings = AudioSettings(
    formatId: nat,
    numberOfChannels: nat,
    sampleRate: nat,
    encoderBitRate: nat,
    channelLayout: ChannelLayout)

  /** The encoder settings chosen for an incoming stream: AAC at 96 kbit/s
      with the stream's channel count and sample rate, and a mono layout
      exactly when the stream has one channel per frame. */
  function OutputSettings(asbd: StreamDescription): (r: AudioSettings)
    ensures r.channelLayout.tag == ChannelLayoutTagMono <==> asbd.channelsPerFrame == 1
    ensures r.channelLayout.tag == ChannelLayoutTagStereo <==> asbd.channelsPerFrame != 1
    ensures r.numberOfChannels == asbd.channelsPerFrame && r.sampleRate == asbd.sampleRate
    ensures r.formatId == AudioFormatMPEG4AAC && r.encoderBitRate == EncoderBitRate
    ensures r.channelLayout.bitmap == 0 && r.channelLayout.numberChannelDescriptions == 0
  {
    var tag := if asbd.channelsPerFrame == 1 then ChannelLayoutTagMono else ChannelLayoutTagStereo;
    AudioSettings(AudioFormatMPEG4AAC, asbd.channelsPerFrame, asbd.sampleRate, EncoderBitRate,
                  ChannelLayout(tag, 0, 0))
  }

  // ----- Session state -----

  /** The writer's status: not yet started, writing, or anything else
      (completed, failed, cancelled). */
  datatype WriterStatus = Unknown | Writing | Other

  /** An asset writer: its destination, status, the number of inputs added
      to it, the source time its writing session starts at, and whether
      finalisation has been requested. */
  datatype WriterState = WriterState(
    outputURL: Url,
    status: WriterStatus,
    inputCount: nat,
    sessionStart: Option<Time>,
    finishRequested: bool)

  /** An encoder input: its settings, its real-time flag and the sample
      buffers appended to it. */
  datatype InputState = InputState(settings: AudioSettings, expectsRealTime: bool, appended: seq<SampleBuffer>)

  /** The session's fields; `mostRecentRecording` is process-wide in the
      source and belongs to the one session here. */
  datatype SessionState = SessionState(
    isRecording: bool,
    writer: Option<WriterState>,
    input: Option<InputState>,
    counter: Int32,
    mostRecentRecording: Option<Url>)

  const Idle: SessionState := SessionState(false, None, None, 0, None)

  function FreshWriter(url: Url): WriterState {
    WriterState(url, Unknown, 0, None, false)
  }

  /** The samples appended to the session's current input. */
  function AppendedSamples(s: SessionState): seq<SampleBuffer> {
    if s.input.Some? then s.input.value.appended else []
  }

  /** A writer takes exactly one input, when it starts writing, and anchors
      its session then; finalisation is only ever requested while writing. */
  predicate WriterConsistent(w: WriterState) {
    w.inputCount <= 1 &&
    (w.status == Unknown <==> w.inputCount == 0) &&
    (w.sessionStart.Some? <==> w.status != Unknown) &&
    (w.finishRequested ==> w.status == Writing)
  }

  /** The invariant every reachable session state keeps: a recording
      session has a writer, and once that writer has started it has the
      input the session configured for it. */
  predicate ValidState(s: SessionState) {
    (s.isRecording ==> s.writer.Some?) &&
    (s.isRecording && s.writer.Some? && s.writer.value.status != Unknown ==> s.input.Some?) &&
    (s.writer.Some? ==> WriterConsistent(s.writer.value))
  }

  // ----- startRecording -----

  datatype StartOutcome = Started | RemoveFailed | WriterInitFailed

  /** The new state, how the call ended, and the file whose removal it
      requested, if any. */
  datatype StartResult = StartResult(state: SessionState, outcome: StartOutcome, removeTarget: Option<Url>)

  /** Starting a recording. `recordingURL` and `freshURL` are two evaluations
      of the time-stamped recording path: the first is checked for an
      existing file and becomes the writer's destination, the second is what
      the removal of the existing file names. `fileExists` says whether a file
      exists at `recordingURL`, `removeOk` whether its removal succeeds, and
      `initOk` whether the writer can be created. */
  function Start(s: SessionState, recordingURL: Url, freshURL: Url,
                 fileExists: bool, removeOk: bool, initOk: bool): (r: StartResult)
    ensures r.removeTarget == (if fileExists then Some(freshURL) else None)
    ensures r.outcome == Started <==> (!fileExists || removeOk) && initOk
    ensures r.outcome == RemoveFailed <==> fileExists && !removeOk
    ensures r.state.isRecording <==> s.isRecording || r.outcome == Started
    ensures r.outcome == Started ==> r.state.writer == Some(FreshWriter(recordingURL))
    ensures r.outcome != Started ==> r.state == s
    ensures r.state.input == s.input && r.state.counter == s.counter
    ensures r.state.mostRecentRecording == s.mostRecentRecording
    ensures ValidState(s) ==> ValidState(r.state)
  {
    var target := if fileExists then Some(freshURL) else None;
    if fileExists && !removeOk then StartResult(s, RemoveFailed, target)
    else if !initOk then StartResult(s, WriterInitFailed, target)
    else StartResult(s.(writer := Some(FreshWriter(recordingURL)), isRecording := true), Started, target)
  }

  // ----- stopRecording -----

  /** Stopping a recording: a no-op unless recording; otherwise recording
      ends, finalisation is requested only of a writer that is writing, the
      writer's destination (if there is a writer) becomes the most recent
      recording whether or not writing ever began, and the input is
      released. The writer itself stays installed. */
  function Stop(s: SessionState): (r: SessionState)
    ensures !s.isRecording ==> r == s
    ensures s.isRecording ==> !r.isRecording && r.input == None
    ensures s.isRecording ==> r.mostRecentRecording == (if s.writer.Some? then Some(s.writer.value.outputURL) else None)
    ensures r.writer.Some? == s.writer.Some?
    ensures r.writer.Some? ==> r.writer.value == s.writer.value.(finishRequested := r.writer.value.finishRequested)
    ensures r.writer.Some? ==>
              (r.writer.value.finishRequested <==>
               s.writer.value.finishRequested || (s.isRecording && s.writer.value.status == Writing))
    ensures r.counter == s.counter
    ensures ValidState(s) ==> ValidState(r)
  {
    if !s.isRecording then s
    else
      var writer :=
        if s.writer.Some? && s.writer.value.status == Writing
        then Some(s.writer.value.(finishRequested := true))
        else s.writer;
      var recent := if s.writer.Some? then Some(s.writer.value.outputURL) else None;
      s.(isRecording := false, writer := writer, mostRecentRecording := recent, input := None)
  }

  // ----- processSampleBuffer -----

  /** `NilInputTrap` is the runtime trap of reading the readiness of an
      input that was never configured or was already released. */
  datatype ProcessOutcome = NoWriter | NoFormat | Appended | Dropped | NilInputTrap

  datatype ProcessResult = ProcessResult(state: SessionState, outcome: ProcessOutcome)

  function Configure(w: WriterState, b: SampleBuffer): WriterState {
    w.(status := Writing, inputCount := w.inputCount + 1, sessionStart := Some(PresentationTimeStamp(b)))
  }

  /** Feeding one sample buffer; `ready` is the input's readiness for more
      media data when it is asked. A writer that has not started takes its
      input's settings from this buffer's format and starts its session at
      this buffer's time; then the buffer is appended if the input is ready
      and dropped otherwise. */
  function Process(s: SessionState, b: SampleBuffer, ready: bool): (r: ProcessResult)
    ensures s.writer.None? ==> r.state == s && r.outcome == NoWriter
    ensures r.outcome == NoWriter <==> s.writer.None?
    ensures r.outcome == NoFormat <==>
              s.writer.Some? && s.writer.value.status == Unknown && StreamDescriptionOf(b).None?
    ensures r.outcome == NoFormat ==> r.state == s
    ensures r.outcome == NilInputTrap <==>
              s.writer.Some? && s.writer.value.status != Unknown && s.input.None?
    ensures r.outcome == NilInputTrap ==> r.state == s
    ensures s.writer.Some? && s.writer.value.status == Unknown && StreamDescriptionOf(b).Some? ==>
              r.state.writer == Some(Configure(s.writer.value, b)) &&
              r.state.input.Some? &&
              r.state.input.value.settings == OutputSettings(StreamDescriptionOf(b).value) &&
              r.state.input.value.expectsRealTime &&
              r.state.input.value.appended == (if ready then [b] else [])
    ensures s.writer.Some? && s.writer.value.status != Unknown ==> r.state.writer == s.writer
    ensures r.outcome == Appended <==> r.outcome in {Appended, Dropped} && ready
    ensures r.outcome == Appended ==> AppendedSamples(r.state) != [] && AppendedSamples(r.state)[|AppendedSamples(r.state)| - 1] == b
    ensures s.writer.Some? && s.writer.value.status != Unknown && s.input.Some? ==>
              r.state.input.Some? &&
              r.state.input.value == s.input.value.(appended := AppendedSamples(r.state)) &&
              AppendedSamples(r.state) == AppendedSamples(s) + (if ready then [b] else [])
    ensures |AppendedSamples(r.state)| <= |AppendedSamples(s)| + 1
    ensures r.state.writer.Some? == s.writer.Some?
    ensures r.state.writer.Some? ==> r.state.writer.value.outputURL == s.writer.value.outputURL
    ensures r.state.isRecording == s.isRecording && r.state.counter == s.counter
    ensures r.state.mostRecentRecording == s.mostRecentRecording
    ensures ValidState(s) ==> ValidState(r.state)
  {
    if s.writer.None? then ProcessResult(s, NoWriter)
    else if s.writer.value.status == Unknown then
      match StreamDescriptionOf(b)
      case None => ProcessResult(s, NoFormat)
      case Some(asbd) =>
        var input := InputState(OutputSettings(asbd), true, if ready then [b] else []);
        ProcessResult(s.(writer := Some(Configure(s.writer.value, b)), input := Some(input)),
                      if ready then Appended else Dropped)
    else if s.input.None? then ProcessResult(s, NilInputTrap)
    else if ready then
      ProcessResult(s.(input := Some(s.input.value.(appended := s.input.value.appended + [b]))), Appended)
    else ProcessResult(s, Dropped)
  }

  // ----- The PCM callback -----

  /** One PCM delivery and the platform's answers while it is handled: the
      presentation time computed from the host clock, the two steps of the
      sample-buffer conversion, and the input's readiness. */
  datatype PcmEvent = PcmEvent(buffer: PcmBuffer, pts: Time, createOk: bool, setDataOk: bool, ready: bool)

  /** `TimescaleTrap` is the runtime trap of converting a sample rate beyond
      the Int32 range; `CounterOverflowTrap` that of incrementing the Int32
      counter past its maximum. */
  datatype PcmOutcome =
    | NotRecording
    | TimescaleTrap
    | CounterOverflowTrap
    | ConversionFailed
    | Processed(result: ProcessOutcome)

  datatype PcmResult = PcmResult(state: SessionState, outcome: PcmOutcome)

  /** The arithmetic of the callback before conversion does not trap. */
  predicate NoTrap(s: SessionState, e: PcmEvent) {
    e.buffer.format.sampleRate <= Int32Max && s.counter < Int32Max
  }

  /** The session's PCM callback: ignored unless recording; otherwise the
      buffer is counted, converted to a sample buffer and, if the conversion
      succeeds, processed. */
  function OnRemotePcm(s: SessionState, e: PcmEvent): (r: PcmResult)
    ensures !s.isRecording ==> r.state == s && r.outcome == NotRecording
    ensures s.isRecording && NoTrap(s, e) ==> r.state.counter == s.counter + 1
    ensures s.isRecording && !NoTrap(s, e) ==> r.state == s
    ensures s.counter <= r.state.counter <= s.counter + 1
    ensures r.outcome.Processed? <==> s.isRecording && NoTrap(s, e) && e.createOk && e.setDataOk
    ensures r.outcome == ConversionFailed ==> s.counter < Int32Max && r.state == s.(counter := s.counter + 1)
    ensures s.isRecording && NoTrap(s, e) && !(e.createOk && e.setDataOk) ==>
              r.outcome == ConversionFailed && r.state == s.(counter := s.counter + 1)
    ensures r.outcome == TimescaleTrap <==> s.isRecording && e.buffer.format.sampleRate > Int32Max
    ensures r.outcome == CounterOverflowTrap <==>
              s.isRecording && e.buffer.format.sampleRate <= Int32Max && s.counter == Int32Max
    ensures r.outcome.Processed? ==>
              s.counter < Int32Max && e.buffer.format.sampleRate <= Int32Max &&
              var b := ToStandardSampleBuffer(e.buffer, None, Some(e.pts), e.buffer.format.sampleRate, true, true).value;
              ProcessResult(r.state, r.outcome.result) == Process(s.(counter := s.counter + 1), b, e.ready)
    ensures r.outcome == Processed(Appended) ==>
              var last := AppendedSamples(r.state)[|AppendedSamples(r.state)| - 1];
              StreamDescriptionOf(last) == Some(e.buffer.format) && last.sampleCount == e.buffer.frameLength &&
              last.audio == e.buffer.audio && PresentationTimeStamp(last) == e.pts
    ensures r.outcome.Processed? && s.writer.Some? && s.writer.value.status == Unknown ==>
              r.state.writer.Some? && r.state.writer.value.status == Writing &&
              r.state.writer.value.sessionStart == Some(e.pts)
    ensures ValidState(s) ==> r.outcome != Processed(NilInputTrap)
    ensures |AppendedSamples(r.state)| <= |AppendedSamples(s)| + (r.state.counter - s.counter)
    ensures r.state.isRecording == s.isRecording
    ensures r.state.mostRecentRecording == s.mostRecentRecording
    ensures r.state.writer.Some? == s.writer.Some?
    ensures r.state.writer.Some? ==> r.state.writer.value.outputURL == s.writer.value.outputURL
    ensures ValidState(s) ==> ValidState(r.state)
  {
    if !s.isRecording then PcmResult(s, NotRecording)
    else
      var rate := e.buffer.format.sampleRate;
      if rate > Int32Max then PcmResult(s, TimescaleTrap)
      else if s.counter == Int32Max then PcmResult(s, CounterOverflowTrap)
      else
        var counted := s.(counter := s.counter + 1);
        match ToStandardSampleBuffer(e.buffer, None, Some(e.pts), rate, e.createOk, e.setDataOk)
        case None => PcmResult(counted, ConversionFailed)
        case Some(b) =>
          var p := Process(counted, b, e.ready);
          PcmResult(p.state, Processed(p.outcome))
  }

  // ----- Sequences of calls -----

  /** A sample buffer and the input's readiness when it arrives. */
  datatype Delivery = Delivery(buffer: SampleBuffer, ready: bool)

  function FeedAll(s: SessionState, ds: seq<Delivery>): SessionState
    decreases |ds|
  {
    if ds == [] then s else FeedAll(Process(s, ds[0].buffer, ds[0].ready).state, ds[1..])
  }

  /** The buffers of the deliveries that find the input ready, in order:
      never more than the deliveries, and all of them exactly when every
      delivery finds the input ready. */
  function ReadyBuffers(ds: seq<Delivery>): (r: seq<SampleBuffer>)
    ensures |r| <= |ds|
    ensures |r| == |ds| <==> forall i :: 0 <= i < |ds| ==> ds[i].ready
    ensures (forall i :: 0 <= i < |ds| ==> ds[i].ready) ==> forall i :: 0 <= i < |ds| ==> r[i] == ds[i].buffer
    decreases |ds|
  {
    if ds == [] then []
    else (if ds[0].ready then [ds[0].buffer] else []) + ReadyBuffers(ds[1..])
  }

  /** The position of the first delivery whose buffer has an audio format. */
  function FirstAudio(ds: seq<Delivery>): (r: Option<nat>)
    ensures r.Some? ==> r.value < |ds| && StreamDescriptionOf(ds[r.value].buffer).Some?
    ensures r.Some? ==> forall i :: 0 <= i < r.value ==> StreamDescriptionOf(ds[i].buffer).None?
    ensures r.None? ==> forall i :: 0 <= i < |ds| ==> StreamDescriptionOf(ds[i].buffer).None?
    decreases |ds|
  {
    if ds == [] then None
    else if StreamDescriptionOf(ds[0].buffer).Some? then Some(0)
    else match FirstAudio(ds[1..])
      case None => None
      case Some(k) => Some(k + 1)
  }

  /** Once a writer is writing and has its input, a run of deliveries leaves
      the writer alone and appends exactly the buffers that found the input
      ready. */
  lemma {:induction false} FeedWhileWriting(s: SessionState, ds: seq<Delivery>)
    requires s.writer.Some? && s.writer.value.status != Unknown && s.input.Some?
    ensures FeedAll(s, ds) == s.(input := Some(s.input.value.(appended := s.input.value.appended + ReadyBuffers(ds))))
    decreases |ds|
  {
    var input := s.input.value;
    if ds == [] {
      assert input.appended + [] == input.appended;
    } else {
      var first := if ds[0].ready then [ds[0].buffer] else [];
      var s1 := s.(input := Some(input.(appended := input.appended + first)));
      ProcessWhileWriting(s, ds[0].buffer, ds[0].ready);
      FeedWhileWriting(s1, ds[1..]);
      assert ReadyBuffers(ds) == first + ReadyBuffers(ds[1..]);
      SeqAssoc(input.appended, first, ReadyBuffers(ds[1..]));
    }
  }

  lemma SeqAssoc<T>(a: seq<T>, b: seq<T>, c: seq<T>)
    ensures (a + b) + c == a + (b + c)
  {
  }

  /** One delivery to a writer that is writing, with its input present. */
  lemma ProcessWhileWriting(s: SessionState, b: SampleBuffer, ready: bool)
    requires s.writer.Some? && s.writer.value.status != Unknown && s.input.Some?
    ensures Process(s, b, ready).state ==
              s.(input := Some(s.input.value.(appended := s.input.value.appended + (if ready then [b] else []))))
  {
  }

  /** From a writer that has not started, deliveries without an audio format
      change nothing; the first one with an audio format fixes the input's
      settings and the session's start time once and for all, and from it on
      exactly the buffers that find the input ready are appended, whatever
      their own formats. */
  lemma {:induction false} FeedFromFresh(s: SessionState, ds: seq<Delivery>)
    requires s.writer.Some? && s.writer.value.status == Unknown
    ensures FirstAudio(ds).None? ==> FeedAll(s, ds) == s
    ensures FirstAudio(ds).Some? ==>
              var k := FirstAudio(ds).value;
              FeedAll(s, ds) ==
                s.(writer := Some(Configure(s.writer.value, ds[k].buffer)),
                   input := Some(InputState(OutputSettings(StreamDescriptionOf(ds[k].buffer).value), true,
                                            ReadyBuffers(ds[k..]))))
    decreases |ds|
  {
    if ds == [] {
    } else if StreamDescriptionOf(ds[0].buffer).None? {
      FeedFromFresh(s, ds[1..]);
      if FirstAudio(ds).Some? {
        var k := FirstAudio(ds).value;
        assert ds[1..][k - 1..] == ds[k..];
      }
    } else {
      var s1 := Process(s, ds[0].buffer, ds[0].ready).state;
      FeedWhileWriting(s1, ds[1..]);
      assert ds[0..] == ds;
    }
  }

  /** A run of deliveries appends at most one sample per delivery. */
  lemma {:induction false} AppendedAtMostFed(s: SessionState, ds: seq<Delivery>)
    ensures |AppendedSamples(FeedAll(s, ds))| <= |AppendedSamples(s)| + |ds|
    decreases |ds|
  {
    if ds != [] {
      AppendedAtMostFed(Process(s, ds[0].buffer, ds[0].ready).state, ds[1..]);
    }
  }

  function PcmAll(s: SessionState, es: seq<PcmEvent>): SessionState
    decreases |es|
  {
    if es == [] then s else PcmAll(OnRemotePcm(s, es[0]).state, es[1..])
  }

  /** While not recording, any number of PCM deliveries changes nothing. */
  lemma {:induction false} PcmIgnoredWhileIdle(s: SessionState, es: seq<PcmEvent>)
    requires !s.isRecording
    ensures PcmAll(s, es) == s
    decreases |es|
  {
    if es != [] {
      PcmIgnoredWhileIdle(OnRemotePcm(s, es[0]).state, es[1..]);
    }
  }

  /** While recording and without a trap, the counter grows by exactly the
      number of PCM deliveries, whether or not they could be converted. */
  lemma {:induction false} CounterCountsEveryBuffer(s: SessionState, es: seq<PcmEvent>)
    requires s.isRecording
    requires s.counter + |es| <= Int32Max
    requires forall i :: 0 <= i < |es| ==> es[i].buffer.format.sampleRate <= Int32Max
    ensures PcmAll(s, es).counter == s.counter + |es|
    decreases |es|
  {
    if es != [] {
      CounterCountsEveryBuffer(OnRemotePcm(s, es[0]).state, es[1..]);
    }
  }

  /** Every sample appended through the PCM callback was counted: the
      samples gained never outnumber the counter's increase, nor the
      deliveries. */
  lemma {:induction false} AppendedAtMostCounted(s: SessionState, es: seq<PcmEvent>)
    ensures s.counter <= PcmAll(s, es).counter <= s.counter + |es|
    ensures |AppendedSamples(PcmAll(s, es))| <= |AppendedSamples(s)| + (PcmAll(s, es).counter - s.counter)
    decreases |es|
  {
    if es != [] {
      AppendedAtMostCounted(OnRemotePcm(s, es[0]).state, es[1..]);
    }
  }

  /** PCM deliveries keep the recording flag, the writer's presence and its
      destination, and the invariant. */
  lemma {:induction false} PcmAllKeepsWriter(s: SessionState, es: seq<PcmEvent>)
    ensures PcmAll(s, es).isRecording == s.isRecording
    ensures PcmAll(s, es).writer.Some? == s.writer.Some?
    ensures s.writer.Some? ==> PcmAll(s, es).writer.value.outputURL == s.writer.value.outputURL
    ensures ValidState(s) ==> ValidState(PcmAll(s, es))
    decreases |es|
  {
    if es != [] {
      PcmAllKeepsWriter(OnRemotePcm(s, es[0]).state, es[1..]);
    }
  }

  /** Once stopped, the session ignores every further PCM delivery: nothing
      is counted or written after a stop. */
  lemma {:induction false} NothingWrittenAfterStop(s: SessionState, es: seq<PcmEvent>)
    ensures PcmAll(Stop(s), es) == Stop(s)
  {
    PcmIgnoredWhileIdle(Stop(s), es);
  }

  /** A recording that starts, receives any PCM deliveries and stops leaves
      the session idle, with the file the writer was created for as the most
      recent recording. */
  lemma RecordingCycle(s: SessionState, recordingURL: Url, freshURL: Url,
                       fileExists: bool, removeOk: bool, es: seq<PcmEvent>)
    requires !fileExists || removeOk
    ensures var started := Start(s, recordingURL, freshURL, fileExists, removeOk, true).state;
            var stopped := Stop(PcmAll(started, es));
            !stopped.isRecording && stopped.input == None &&
            stopped.mostRecentRecording == Some(recordingURL)
  {
    var started := Start(s, recordingURL, freshURL, fileExists, removeOk, true).state;
    PcmAllKeepsWriter(started, es);
  }
}
