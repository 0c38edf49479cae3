/** The capture session as the source has it: an object whose methods update
    its fields and drive an asset writer and its encoder input, both objects
    of the media platform. Each method is proved to change the session's
    state exactly as the corresponding function of CaptureModel says. */
module Capture {
  import opened Media
  import opened CaptureModel

  /** An encoder input of an asset writer (the platform object). */
  class AssetWriterInput {
    const outputSettings: AudioSettings
    var expectsMediaDataInRealTime: bool
    var appended: seq<SampleBuffer>

    constructor (settings: AudioSettings)
      ensures outputSettings == settings && !expectsMediaDataInRealTime && appended == []
    {
      outputSettings := settings;
      expectsMediaDataInRealTime := false;
      appended := [];
    }

    ghost function View(): InputState
      reads this
    {
      InputState(outputSettings, expectsMediaDataInRealTime, appended)
    }

    method Append(b: SampleBuffer)
      modifies this
      ensures appended == old(appended) + [b]
      ensures expectsMediaDataInRealTime == old(expectsMediaDataInRealTime)
    {
      appended := appended + [b];
    }
  }

  /** An asset writer (the platform object). Its encoding and muxing are not
      modelled; it records its inputs, its status, where its session starts
      and whether finalisation was requested. */
  class AssetWriter {
    const outputURL: Url
    var status: WriterStatus
    var inputs: seq<AssetWriterInput>
    var sessionStart: Option<Time>
    var finishRequested: bool

    constructor (url: Url)
      ensures View() == FreshWriter(url) && inputs == []
    {
      outputURL := url;
      status := Unknown;
      inputs := [];
      sessionStart := None;
      finishRequested := false;
    }

    ghost function View(): WriterState
      reads this
    {
      WriterState(outputURL, status, |inputs|, sessionStart, finishRequested)
    }

    method Add(input: AssetWriterInput)
      modifies this
      ensures inputs == old(inputs) + [input]
      ensures status == old(status) && sessionStart == old(sessionStart)
      ensures finishRequested == old(finishRequested)
    {
      inputs := inputs + [input];
    }

    method StartWriting()
      modifies this
      ensures status == Writing
      ensures inputs == old(inputs) && sessionStart == old(sessionStart)
      ensures finishRequested == old(finishRequested)
    {
      status := Writing;
    }

    method StartSession(t: Time)
      modifies this
      ensures sessionStart == Some(t)
      ensures inputs == old(inputs) && status == old(status)
      ensures finishRequested == old(finishRequested)
    {
      sessionStart := Some(t);
    }

    /** Requests finalisation; its completion is asynchronous and not
        modelled. */
    method FinishWriting()
      modifies this
      ensures finishRequested
      ensures inputs == old(inputs) && status == old(status)
      ensures sessionStart == old(sessionStart)
    {
      finishRequested := true;
    }
  }

  class CaptureSession {
    var assetWriter: AssetWriter?
    var recordedFile: AssetWriterInput?
    var isRecording: bool
    var counter: Int32
    /** A static property in the source: the session is the only writer of
        it, so it is kept with the session here. */
    var mostRecentRecording: Option<Url>

    constructor ()
      ensures Valid() && State() == Idle
      ensures assetWriter == null && recordedFile == null
    {
      assetWriter := null;
      recordedFile := null;
      isRecording := false;
      counter := 0;
      mostRecentRecording := None;
    }

    /** The session's fields as a value. */
    ghost function State(): SessionState
      reads this, assetWriter, recordedFile
    {
      SessionState(
        isRecording,
        if assetWriter == null then None else Some(assetWriter.View()),
        if recordedFile == null then None else Some(recordedFile.View()),
        counter,
        mostRecentRecording)
    }

    /** The state invariant, and: once the writer has started, the input the
        session holds is one of that writer's inputs. */
    ghost predicate Valid()
      reads this, assetWriter, recordedFile
    {
      ValidState(State()) &&
      (assetWriter != null && recordedFile != null && assetWriter.status != Unknown ==>
         recordedFile in assetWriter.inputs)
    }

    /** Builds the encoder input for a stream. The source also asks the writer
        whether it can add the input, and only logs the answer: nothing here
        depends on it. */
    method ConfigureAudioInput(asbd: StreamDescription) returns (input: AssetWriterInput)
      requires assetWriter != null
      ensures fresh(input) && input.View() == InputState(OutputSettings(asbd), true, [])
    {
      input := new AssetWriterInput(OutputSettings(asbd));
      input.expectsMediaDataInRealTime := true;
    }

    /** `recordingURL` and `freshURL` are the two evaluations of the
        time-stamped recording path; see CaptureModel.Start. */
    method StartRecording(recordingURL: Url, freshURL: Url, fileExists: bool, removeOk: bool, initOk: bool)
      returns (outcome: StartOutcome, removeTarget: Option<Url>)
      requires Valid()
      modifies this
      ensures Valid()
      ensures StartResult(State(), outcome, removeTarget)
              == Start(old(State()), recordingURL, freshURL, fileExists, removeOk, initOk)
      ensures outcome == Started ==> fresh(assetWriter)
      ensures outcome != Started ==> assetWriter == old(assetWriter)
      ensures recordedFile == old(recordedFile)
    {
      removeTarget := None;
      if fileExists {
        removeTarget := Some(freshURL);
        if !removeOk {
          return RemoveFailed, removeTarget;
        }
      }
      if !initOk {
        return WriterInitFailed, removeTarget;
      }
      assetWriter := new AssetWriter(recordingURL);
      isRecording := true;
      outcome := Started;
    }

    method StopRecording()
      requires Valid()
      modifies this, assetWriter
      ensures Valid()
      ensures State() == Stop(old(State()))
      ensures assetWriter == old(assetWriter)
      ensures recordedFile == old(recordedFile) || recordedFile == null
    {
      if isRecording {
        isRecording := false;
        if assetWriter != null && assetWriter.status == Writing {
          assetWriter.FinishWriting();
        }
        mostRecentRecording := if assetWriter == null then None else Some(assetWriter.outputURL);
        recordedFile := null;
      }
    }

    /** `ready` is the input's answer to whether it is ready for more media
        data. */
    method ProcessSampleBuffer(buffer: SampleBuffer, ready: bool) returns (outcome: ProcessOutcome)
      requires Valid()
      modifies this, assetWriter, recordedFile
      ensures Valid()
      ensures ProcessResult(State(), outcome) == Process(old(State()), buffer, ready)
      ensures assetWriter == old(assetWriter)
      ensures recordedFile == old(recordedFile) || fresh(recordedFile)
      ensures outcome == Appended ==> assetWriter != null && recordedFile in assetWriter.inputs
      ensures old(assetWriter) != null && old(assetWriter.status) == Unknown && StreamDescriptionOf(buffer).Some? ==>
                fresh(recordedFile) && assetWriter.inputs == old(assetWriter.inputs) + [recordedFile]
    {
      if assetWriter == null {
        return NoWriter;
      }
      ghost var s0 := State();
      var writer := assetWriter;
      if writer.status == Unknown {
        if buffer.formatDescription.None? {
          return NoFormat;
        }
        if buffer.formatDescription.value.NonAudio? {
          return NoFormat;
        }
        var input := ConfigureAudioInput(buffer.formatDescription.value.asbd);
        recordedFile := input;
        writer.Add(input);
        writer.StartWriting();
        writer.StartSession(PresentationTimeStamp(buffer));
        assert State() == s0.(writer := Some(Configure(s0.writer.value, buffer)), input := Some(input.View()));
      }
      if recordedFile == null {
        return NilInputTrap;
      }
      if ready {
        recordedFile.Append(buffer);
        outcome := Appended;
        assert s0.writer.value.status == Unknown ==> recordedFile.appended == [buffer];
      } else {
        outcome := Dropped;
      }
    }

    /** The session's PCM callback; `pts` is the presentation time computed
        from the host clock. */
    method DidReceiveRemotePcm(buffer: PcmBuffer, pts: Time, createOk: bool, setDataOk: bool, ready: bool)
      returns (outcome: PcmOutcome)
      requires Valid()
      modifies this, assetWriter, recordedFile
      ensures Valid()
      ensures PcmResult(State(), outcome)
              == OnRemotePcm(old(State()), PcmEvent(buffer, pts, createOk, setDataOk, ready))
      ensures assetWriter == old(assetWriter)
      ensures recordedFile == old(recordedFile) || fresh(recordedFile)
    {
      if !isRecording {
        return NotRecording;
      }
      var rate := buffer.format.sampleRate;
      if rate > Int32Max {
        return TimescaleTrap;
      }
      if counter == Int32Max {
        return CounterOverflowTrap;
      }
      counter := counter + 1;
      var sampleBuffer := ToStandardSampleBuffer(buffer, None, Some(pts), rate, createOk, setDataOk);
      if sampleBuffer.None? {
        return ConversionFailed;
      }
      var result := ProcessSampleBuffer(sampleBuffer.value, ready);
      outcome := Processed(result);
    }
  }
}
