/** Value types of the media platform that the capture session consumes:
    media times, stream formats, PCM buffers and timed sample buffers,
    and the conversion of a PCM buffer into a sample buffer
    (`AVAudioPCMBuffer.toStandardSampleBuffer`). */
module Media {

  datatype Option<T> = None | Some(value: T)

  /** Swift's fixed-width integers, as ranges of `int`. */
  const Int32Max: int := 0x7fff_ffff
  type Int32 = x: int | -0x8000_0000 <= x <= 0x7fff_ffff
  type UInt32 = x: int | 0 <= x <= 0xffff_ffff
  type UInt64 = x: int | 0 <= x <= 0xffff_ffff_ffff_ffff

  /** A file URL. Only its identity matters here: every evaluation of the
      time-stamped recording path yields an opaque value. */
  datatype Url = Url(id: nat)

  /** A media time: `value / timescale` seconds, or the invalid time. */
  datatype Time = Time(value: int, timescale: Int32) | Invalid

  /** The zero time has value 0 on timescale 1. */
  const Zero: Time := Time(0, 1)

  /** The length of a valid time in seconds. */
  ghost function Seconds(t: Time): real
    requires t.Time? && t.timescale > 0
  {
    t.value as real / t.timescale as real
  }

  /** The parts of an audio stream description the session uses; the
      sample rate is taken in whole hertz. */
  datatype StreamDescription = StreamDescription(sampleRate: nat, channelsPerFrame: UInt32)

  /** A format description: audio ones carry a stream description. */
  datatype FormatDescription = AudioFormat(asbd: StreamDescription) | NonAudio

  /** A PCM buffer delivered by the audio pipeline; `audio` stands for its
      sample data. */
  datatype PcmBuffer = PcmBuffer(format: StreamDescription, frameLength: UInt32, audio: seq<int>)

  datatype SampleTimingInfo = SampleTimingInfo(duration: Time, presentationTimeStamp: Time, decodeTimeStamp: Time)

  /** A timed sample buffer, as handed to an encoder input. */
  datatype SampleBuffer = SampleBuffer(
    formatDescription: Option<FormatDescription>,
    sampleCount: nat,
    timing: SampleTimingInfo,
    audio: seq<int>)

  function PresentationTimeStamp(b: SampleBuffer): Time {
    b.timing.presentationTimeStamp
  }

  /** The two-step lookup of a buffer's stream description: first its format
      description, then the audio stream description inside it. */
  function StreamDescriptionOf(b: SampleBuffer): (r: Option<StreamDescription>)
    ensures r.Some? <==> b.formatDescription.Some? && b.formatDescription.value.AudioFormat?
    ensures r.Some? ==> b.formatDescription == Some(AudioFormat(r.value))
  {
    match b.formatDescription
    case None => None
    case Some(NonAudio) => None
    case Some(AudioFormat(asbd)) => Some(asbd)
  }

  /** Wraps a PCM buffer as a sample buffer with one timing entry. `createOk`
      and `setDataOk` are the platform's results of creating the buffer and of
      attaching the audio data; either failing yields no buffer. The
      `duration` argument is accepted and ignored: the timing entry always
      lasts one sample period. */
  function ToStandardSampleBuffer(
    pcm: PcmBuffer, duration: Option<Time>, pts: Option<Time>, sampleRate: Int32,
    createOk: bool, setDataOk: bool): (r: Option<SampleBuffer>)
    ensures r.Some? <==> createOk && setDataOk
    ensures r.Some? ==> StreamDescriptionOf(r.value) == Some(pcm.format)
    ensures r.Some? ==> r.value.sampleCount == pcm.frameLength && r.value.audio == pcm.audio
    ensures r.Some? ==> PresentationTimeStamp(r.value) == (if pts.Some? then pts.value else Zero)
    ensures r.Some? ==> r.value.timing.decodeTimeStamp == Invalid
    ensures r.Some? ==> r.value.timing.duration == Time(1, sampleRate)
    ensures r.Some? && sampleRate > 0 ==> Seconds(r.value.timing.duration) == 1.0 / sampleRate as real
  {
    var basedPts := if pts.Some? then pts.value else Zero;
    var timing := SampleTimingInfo(Time(1, sampleRate), basedPts, Invalid);
    if !createOk then None
    else if !setDataOk then None
    else Some(SampleBuffer(Some(AudioFormat(pcm.format)), pcm.frameLength, timing, pcm.audio))
  }
}
