/** The parts of the channel view controller that carry logic: it keeps the
    first remote user that joins, forwards remote PCM to the speech
    recogniser always and to the capture session only while recording, and
    its record button toggles between starting and stopping. */
module Controller {
  import opened Media
  import opened CaptureModel
  import opened Capture

  /** The remote uid after a join event: the first one is kept. */
  function JoinedUid(current: UInt64, uid: UInt64): UInt64 {
    if current != 0 then current else uid
  }

  function JoinAll(current: UInt64, uids: seq<UInt64>): UInt64
    decreases |uids|
  {
    if uids == [] then current else JoinAll(JoinedUid(current, uids[0]), uids[1..])
  }

  /** The first non-zero uid of a sequence, or 0 if there is none. */
  function FirstNonZero(uids: seq<UInt64>): (r: UInt64)
    ensures r != 0 ==> r in uids
    ensures r == 0 <==> forall i :: 0 <= i < |uids| ==> uids[i] == 0
    decreases |uids|
  {
    if uids == [] then 0 else if uids[0] != 0 then uids[0] else FirstNonZero(uids[1..])
  }

  /** Over any run of join events the controller ends with the uid it had,
      if that was non-zero, and otherwise with the first non-zero uid that
      joined: later joins never replace it. */
  lemma {:induction false} JoinAllKeepsFirst(current: UInt64, uids: seq<UInt64>)
    ensures JoinAll(current, uids) == if current != 0 then current else FirstNonZero(uids)
    decreases |uids|
  {
    if uids != [] {
      JoinAllKeepsFirst(JoinedUid(current, uids[0]), uids[1..]);
    }
  }

  /** The record button: stop while recording, otherwise start. */
  function Toggle(s: SessionState, recordingURL: Url, freshURL: Url,
                  fileExists: bool, removeOk: bool, initOk: bool): (r: SessionState)
    ensures s.isRecording ==> !r.isRecording && r == Stop(s)
    ensures !s.isRecording ==>
              (r.isRecording <==> (!fileExists || removeOk) && initOk) &&
              r == Start(s, recordingURL, freshURL, fileExists, removeOk, initOk).state
    ensures ValidState(s) ==> ValidState(r)
  {
    if s.isRecording then Stop(s)
    else Start(s, recordingURL, freshURL, fileExists, removeOk, initOk).state
  }

  /** What a PCM delivery does to the session through the controller: the
      controller's guard agrees with the session's own, so the session sees
      exactly its callback's effect. */
  function Forward(s: SessionState, e: PcmEvent): (r: SessionState)
    ensures r == OnRemotePcm(s, e).state
    ensures !s.isRecording ==> r == s
  {
    if s.isRecording then OnRemotePcm(s, e).state else s
  }

  class ChannelController {
    const session: CaptureSession
    var remoteUid: UInt64
    /** The buffers appended to the speech-recognition request. */
    var recognitionAudio: seq<PcmBuffer>

    constructor ()
      ensures Valid() && fresh(session) && session.State() == Idle
      ensures session.assetWriter == null && session.recordedFile == null
      ensures remoteUid == 0 && recognitionAudio == []
    {
      session := new CaptureSession();
      remoteUid := 0;
      recognitionAudio := [];
    }

    ghost predicate Valid()
      reads this, session, session.assetWriter, session.recordedFile
    {
      session.Valid()
    }

    /** A remote user joined the channel. */
    method DidJoinedOfUid(uid: UInt64)
      modifies this
      ensures remoteUid == JoinedUid(old(remoteUid), uid)
      ensures recognitionAudio == old(recognitionAudio)
    {
      if remoteUid != 0 {
        return;
      }
      remoteUid := uid;
    }

    /** A remote PCM buffer arrived. */
    method DidReceiveRemotePcm(buffer: PcmBuffer, pts: Time, createOk: bool, setDataOk: bool, ready: bool)
      requires Valid()
      modifies this, session, session.assetWriter, session.recordedFile
      ensures Valid()
      ensures recognitionAudio == old(recognitionAudio) + [buffer]
      ensures remoteUid == old(remoteUid)
      ensures session.State() == Forward(old(session.State()), PcmEvent(buffer, pts, createOk, setDataOk, ready))
      ensures session.assetWriter == old(session.assetWriter)
      ensures session.recordedFile == old(session.recordedFile) || fresh(session.recordedFile)
    {
      recognitionAudio := recognitionAudio + [buffer];
      if session.isRecording {
        var _ := session.DidReceiveRemotePcm(buffer, pts, createOk, setDataOk, ready);
      }
    }

    /** The record button was pressed. */
    method ToggleRecording(recordingURL: Url, freshURL: Url, fileExists: bool, removeOk: bool, initOk: bool)
      requires Valid()
      modifies session, session.assetWriter
      ensures Valid()
      ensures session.State() == Toggle(old(session.State()), recordingURL, freshURL, fileExists, removeOk, initOk)
      ensures session.assetWriter == old(session.assetWriter) || fresh(session.assetWriter)
      ensures session.recordedFile == old(session.recordedFile) || session.recordedFile == null
    {
      if session.isRecording {
        session.StopRecording();
      } else {
        var _, _ := session.StartRecording(recordingURL, freshURL, fileExists, removeOk, initOk);
      }
    }
  }
}
