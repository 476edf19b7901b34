/**
 * Joining a Google Meet call (features/meet.js): on every change to the pre-join page the
 * script turns the camera and microphone off and clicks "join now", each at most until its
 * flag is set, and stops watching the page once both are done and the call is joined, or
 * after 30 seconds.
 */
module Meet {
  /** The two closure flags. */
  datatype Flags = Flags(cameraMicDisabled: bool, joinClicked: bool)

  const INITIAL: Flags := Flags(false, false)

  /** Flags only go from false to true. */
  predicate Below(f: Flags, g: Flags) {
    (f.cameraMicDisabled ==> g.cameraMicDisabled) && (f.joinClicked ==> g.joinClicked)
  }

  /**
   * What the page shows to one observer callback: whether the leave-call control
   * ("通話から退出") is present when the camera step starts, whether the camera-off and
   * microphone-off buttons and a button whose text includes "今すぐ参加" are there, and
   * whether the leave-call control is present after the callback's clicks.
   */
  datatype Snapshot = Snapshot(leaveBefore: bool, camera: bool, mic: bool, join: bool, leaveAfter: bool)

  datatype Click = CameraOff | MicOff | JoinNow

  /** `disableCameraAndMic`: the new flags and the buttons it clicks, in order. */
  function DisableStep(f: Flags, s: Snapshot): (Flags, seq<Click>) {
    if f.cameraMicDisabled then (f, [])
    else if s.leaveBefore then (Flags(true, true), [])
    else
      var clicks := (if s.camera then [CameraOff] else []) + (if s.mic then [MicOff] else []);
      (if s.camera || s.mic then f.(cameraMicDisabled := true) else f, clicks)
  }

  /** `clickJoinButton`: the new flags and the buttons it clicks. */
  function JoinStep(f: Flags, s: Snapshot): (Flags, seq<Click>) {
    if f.joinClicked || !s.join then (f, [])
    else (if s.leaveAfter then f.(joinClicked := true) else f, [JoinNow])
  }

  /** `allTasksCompleted`, with whether the leave-call control is present. */
  predicate AllTasksCompleted(f: Flags, leave: bool) {
    f.cameraMicDisabled && f.joinClicked && leave
  }

  /** One observer callback: both steps, then whether the observer disconnects. */
  function CallbackStep(f: Flags, s: Snapshot): (Flags, seq<Click>, bool) {
    var (f1, c1) := DisableStep(f, s);
    var (f2, c2) := JoinStep(f1, s);
    (f2, c1 + c2, AllTasksCompleted(f2, s.leaveAfter))
  }

  /** Both flags only ever go from false to true. */
  lemma FlagsMonotone(f: Flags, s: Snapshot)
    ensures Below(f, DisableStep(f, s).0) && Below(f, JoinStep(f, s).0) && Below(f, CallbackStep(f, s).0)
  {
  }

  /** With the leave-call control already there, the camera step sets both flags and clicks nothing. */
  lemma LeaveControlSetsBoth(f: Flags, s: Snapshot)
    requires !f.cameraMicDisabled && s.leaveBefore
    ensures DisableStep(f, s) == (Flags(true, true), [])
  {
  }

  /**
   * Outside a call, the camera step completes exactly when a camera-off or microphone-off
   * button is found, and clicks each button found, camera first.
   */
  lemma CameraMicNeedsAButton(f: Flags, s: Snapshot)
    requires !f.cameraMicDisabled && !s.leaveBefore
    ensures DisableStep(f, s).0.cameraMicDisabled <==> s.camera || s.mic
    ensures DisableStep(f, s).0.joinClicked == f.joinClicked
    ensures (CameraOff in DisableStep(f, s).1 <==> s.camera) && (MicOff in DisableStep(f, s).1 <==> s.mic)
    ensures s.camera && s.mic ==> DisableStep(f, s).1 == [CameraOff, MicOff]
  {
  }

  /** The join flag is set by the join step exactly when the button was clicked and the call is joined afterwards. */
  lemma JoinNeedsLeaveControl(f: Flags, s: Snapshot)
    requires !f.joinClicked
    ensures JoinStep(f, s).0.joinClicked <==> s.join && s.leaveAfter
    ensures JoinStep(f, s).1 == (if s.join then [JoinNow] else [])
    ensures JoinStep(f, s).0.cameraMicDisabled == f.cameraMicDisabled
  {
  }

  /** A step whose flag is already set does nothing. */
  lemma DoneStepsIdle(f: Flags, s: Snapshot)
    ensures f.cameraMicDisabled ==> DisableStep(f, s) == (f, [])
    ensures f.joinClicked ==> JoinStep(f, s) == (f, [])
    ensures AllTasksCompleted(f, true) ==> CallbackStep(f, s) == (f, [], s.leaveAfter)
  {
    var none: seq<Click> := [];
    assert none + none == none;
  }

  /**
   * A callback disconnects exactly when both flags end up set and the call is joined; in
   * particular a callback that finds the call already joined, and still joined afterwards,
   * disconnects.
   */
  lemma DisconnectWhenDone(f: Flags, s: Snapshot)
    ensures CallbackStep(f, s).2 <==> CallbackStep(f, s).0 == Flags(true, true) && s.leaveAfter
    ensures s.leaveBefore && s.leaveAfter ==> CallbackStep(f, s).2 || (f.cameraMicDisabled && !f.joinClicked && !s.join)
  {
  }

  /** The content script on the Meet page. */
  class MeetAutoJoin {
    var flags: Flags
    var observing: bool
    var timerArmed: bool
    /** Every button clicked so far, in order. */
    var clicks: seq<Click>

    /** The script starts: both flags false, the observer on `document.body` and the 30-second timer started. */
    constructor()
      ensures flags == INITIAL && observing && timerArmed && clicks == []
    {
      flags, observing, timerArmed, clicks := INITIAL, true, true, [];
    }

    method DisableCameraAndMic(s: Snapshot)
      modifies this
      ensures flags == DisableStep(old(flags), s).0 && clicks == old(clicks) + DisableStep(old(flags), s).1
      ensures observing == old(observing) && timerArmed == old(timerArmed)
    {
      if flags.cameraMicDisabled {
        return;
      }
      if s.leaveBefore {
        flags := Flags(true, true);
        return;
      }
      if s.camera {
        clicks := clicks + [CameraOff];
      }
      if s.mic {
        clicks := clicks + [MicOff];
      }
      if s.camera || s.mic {
        flags := flags.(cameraMicDisabled := true);
      }
    }

    method ClickJoinButton(s: Snapshot)
      modifies this
      ensures flags == JoinStep(old(flags), s).0 && clicks == old(clicks) + JoinStep(old(flags), s).1
      ensures observing == old(observing) && timerArmed == old(timerArmed)
    {
      if flags.joinClicked {
        return;
      }
      if s.join {
        clicks := clicks + [JoinNow];
        if s.leaveAfter {
          flags := flags.(joinClicked := true);
        }
      }
    }

    /** The observer callback, run only while the observer is connected. */
    method OnMutation(s: Snapshot)
      modifies this
      ensures old(observing) ==>
        (flags == CallbackStep(old(flags), s).0 && clicks == old(clicks) + CallbackStep(old(flags), s).1
         && observing == !CallbackStep(old(flags), s).2)
      ensures !old(observing) ==> flags == old(flags) && clicks == old(clicks) && observing == old(observing)
      ensures timerArmed == old(timerArmed) && Below(old(flags), flags)
    {
      if !observing {
        return;
      }
      DisableCameraAndMic(s);
      ClickJoinButton(s);
      if AllTasksCompleted(flags, s.leaveAfter) {
        observing := false;
      }
    }

    /** The 30-second timer: the observer is disconnected whatever its state. */
    method OnTimeout()
      modifies this
      ensures !observing && !timerArmed && flags == old(flags) && clicks == old(clicks)
    {
      observing := false;
      timerArmed := false;
    }
  }
}
