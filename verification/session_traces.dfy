/**
  Concrete runs of the session of App.tsx: the intended walk through all seven screens,
  and the runs that show where the code departs from that intent.
*/
module SessionTraces {
  import opened Wrappers
  import opened Session

  /** Granted camera and one capture request. */
  const StartAndPress := [StartPressed(true), CapturePressed]

  /** Three ticks of the single running interval, the last one grabbing `frame`. */
  function ThreeTicks(frame: string): seq<Event> {
    [Tick(0, true, frame), Tick(0, true, frame), Tick(0, true, frame)]
  }

  /** The three events of a run of length three, one at a time. */
  lemma RunThree(s: State, events: seq<Event>)
    requires |events| == 3
    ensures Run(s, events) == Next(Next(Next(s, events[0]), events[1]), events[2])
  {
    RunStep(s, events);
    RunStep(Next(s, events[0]), events[1..]);
    RunStep(Next(Next(s, events[0]), events[1]), events[2..]);
  }

  /** From the start screen, a granted camera, a capture request and three ticks leave the
      preview showing the grabbed frame, with the stream still held and the countdown at 1. */
  lemma ShotTaken(frame: string)
    ensures Run(Init, StartAndPress + ThreeTicks(frame))
         == State(Preview, 1, Some(frame), None, EmptyForm, true, [])
  {
    RunStep(Init, StartAndPress);
    RunStep(Next(Init, StartAndPress[0]), StartAndPress[1..]);
    var s2 := State(Camera, 3, None, None, EmptyForm, true, [3]);
    assert Run(Init, StartAndPress) == s2;
    RunThree(s2, ThreeTicks(frame));
    RunAppend(Init, StartAndPress, ThreeTicks(frame));
  }

  /** Granted camera, capture, approval, a successful composite, the form filled in and
      submitted: the session ends on the finish screen with the composite and the form,
      and no stream held. */
  lemma HappyPath()
    ensures var s := Run(Init, StartAndPress + ThreeTicks("shot")
                              + [ApprovePressed, CompositorSettled(Some("final")), GetPhotoPressed]
                              + [InstagramTyped("x"), EmailTyped("y@z.com"), SubmitPressed(true)]);
      && s.step == Finish && s.finalImage == Some("final") && s.capturedImage == Some("shot")
      && s.form == UserData("x", "y@z.com") && !s.streamHeld
  {
    var ab := StartAndPress + ThreeTicks("shot");
    var c := [ApprovePressed, CompositorSettled(Some("final")), GetPhotoPressed];
    var d := [InstagramTyped("x"), EmailTyped("y@z.com"), SubmitPressed(true)];
    ShotTaken("shot");
    var sb := State(Preview, 1, Some("shot"), None, EmptyForm, true, []);
    RunThree(sb, c);
    var sc := State(Form, 1, Some("shot"), Some("final"), EmptyForm, false, []);
    assert Run(sb, c) == sc;
    RunThree(sc, d);
    RunAppend(Init, ab, c);
    RunAppend(Init, ab + c, d);
  }

  /** A denied camera request leaves the session on the start screen with no stream. */
  lemma CameraDenied()
    ensures Run(Init, [StartPressed(false)]) == Init
    ensures !Run(Init, [StartPressed(false)]).streamHeld
  {
    RunStep(Init, [StartPressed(false)]);
  }

  /** As written, after one capture and a retake the camera screen is back but its capture
      control stays disabled, because nothing puts the countdown back to 3: the second
      capture of the intended walk is not available. */
  lemma RetakeLeavesCaptureDisabled()
    ensures var s := Run(Init, StartAndPress + ThreeTicks("shot") + [RetakePressed]);
      && s.step == Camera && s.countdown == 1 && s.streamHeld
      && !Enabled(s, CapturePressed)
  {
    ShotTaken("shot");
    var sb := State(Preview, 1, Some("shot"), None, EmptyForm, true, []);
    RunStep(sb, [RetakePressed]);
    RunAppend(Init, StartAndPress + ThreeTicks("shot"), [RetakePressed]);
  }

  /** As written, the capture control is still enabled during the first second of a
      countdown (the shown value is 3 until the first tick), so a second press starts a
      second interval beside the first. */
  lemma DoublePressRunsTwoTimers()
    ensures Run(Init, [StartPressed(true), CapturePressed, CapturePressed]).timers == [3, 3]
  {
    RunThree(Init, [StartPressed(true), CapturePressed, CapturePressed]);
  }

  /** The stream is released when the photo is approved, and a compositor failure returns to
      the preview without reacquiring it, so a retake then shows the camera screen with no
      stream held. */
  lemma CameraWithoutStream()
    ensures var s := Run(Init, StartAndPress + ThreeTicks("shot")
                              + [ApprovePressed, CompositorSettled(None), RetakePressed]);
      s.step == Camera && !s.streamHeld
  {
    ShotTaken("shot");
    var sb := State(Preview, 1, Some("shot"), None, EmptyForm, true, []);
    RunThree(sb, [ApprovePressed, CompositorSettled(None), RetakePressed]);
    RunAppend(Init, StartAndPress + ThreeTicks("shot"), [ApprovePressed, CompositorSettled(None), RetakePressed]);
  }

  /** A non-empty email the browser rejects never reaches the submit handler: the form
      screen stays, with the form as typed. */
  lemma MalformedEmailStaysOnForm()
    ensures var s := Run(Init, StartAndPress + ThreeTicks("shot")
                              + [ApprovePressed, CompositorSettled(Some("final")), GetPhotoPressed]
                              + [InstagramTyped("x"), EmailTyped("abc"), SubmitPressed(false)]);
      s.step == Form && s.form == UserData("x", "abc")
  {
    var ab := StartAndPress + ThreeTicks("shot");
    var c := [ApprovePressed, CompositorSettled(Some("final")), GetPhotoPressed];
    var d := [InstagramTyped("x"), EmailTyped("abc"), SubmitPressed(false)];
    ShotTaken("shot");
    var sb := State(Preview, 1, Some("shot"), None, EmptyForm, true, []);
    RunThree(sb, c);
    var sc := State(Form, 1, Some("shot"), Some("final"), EmptyForm, false, []);
    assert Run(sb, c) == sc;
    RunThree(sc, d);
    RunAppend(Init, ab, c);
    RunAppend(Init, ab + c, d);
  }

  /** The capture control stays disabled after the first capture, yet a frame can still be
      taken: after a double press the second interval outlives the capture of the first, and
      a retake before it fires lets it grab a new frame on the camera screen. */
  lemma LeftoverIntervalCaptures()
    ensures var s := Run(Init, [StartPressed(true), CapturePressed, CapturePressed]
                              + [Tick(0, true, "a"), Tick(1, true, "a"), Tick(0, true, "a")]
                              + [Tick(1, true, "a"), Tick(0, true, "a"), RetakePressed]
                              + [Tick(0, true, "b")]);
      && s.step == Preview && s.capturedImage == Some("b") && s.timers == []
      && !Enabled(s.(step := Camera), CapturePressed)
  {
    var a := [StartPressed(true), CapturePressed, CapturePressed];
    var b := [Tick(0, true, "a"), Tick(1, true, "a"), Tick(0, true, "a")];
    var c := [Tick(1, true, "a"), Tick(0, true, "a"), RetakePressed];
    var d := [Tick(0, true, "b")];
    RunThree(Init, a);
    var sa := State(Camera, 3, None, None, EmptyForm, true, [3, 3]);
    assert Run(Init, a) == sa;
    RunThree(sa, b);
    var sb := State(Camera, 1, None, None, EmptyForm, true, [1, 2]);
    assert Run(sa, b) == sb;
    RunThree(sb, c);
    var sc := State(Camera, 1, None, None, EmptyForm, true, [1]);
    assert Run(sb, c) == sc;
    RunStep(sc, d);
    RunAppend(Init, a, b);
    RunAppend(Init, a + b, c);
    RunAppend(Init, a + b + c, d);
  }
}
