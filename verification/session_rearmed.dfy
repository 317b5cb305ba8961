/**
  The session of App.tsx with its countdown handled as evidently intended: the capture
  control is disabled for the whole countdown (not only once the shown value drops below 3),
  and `retake` and `resetApp` put the countdown back to 3. Every other handler is the one
  written in App.tsx.
*/
module SessionRearmed {
  import opened Wrappers
  import opened Session
  import SessionInvariants

  /** `retake`, also re-arming the countdown. */
  function RetakeRearmed(s: State): (r: State)
    ensures r.capturedImage == None && r.step == Camera && r.countdown == CountdownArmed
    ensures r.finalImage == s.finalImage && r.form == s.form
    ensures r.streamHeld == s.streamHeld && r.timers == s.timers
  {
    Retake(s).(countdown := CountdownArmed)
  }

  /** `resetApp`, also re-arming the countdown. */
  function ResetRearmed(s: State): (r: State)
    ensures r.capturedImage == None && r.finalImage == None && r.form == EmptyForm
    ensures r.step == Start && r.countdown == CountdownArmed
    ensures r.streamHeld == s.streamHeld && r.timers == s.timers
  {
    ResetApp(s).(countdown := CountdownArmed)
  }

  /** The capture control is offered on the camera screen only while no countdown runs. */
  predicate EnabledRearmed(s: State, e: Event) {
    if e.CapturePressed? then Enabled(s, e) && s.timers == [] else Enabled(s, e)
  }

  function NextRearmed(s: State, e: Event): (r: State)
    ensures !EnabledRearmed(s, e) ==> r == s
    ensures EnabledRearmed(s, e) && !e.RetakePressed? && !e.NewPhotoPressed? ==> r == Next(s, e)
  {
    if !EnabledRearmed(s, e) then s
    else if e.RetakePressed? then RetakeRearmed(s)
    else if e.NewPhotoPressed? then ResetRearmed(s)
    else Apply(s, e)
  }

  function RunRearmed(s: State, events: seq<Event>): State
    decreases |events|
  {
    if events == [] then s else RunRearmed(NextRearmed(s, events[0]), events[1..])
  }

  /** At most one countdown runs, it runs only on the camera screen and the shown value is
      its counter; the start screen always has the control armed. */
  predicate RearmedCountdownInv(s: State) {
    && 1 <= s.countdown <= CountdownArmed
    && |s.timers| <= 1
    && (s.timers != [] ==> s.step == Camera && s.timers[0] == s.countdown)
    && (s.step == Start ==> s.countdown == CountdownArmed)
  }

  predicate RearmedInv(s: State) {
    SessionInvariants.StreamInv(s) && SessionInvariants.DataInv(s) && RearmedCountdownInv(s)
  }

  lemma NextRearmedKeepsInv(s: State, e: Event)
    requires RearmedInv(s)
    ensures RearmedInv(NextRearmed(s, e))
  {
    if EnabledRearmed(s, e) && !e.RetakePressed? && !e.NewPhotoPressed? {
      SessionInvariants.NextKeepsStreamInv(s, e);
      SessionInvariants.NextKeepsDataInv(s, e);
    }
  }

  lemma {:induction false} RunRearmedKeepsInv(s: State, events: seq<Event>)
    requires RearmedInv(s)
    ensures RearmedInv(RunRearmed(s, events))
    decreases |events|
  {
    if events != [] {
      NextRearmedKeepsInv(s, events[0]);
      RunRearmedKeepsInv(NextRearmed(s, events[0]), events[1..]);
    }
  }

  /** In every reachable state at most one countdown runs, the capture control is disabled
      while it does, and the stream is held only on the camera and preview screens. */
  lemma RearmedSingleCountdown(events: seq<Event>)
    ensures var s := RunRearmed(Init, events);
      && |s.timers| <= 1
      && (s.timers != [] ==> !EnabledRearmed(s, CapturePressed) && s.countdown == s.timers[0])
      && (s.streamHeld ==> s.step == Camera || s.step == Preview)
  {
    RunRearmedKeepsInv(Init, events);
  }

  /** Every way back onto the camera screen (a granted start or a retake) finds the capture
      control enabled. */
  lemma RearmedCameraEntryArmed(s: State, e: Event)
    requires RearmedInv(s) && s.step != Camera && NextRearmed(s, e).step == Camera
    ensures EnabledRearmed(NextRearmed(s, e), CapturePressed)
  {
  }

  /** The run that leaves the written code stuck: after a capture and a retake the capture
      control is enabled again. */
  lemma RearmedRetakeCanCaptureAgain()
    ensures var s := RunRearmed(Init, [StartPressed(true), CapturePressed, Tick(0, true, "shot"),
                                       Tick(0, true, "shot"), Tick(0, true, "shot"), RetakePressed]);
      s.step == Camera && EnabledRearmed(s, CapturePressed)
  {
    var evs := [StartPressed(true), CapturePressed, Tick(0, true, "shot"),
                Tick(0, true, "shot"), Tick(0, true, "shot"), RetakePressed];
    var s1 := NextRearmed(Init, evs[0]);
    var s2 := NextRearmed(s1, evs[1]);
    var s3 := NextRearmed(s2, evs[2]);
    var s4 := NextRearmed(s3, evs[3]);
    var s5 := NextRearmed(s4, evs[4]);
    assert s5 == State(Preview, 1, Some("shot"), None, EmptyForm, true, []);
    var s6 := NextRearmed(s5, evs[5]);
    assert RunRearmed(Init, evs) == RunRearmed(s1, evs[1..]);
    assert RunRearmed(s1, evs[1..]) == RunRearmed(s2, evs[2..]);
    assert RunRearmed(s2, evs[2..]) == RunRearmed(s3, evs[3..]);
    assert RunRearmed(s3, evs[3..]) == RunRearmed(s4, evs[4..]);
    assert RunRearmed(s4, evs[4..]) == RunRearmed(s5, evs[5..]);
    assert RunRearmed(s5, evs[5..]) == RunRearmed(s6, []);
  }

  /** The press that starts a second interval in the written code is refused here. */
  lemma RearmedSecondPressRefused()
    ensures var s := RunRearmed(Init, [StartPressed(true), CapturePressed, CapturePressed]);
      s.timers == [3]
  {
    var evs := [StartPressed(true), CapturePressed, CapturePressed];
    var s1 := NextRearmed(Init, evs[0]);
    var s2 := NextRearmed(s1, evs[1]);
    assert RunRearmed(Init, evs) == RunRearmed(s1, evs[1..]);
    assert RunRearmed(s1, evs[1..]) == RunRearmed(s2, evs[2..]);
    assert RunRearmed(s2, evs[2..]) == RunRearmed(NextRearmed(s2, evs[2]), []);
  }
}
