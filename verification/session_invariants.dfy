/**
  What holds in every state the session of App.tsx can reach from its initial state,
  and what the countdown does from one capture request to the capture itself.
*/
module SessionInvariants {
  import opened Wrappers
  import opened Session

  /** The camera stream is held only on the camera and preview screens: of the events,
      only approving the photo stops it. */
  predicate StreamInv(s: State) {
    s.streamHeld ==> s.step == Camera || s.step == Preview
  }

  /** Which screens carry which data: the captured image exists from the preview onwards,
      the composite from the result onwards, the form is typed only on its own screen and
      is complete on the finish screen, and the processing screen always has an image to
      work on. */
  predicate DataInv(s: State) {
    && (s.capturedImage.Some? <==> s.step !in {Start, Camera})
    && (s.finalImage.Some? <==> s.step in {ResultScreen, Form, Finish})
    && (s.step !in {Form, Finish} ==> s.form == EmptyForm)
    && (s.step == Finish ==> s.form.instagram != "" && s.form.email != "")
    && (s.step == Processing ==> Truthy(s.capturedImage))
  }

  /** The countdown as written: it shows 1, 2 or 3, every running interval counts 1, 2 or 3,
      a shown 3 means no interval has ticked yet, and once a frame has been captured the
      countdown is below 3 on every screen after the camera. */
  predicate CountdownInv(s: State) {
    && 1 <= s.countdown <= CountdownArmed
    && (forall i :: 0 <= i < |s.timers| ==> 1 <= s.timers[i] <= CountdownArmed)
    && (s.countdown == CountdownArmed ==> forall i :: 0 <= i < |s.timers| ==> s.timers[i] == CountdownArmed)
    && (s.step !in {Start, Camera} ==> s.countdown < CountdownArmed)
  }

  predicate Inv(s: State) {
    StreamInv(s) && DataInv(s) && CountdownInv(s)
  }

  lemma InitInv()
    ensures Inv(Init)
  {
  }

  /** Only the stream-related handlers can change whether the stream is held, and they keep
      it on the camera and preview screens. */
  lemma NextKeepsStreamInv(s: State, e: Event)
    requires StreamInv(s) && DataInv(s)
    ensures StreamInv(Next(s, e))
  {
  }

  lemma NextKeepsDataInv(s: State, e: Event)
    requires DataInv(s)
    ensures DataInv(Next(s, e))
  {
  }

  /** A tick writes the countdown only with a value below 3, and the tick that captures
      belongs to an interval at 1, which a shown 3 rules out. */
  lemma NextKeepsCountdownInv(s: State, e: Event)
    requires CountdownInv(s)
    ensures CountdownInv(Next(s, e))
  {
    if e.Tick? && Enabled(s, e) {
      var i := e.timer;
      if s.timers[i] <= 1 {
        assert s.countdown < CountdownArmed;
      }
    }
  }

  lemma NextKeepsInv(s: State, e: Event)
    requires Inv(s)
    ensures Inv(Next(s, e))
  {
    NextKeepsStreamInv(s, e);
    NextKeepsDataInv(s, e);
    NextKeepsCountdownInv(s, e);
  }

  lemma {:induction false} RunKeepsInv(s: State, events: seq<Event>)
    requires Inv(s)
    ensures Inv(Run(s, events))
    decreases |events|
  {
    if events != [] {
      NextKeepsInv(s, events[0]);
      RunKeepsInv(Next(s, events[0]), events[1..]);
    }
  }

  /** Every reachable state satisfies the invariant. */
  lemma ReachableInv(events: seq<Event>)
    ensures Inv(Run(Init, events))
  {
    InitInv();
    RunKeepsInv(Init, events);
  }

  /** In every reachable state the stream is held only on the camera or preview screen:
      processing, result, form, finish and start never hold it. */
  lemma StreamOnlyWhileShooting(events: seq<Event>)
    ensures var s := Run(Init, events);
      s.streamHeld ==> s.step == Camera || s.step == Preview
  {
    ReachableInv(events);
  }

  /** Stopping the camera leaves no stream, whether one was held or not, and stopping it
      again changes nothing. */
  lemma StopCameraIdempotent(s: State)
    ensures !StopCamera(s).streamHeld
    ensures StopCamera(StopCamera(s)) == StopCamera(s)
    ensures !s.streamHeld ==> StopCamera(s) == s
  {
  }

  /** From the camera screen with the capture control enabled and no interval running, a
      capture request shows 3, the next two ticks show 2 and then 1, and the third tick
      captures without writing the countdown, which is left at 1. */
  lemma CountdownSequence(s: State, contextReady: bool, frame: string)
    requires Inv(s) && s.step == Camera && s.timers == []
    requires Enabled(s, CapturePressed)
    ensures var s1 := Next(s, CapturePressed);
      var s2 := Next(s1, Tick(0, contextReady, frame));
      var s3 := Next(s2, Tick(0, contextReady, frame));
      var s4 := Next(s3, Tick(0, contextReady, frame));
      && s1.countdown == 3 && s1.timers == [3] && s1.step == Camera
      && s2.countdown == 2 && s2.timers == [2] && s2.step == Camera
      && s3.countdown == 1 && s3.timers == [1] && s3.step == Camera
      && s1.capturedImage == s2.capturedImage == s3.capturedImage == None
      && s4.countdown == 1 && s4.timers == []
      && (contextReady ==> s4.step == Preview && s4.capturedImage == Some(frame))
      && (!contextReady ==> s4.step == Camera && s4.capturedImage == None)
  {
  }

  /** A running interval at count `c` captures on exactly its `c`-th tick: every earlier tick
      only lowers its counter and shows the new value. */
  lemma TickCapturesOnlyAtOne(s: State, e: Event)
    requires Inv(s) && e.Tick? && e.timer < |s.timers|
    ensures s.timers[e.timer] > 1 ==>
              Next(s, e).countdown == s.timers[e.timer] - 1
              && |Next(s, e).timers| == |s.timers|
              && Next(s, e).step == s.step && Next(s, e).capturedImage == s.capturedImage
    ensures s.timers[e.timer] == 1 ==>
              |Next(s, e).timers| == |s.timers| - 1 && Next(s, e).countdown == s.countdown
  {
  }

  /** Only `takePhoto` writes 3 into the countdown and it cannot be requested below 3, so a
      countdown below 3 stays below 3 whatever happens next. */
  lemma {:induction false} CountdownStaysLow(s: State, events: seq<Event>)
    requires Inv(s) && s.countdown < CountdownArmed
    ensures Run(s, events).countdown < CountdownArmed
    ensures !Enabled(Run(s, events), CapturePressed)
    decreases |events|
  {
    if events != [] {
      NextKeepsInv(s, events[0]);
      CountdownStaysLow(Next(s, events[0]), events[1..]);
    }
  }

  /** Once the session has left the start and camera screens (a frame was captured), the
      capture control is never enabled again, through retakes and resets alike. */
  lemma CaptureNeverReenabled(prefix: seq<Event>, rest: seq<Event>)
    requires Run(Init, prefix).step !in {Start, Camera}
    ensures !Enabled(Run(Run(Init, prefix), rest), CapturePressed)
  {
    ReachableInv(prefix);
    CountdownStaysLow(Run(Init, prefix), rest);
  }
}
