/**
  The photo booth session of App.tsx: the React state of the App component as one
  immutable record, every handler as a pure function on it, and the events a user
  (or the browser) can deliver as a sequential transition system.

  The handlers are modelled exactly as written, without checking the step: what keeps
  a handler from running on the wrong screen is the rendered view, which only offers
  the buttons of the current step. That gating is `Enabled`, and `Next` applies a
  handler only when its event is enabled.
*/
module Session {
  import opened Wrappers

  /** The seven screens of the booth, one rendered at a time. */
  datatype Step = Start | Camera | Preview | Processing | ResultScreen | Form | Finish

  /** The contact details typed on the form screen. */
  datatype UserData = UserData(instagram: string, email: string)

  /** The form as it is initialised and as `resetApp` leaves it. */
  const EmptyForm := UserData("", "")

  /** The countdown value at which the capture control is enabled, and with which a countdown starts. */
  const CountdownArmed: int := 3

  /**
    The component's state. `streamHeld` stands for `streamRef.current` being non-null.
    `timers` holds the local `count` of every `setInterval` started by `takePhoto` that
    has not yet cleared itself, oldest first.
  */
  datatype State = State(
    step: Step,
    countdown: int,
    capturedImage: Option<string>,
    finalImage: Option<string>,
    form: UserData,
    streamHeld: bool,
    timers: seq<int>)

  /** The state the component mounts with. */
  const Init := State(Start, CountdownArmed, None, None, EmptyForm, false, [])

  /** JavaScript truthiness of a `string | null`: null and the empty string are both false. */
  predicate Truthy(o: Option<string>) {
    o.Some? && o.value != ""
  }

  /** `r` keeps the two images and the form of `s`. */
  predicate SameImagesAndForm(s: State, r: State) {
    r.capturedImage == s.capturedImage && r.finalImage == s.finalImage && r.form == s.form
  }

  /** `r` keeps the countdown display and the running intervals of `s`. */
  predicate SameCountdown(s: State, r: State) {
    r.countdown == s.countdown && r.timers == s.timers
  }

  /** `xs` without its element at index `i`. */
  function RemoveAt(xs: seq<int>, i: nat): (r: seq<int>)
    requires i < |xs|
    ensures |r| == |xs| - 1
    ensures forall j :: 0 <= j < i ==> r[j] == xs[j]
    ensures forall j :: i <= j < |r| ==> r[j] == xs[j + 1]
  {
    xs[..i] + xs[i + 1..]
  }

  // --- Handlers ---

  /** `startCamera`: a granted camera request stores the stream and shows the camera;
      a denied one only alerts. */
  function StartCamera(s: State, granted: bool): (r: State)
    ensures granted ==> r.step == Camera && r.streamHeld
    ensures !granted ==> r == s
    ensures SameImagesAndForm(s, r) && SameCountdown(s, r)
  {
    if granted then s.(streamHeld := true, step := Camera) else s
  }

  /** `stopCamera`: stops the tracks of the held stream, if any, and forgets it. */
  function StopCamera(s: State): (r: State)
    ensures !r.streamHeld
    ensures r.step == s.step && SameImagesAndForm(s, r) && SameCountdown(s, r)
  {
    if s.streamHeld then s.(streamHeld := false) else s
  }

  /** `takePhoto`: stays on the camera, shows 3 and starts a one-second interval whose
      own counter starts at 3. */
  function TakePhoto(s: State): (r: State)
    ensures r.step == Camera && r.countdown == CountdownArmed
    ensures r.timers == s.timers + [CountdownArmed]
    ensures r.streamHeld == s.streamHeld && SameImagesAndForm(s, r)
  {
    s.(step := Camera, countdown := CountdownArmed, timers := s.timers + [CountdownArmed])
  }

  /** `captureFrame`: with a mounted video element and a 2D context, stores the mirrored
      frame (encoded by the browser as `frame`) and shows the preview; otherwise nothing. */
  function CaptureFrame(s: State, videoMounted: bool, contextReady: bool, frame: string): (r: State)
    ensures videoMounted && contextReady ==>
              r.capturedImage == Some(frame) && r.step == Preview
              && r.finalImage == s.finalImage && r.form == s.form
              && r.streamHeld == s.streamHeld && SameCountdown(s, r)
    ensures !(videoMounted && contextReady) ==> r == s
  {
    if videoMounted && contextReady then s.(capturedImage := Some(frame), step := Preview) else s
  }

  /** One firing of the interval at index `i`: its counter drops by one; while it stays
      positive it is shown, and when it reaches zero the interval clears itself and
      calls `captureFrame` without touching the countdown. */
  function TimerTick(s: State, i: nat, videoMounted: bool, contextReady: bool, frame: string): (r: State)
    requires i < |s.timers|
    ensures s.timers[i] > 1 ==>
              r.countdown == s.timers[i] - 1 && r.timers == s.timers[i := s.timers[i] - 1]
              && r.step == s.step && r.streamHeld == s.streamHeld && SameImagesAndForm(s, r)
    ensures s.timers[i] <= 1 ==>
              r.timers == RemoveAt(s.timers, i) && r.countdown == s.countdown
              && r == CaptureFrame(s.(timers := RemoveAt(s.timers, i)), videoMounted, contextReady, frame)
  {
    var count := s.timers[i] - 1;
    if count > 0 then
      s.(countdown := count, timers := s.timers[i := count])
    else
      CaptureFrame(s.(timers := RemoveAt(s.timers, i)), videoMounted, contextReady, frame)
  }

  /** `retake`: drops the captured image and returns to the camera screen. */
  function Retake(s: State): (r: State)
    ensures r.capturedImage == None && r.step == Camera
    ensures r.finalImage == s.finalImage && r.form == s.form
    ensures r.streamHeld == s.streamHeld && SameCountdown(s, r)
  {
    s.(capturedImage := None, step := Camera)
  }

  /** The synchronous part of `approvePhoto`: without a captured image nothing happens;
      otherwise the processing screen is shown and the camera is stopped before the
      compositor is awaited. */
  function ApproveStart(s: State): (r: State)
    ensures !Truthy(s.capturedImage) ==> r == s
    ensures Truthy(s.capturedImage) ==>
              r.step == Processing && !r.streamHeld && SameImagesAndForm(s, r) && SameCountdown(s, r)
  {
    if !Truthy(s.capturedImage) then s else StopCamera(s.(step := Processing))
  }

  /** The rest of `approvePhoto`, once the compositor settles: its image is stored and
      shown, or on a rejection the preview (still holding the captured image) returns. */
  function CompositeDone(s: State, processed: Option<string>): (r: State)
    ensures processed.Some? ==> r.finalImage == processed && r.step == ResultScreen
    ensures processed.None? ==> r.finalImage == s.finalImage && r.step == Preview
    ensures r.capturedImage == s.capturedImage && r.form == s.form
    ensures r.streamHeld == s.streamHeld && SameCountdown(s, r)
  {
    match processed
    case Some(image) => s.(finalImage := Some(image), step := ResultScreen)
    case None => s.(step := Preview)
  }

  /** The "Get My Photo" button of the result screen. */
  function ShowForm(s: State): (r: State)
    ensures r.step == Form
    ensures r.streamHeld == s.streamHeld && SameImagesAndForm(s, r) && SameCountdown(s, r)
  {
    s.(step := Form)
  }

  /** Typing in the Instagram field replaces that field only. */
  function EditInstagram(s: State, value: string): (r: State)
    ensures r.form.instagram == value && r.form.email == s.form.email
    ensures r.step == s.step && r.streamHeld == s.streamHeld
    ensures r.capturedImage == s.capturedImage && r.finalImage == s.finalImage && SameCountdown(s, r)
  {
    s.(form := s.form.(instagram := value))
  }

  /** Typing in the email field replaces that field only. */
  function EditEmail(s: State, value: string): (r: State)
    ensures r.form.email == value && r.form.instagram == s.form.instagram
    ensures r.step == s.step && r.streamHeld == s.streamHeld
    ensures r.capturedImage == s.capturedImage && r.finalImage == s.finalImage && SameCountdown(s, r)
  {
    s.(form := s.form.(email := value))
  }

  /** `submitForm`: an empty field only alerts; a complete form moves to the finish screen. */
  function SubmitForm(s: State): (r: State)
    ensures s.form.email == "" || s.form.instagram == "" ==> r == s
    ensures s.form.email != "" && s.form.instagram != "" ==>
              r.step == Finish && r.streamHeld == s.streamHeld
              && SameImagesAndForm(s, r) && SameCountdown(s, r)
  {
    if s.form.email == "" || s.form.instagram == "" then s else s.(step := Finish)
  }

  /** `resetApp`: clears both images and the form and returns to the start screen,
      leaving the stream and the countdown as they are. */
  function ResetApp(s: State): (r: State)
    ensures r.capturedImage == None && r.finalImage == None && r.form == EmptyForm
    ensures r.step == Start
    ensures r.streamHeld == s.streamHeld && SameCountdown(s, r)
  {
    s.(capturedImage := None, finalImage := None, form := EmptyForm, step := Start)
  }

  /** The unmount cleanup effect: stops the camera. */
  function Teardown(s: State): (r: State)
    ensures !r.streamHeld
    ensures r.step == s.step && SameImagesAndForm(s, r) && SameCountdown(s, r)
  {
    StopCamera(s)
  }

  // --- Events ---

  /**
    Everything that can happen to the session. Outside outcomes are carried by the
    event: whether the camera was granted, whether a canvas context was available when
    a frame is grabbed (and the frame the browser encoded), and whether the compositor
    resolved with an image or rejected.
  */
  datatype Event =
    | StartPressed(granted: bool)
    | CapturePressed
    | Tick(timer: nat, contextReady: bool, frame: string)
    | RetakePressed
    | ApprovePressed
    | CompositorSettled(processed: Option<string>)
    | GetPhotoPressed
    | InstagramTyped(instagram: string)
    | EmailTyped(email: string)
    | SubmitPressed(emailValid: bool)
    | NewPhotoPressed

  /** Whether the event can occur in `s`, screen by screen as the views render their
      controls: buttons exist only on their own screen, the capture button is disabled while
      the countdown is below 3, a tick needs a running interval, and the compositor can only
      settle while its result is awaited on the processing screen.
      The email field is an `<input type="email">` in a validating form, so the browser fires
      the submit handler only for an empty or well-formed address; `emailValid` is the
      browser's verdict on a non-empty one. */
  function Enabled(s: State, e: Event): (r: bool)
    ensures e.Tick? ==> (r <==> e.timer < |s.timers|)
    ensures s.step == Start && !e.Tick? ==> (r <==> e.StartPressed?)
    ensures s.step == Camera && !e.Tick? ==> (r <==> e.CapturePressed? && s.countdown >= CountdownArmed)
    ensures s.step == Preview && !e.Tick? ==> (r <==> e.RetakePressed? || e.ApprovePressed?)
    ensures s.step == Processing && !e.Tick? ==> (r <==> e.CompositorSettled?)
    ensures s.step == ResultScreen && !e.Tick? ==> (r <==> e.GetPhotoPressed?)
    ensures s.step == Form && !e.Tick? ==>
              (r <==> e.InstagramTyped? || e.EmailTyped? || (e.SubmitPressed? && (s.form.email == "" || e.emailValid)))
    ensures s.step == Finish && !e.Tick? ==> (r <==> e.NewPhotoPressed?)
  {
    match e
    case StartPressed(_) => s.step == Start
    case CapturePressed => s.step == Camera && s.countdown >= CountdownArmed
    case Tick(i, _, _) => i < |s.timers|
    case RetakePressed => s.step == Preview
    case ApprovePressed => s.step == Preview
    case CompositorSettled(_) => s.step == Processing
    case GetPhotoPressed => s.step == ResultScreen
    case InstagramTyped(_) => s.step == Form
    case EmailTyped(_) => s.step == Form
    case SubmitPressed(emailValid) => s.step == Form && (s.form.email == "" || emailValid)
    case NewPhotoPressed => s.step == Finish
  }

  /** The screen the handler of `e` shows when it changes the screen at all. */
  function ScreenAfter(e: Event): Step {
    match e
    case StartPressed(_) => Camera
    case CapturePressed => Camera
    case Tick(_, _, _) => Preview
    case RetakePressed => Camera
    case ApprovePressed => Processing
    case CompositorSettled(processed) => if processed.Some? then ResultScreen else Preview
    case GetPhotoPressed => Form
    case InstagramTyped(_) => Form
    case EmailTyped(_) => Form
    case SubmitPressed(_) => Finish
    case NewPhotoPressed => Start
  }

  /** The handler an enabled event runs. The video element is mounted only while the
      camera screen is rendered, so a tick can grab a frame only on that screen. Each
      handler moves along one edge of the screen graph or stays put, and each piece of state
      has its own few writers: the camera handlers for the stream, `takePhoto` and the
      interval for the countdown, capture, retake and reset for the captured image, the
      compositor and reset for the composite, and the form fields and reset for the form. */
  function Apply(s: State, e: Event): (r: State)
    requires Enabled(s, e)
    ensures r.step == s.step || r.step == ScreenAfter(e)
    ensures r.streamHeld != s.streamHeld ==> e.StartPressed? || e.ApprovePressed?
    ensures !SameCountdown(s, r) ==> e.CapturePressed? || e.Tick?
    ensures r.capturedImage != s.capturedImage ==> e.Tick? || e.RetakePressed? || e.NewPhotoPressed?
    ensures r.finalImage != s.finalImage ==> e.CompositorSettled? || e.NewPhotoPressed?
    ensures r.form != s.form ==> e.InstagramTyped? || e.EmailTyped? || e.NewPhotoPressed?
  {
    match e
    case StartPressed(granted) => StartCamera(s, granted)
    case CapturePressed => TakePhoto(s)
    case Tick(i, contextReady, frame) => TimerTick(s, i, s.step == Camera, contextReady, frame)
    case RetakePressed => Retake(s)
    case ApprovePressed => ApproveStart(s)
    case CompositorSettled(processed) => CompositeDone(s, processed)
    case GetPhotoPressed => ShowForm(s)
    case InstagramTyped(v) => EditInstagram(s, v)
    case EmailTyped(v) => EditEmail(s, v)
    case SubmitPressed(_) => SubmitForm(s)
    case NewPhotoPressed => ResetApp(s)
  }

  /** One step of the session: an event that cannot occur leaves the state alone. */
  function Next(s: State, e: Event): (r: State)
    ensures !Enabled(s, e) ==> r == s
  {
    if Enabled(s, e) then Apply(s, e) else s
  }

  /** The state after delivering `events` in order. */
  function Run(s: State, events: seq<Event>): State
    decreases |events|
  {
    if events == [] then s else Run(Next(s, events[0]), events[1..])
  }

  /** Unfolds one event of a run. */
  lemma RunStep(s: State, events: seq<Event>)
    requires events != []
    ensures Run(s, events) == Run(Next(s, events[0]), events[1..])
  {
  }

  /** Running two batches of events one after the other is running their concatenation. */
  lemma {:induction false} RunAppend(s: State, a: seq<Event>, b: seq<Event>)
    ensures Run(s, a + b) == Run(Run(s, a), b)
    decreases |a|
  {
    if a != [] {
      assert (a + b)[0] == a[0];
      assert (a + b)[1..] == a[1..] + b;
      calc {
        Run(s, a + b);
        Run(Next(s, a[0]), a[1..] + b);
        { RunAppend(Next(s, a[0]), a[1..], b); }
        Run(Run(Next(s, a[0]), a[1..]), b);
        Run(Run(s, a), b);
      }
    } else {
      assert a + b == b;
    }
  }
}
