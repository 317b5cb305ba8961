# Taco Booth session and template compositor, in Dafny

A model of the two pieces of logic inside the Taco Booth kiosk, a React photo booth app.

1. **The session state machine** of the `App` component (`App.tsx`). The state is one immutable record (`Session.State`) holding:
   - the current screen (`step`, over the seven `AppStep` values);
   - the countdown shown over the camera view;
   - the captured and the composited image;
   - the contact form;
   - whether a camera stream is held (`streamRef.current` non-null);
   - the counters of the one-second intervals started by `takePhoto` that are still running.

   Each handler is a pure function on that record, written as the code behaves and without step checks. The rendered view decides which handlers can run at all:
   - each screen offers only its own buttons;
   - the capture button is `disabled={countdown < 3}`;
   - the email field is an `<input type="email">` inside a form without `noValidate`, so the browser fires the submit handler only when the email is empty or well formed.

   That gating is `Session.Enabled`. `Session.Next` delivers one event and `Session.Run` delivers a sequence of them.

   Outside outcomes are carried by the events:
   - whether the camera was granted;
   - whether a 2D context was available when a frame is grabbed, and the frame the browser encoded;
   - whether the compositor resolved with an image or rejected;
   - the browser's verdict on a non-empty email when the form is submitted.

   The interval is modelled as discrete `Tick` events. `approvePhoto` is split in two: its synchronous part (`ApproveStart`) and the settlement of the awaited compositor (`CompositeDone`). The video element is mounted only while the camera screen is rendered, so a tick grabs a frame only on that screen.

2. **The template compositor** `processImageWithTemplate` (`services/imageService.ts`). It is modelled as a pure function that returns `Result<Composite, CompositeError>`.
   - A `Composite` holds the canvas size and the ordered list of drawing operations: the gradient background, twenty circles, the white frame, the centred-square crop of the input drawn into the 900 by 900 photo box, two captions and two taco stickers.
   - Coordinates are exact `real`s, because a crop origin can fall on a half pixel.
   - The sixty `Math.random()` values are a parameter.

Files:
- `wrappers.dfy`: `Option` and `Result`.
- `session.dfy`: the record, the handlers, the events, `Next` and `Run`.
- `session_invariants.dfy`: the invariant of every reachable state and the countdown lemmas.
- `session_traces.dfy`: concrete runs.
- `session_rearmed.dfy`: the corrected countdown described under Findings.
- `compositor.dfy`: the compositor.

Where the code departs from the intended flow of the booth, the model follows the code:
- **The stream is held in PREVIEW too.** The intended flow holds the stream exactly on the CAMERA screen. In the code it is held on CAMERA and PREVIEW. It is released only on approval (App.tsx:107) or when the component unmounts (App.tsx:147).
- **Retake and reset leave the countdown alone.** The intended flow resets the countdown to 3 on a retake. `retake` and `resetApp` never write the countdown.
- **Reset does not stop the camera.** `resetApp` never calls `stopCamera`. This costs nothing: on the finish screen no stream is ever held (`SessionInvariants.StreamOnlyWhileShooting`).
- **A failed composite leaves no stream.** After a compositor failure the preview returns without a stream. A retake from there shows the camera screen with no stream attached (`SessionTraces.CameraWithoutStream`).
- **Falsy strings are treated as JavaScript does.** `approvePhoto` returns early for an empty string as well as for null. `submitForm` refuses empty fields.

## Model

| member | source | states |
|---|---|---|
| Session.StartCamera | App.tsx:38-54 | a granted request shows the camera screen and holds the stream; a denied one changes nothing; images, form and countdown are kept either way |
| Session.StopCamera | App.tsx:56-61 | afterwards no stream is held; screen, images, form and countdown are untouched |
| Session.TakePhoto | App.tsx:63-68 | stays on the camera screen, shows 3 and adds one running interval with counter 3; stream, images and form untouched |
| Session.TimerTick | App.tsx:68-76 | a tick of an interval above 1 shows its decremented counter and changes nothing else; the tick of an interval at 1 removes that interval, leaves the countdown as it was, and is exactly a frame capture |
| Session.CaptureFrame | App.tsx:79-97 | with a mounted video and a context the frame becomes the captured image and the preview is shown, all else kept; otherwise the state is unchanged |
| Session.Retake | App.tsx:99-102 | drops the captured image and returns to the camera screen; stream, composite, form and countdown untouched |
| Session.ApproveStart | App.tsx:104-107 | a no-op without a (non-empty) captured image; otherwise the processing screen with the stream released, data kept |
| Session.CompositeDone | App.tsx:108-116 | a resolved compositor stores its image and shows the result; a rejection returns to the preview keeping the captured image; stream and countdown untouched |
| Session.ShowForm | App.tsx:236 | the result screen's button moves to the form and changes nothing else |
| Session.EditInstagram | App.tsx:255 | typing replaces only the Instagram field |
| Session.EditEmail | App.tsx:266 | typing replaces only the email field |
| Session.SubmitForm | App.tsx:119-128 | an empty email or handle leaves the state unchanged; a complete form moves to the finish screen with the form and images kept |
| Session.ResetApp | App.tsx:130-135 | clears both images and the form and returns to start, leaving the stream flag and the countdown alone |
| Session.Teardown | App.tsx:145-148 | the unmount cleanup leaves no stream held |
| Session.Enabled | App.tsx:150-302 | screen by screen, the user events that can occur are exactly the controls its view renders: start on START; capture on CAMERA, only while the countdown shows 3; retake and approve on PREVIEW; only the compositor's settlement on PROCESSING; "Get My Photo" on RESULT; the two fields, and a submit whose email is empty or accepted by the browser, on FORM; "New Photo" on FINISH; a tick on any screen while its interval runs |
| Session.Apply | App.tsx:158-287 | each control runs the handler bound to it: the screen either stays or moves to the one the control leads to (`ScreenAfter`); only the camera start and approval change the stream, only capture and ticks the countdown, only ticks, retake and reset the captured image, only the compositor and reset the composite, only typing and reset the form |
| Session.Next | App.tsx:292-302 | an event whose button is not rendered or is disabled, or a submit the browser's email check blocks, leaves the state unchanged |
| SessionInvariants.InitInv | App.tsx:27-34 | the initial state satisfies the reachability invariant |
| SessionInvariants.NextKeepsStreamInv | App.tsx:38-61 | no event puts a held stream on a screen other than camera or preview |
| SessionInvariants.NextKeepsDataInv | App.tsx:79-135 | every event keeps which screens carry a captured image, a composite and a filled form |
| SessionInvariants.NextKeepsCountdownInv | App.tsx:63-77 | every event keeps countdown and interval counters in 1..3, a shown 3 with only untouched intervals, and the countdown below 3 after a capture |
| SessionInvariants.NextKeepsInv | App.tsx:38-135 | every event preserves the whole invariant |
| SessionInvariants.RunKeepsInv | App.tsx:38-135 | every sequence of events preserves the invariant |
| SessionInvariants.ReachableInv | App.tsx:26-135 | every state reachable from the initial one satisfies the invariant |
| SessionInvariants.StreamOnlyWhileShooting | App.tsx:104-107 | in every reachable state a held stream means the camera or preview screen: processing, result, form, finish and start never hold it |
| SessionInvariants.StopCameraIdempotent | App.tsx:56-61 | stopping leaves no stream whether or not one was held, and stopping twice is stopping once |
| SessionInvariants.CountdownSequence | App.tsx:63-77 | from an armed camera screen a capture request shows 3, the next ticks show 2 then 1, and the third tick captures (or fails without a context) leaving the countdown at 1 |
| SessionInvariants.TickCapturesOnlyAtOne | App.tsx:68-76 | a tick of an interval above 1 keeps screen and image and shows the next lower value; only an interval at 1 ends |
| SessionInvariants.CountdownStaysLow | App.tsx:192-194 | once the countdown is below 3 it stays below 3 and the capture control stays disabled, whatever events follow |
| SessionInvariants.CaptureNeverReenabled | App.tsx:99-102 | after any run that has left the start and camera screens, the capture control is never enabled again |
| SessionTraces.RunThree | App.tsx:26-135 | proof helper, models no source line: a run of three events is three single steps |
| SessionTraces.ShotTaken | App.tsx:38-97 | granted camera, capture request and three ticks leave the preview with the frame, stream held, countdown 1 |
| SessionTraces.HappyPath | App.tsx:38-128 | the walk start, capture, approve, successful composite, form, submit ends on the finish screen with composite and form and no stream |
| SessionTraces.MalformedEmailStaysOnForm | App.tsx:247-269 | a non-empty email the browser rejects never reaches `submitForm`: the form screen stays with the form as typed |
| SessionTraces.CameraDenied | App.tsx:50-53 | a denied camera request leaves the initial state, with no stream |
| SessionTraces.RetakeLeavesCaptureDisabled | App.tsx:99-102 | after a capture and a retake the camera screen shows countdown 1 and the capture control is disabled |
| SessionTraces.LeftoverIntervalCaptures | App.tsx:63-102 | after a double press the second interval outlives the first capture, and after a retake it grabs a new frame although the capture control stays disabled |
| SessionTraces.DoublePressRunsTwoTimers | App.tsx:192-194 | two presses within the first second leave two intervals running |
| SessionTraces.CameraWithoutStream | App.tsx:104-116 | approve, compositor failure and retake reach the camera screen with no stream held |
| SessionRearmed.RetakeRearmed | App.tsx:99-102 | corrected retake: as written, and the countdown is back at 3 |
| SessionRearmed.ResetRearmed | App.tsx:130-135 | corrected reset: as written, and the countdown is back at 3 |
| SessionRearmed.NextRearmed | App.tsx:192-194 | disabled events change nothing; every enabled event other than retake and reset behaves as written |
| SessionRearmed.NextRearmedKeepsInv | App.tsx:63-135 | every corrected step keeps at most one interval, running only on the camera screen with its counter shown |
| SessionRearmed.RunRearmedKeepsInv | App.tsx:63-135 | every corrected run keeps that invariant |
| SessionRearmed.RearmedSingleCountdown | App.tsx:192-194 | in every reachable corrected state at most one countdown runs, capture is disabled while it does, and the stream is held only on camera or preview |
| SessionRearmed.RearmedCameraEntryArmed | App.tsx:99-102 | every way back onto the camera screen finds the capture control enabled |
| SessionRearmed.RearmedRetakeCanCaptureAgain | App.tsx:99-102 | after a capture and a retake the corrected capture control is enabled |
| SessionRearmed.RearmedSecondPressRefused | App.tsx:192-194 | a second press during the first second starts no second interval |
| Compositor.CenterCrop | services/imageService.ts:60-62 | the crop is a square of side min(width, height), centred (2·sx + side = width, 2·sy + side = height), with sx or sy zero, inside the image |
| Compositor.PhotoRect | services/imageService.ts:43-46 | the photo box is a 900 square, horizontally centred, inside the canvas |
| Compositor.FrameRect | services/imageService.ts:54 | the white frame contains the photo box, lies inside the canvas and is horizontally centred |
| Compositor.Circles | services/imageService.ts:31-40 | exactly twenty translucent white circles, each centred in [0,1080)×[0,1350) with radius in [20,70) |
| Compositor.CaptionLayout | services/imageService.ts:70-86 | `Captions` draws four centre-aligned texts: the two captions on the canvas's vertical midline, below the photo and inside the frame, the subtitle under the title; two identical taco stickers above the photo, mirrored about the midline |
| Compositor.PaintingOrder | services/imageService.ts:24-86 | `Layers` paints position by position: the background first over the whole canvas, then exactly the twenty circle slots, the frame (the only other filled rectangle), the one image draw of the centred crop into the photo box, and text in every position after it |
| Compositor.ProcessImageWithTemplate | services/imageService.ts:5-95 | no context rejects before decoding, a failed decode rejects, and only then a composite exists, always 1080 by 1350 |
| Compositor.LayersHaveTwentyCircles | services/imageService.ts:31-40 | the drawing list holds exactly twenty circle operations, counted independently of how it is built, whatever the input image |
| Compositor.ExactlyTwentyCircles | services/imageService.ts:33-40 | every successful output contains exactly twenty circle operations |
| Compositor.Geometry | services/imageService.ts:24-86 | background over the whole canvas, circles in slots 1..20, frame (70,130,940,1080) inside the canvas and around the photo box (90,150,900,900) holding the centred crop, captions at x 540 and y 1130 and 1180 inside the frame, stickers at (930,140) and (150,140) |
| Compositor.OnlyCropDependsOnInput | services/imageService.ts:17-86 | two inputs give the same canvas size and the same operations except for the photo's source rectangle |
| Compositor.LandscapeCropExample | services/imageService.ts:60-62 | a 1600 by 1200 input crops to the 1200 square at (200, 0) |
| Compositor.CountCirclesAppend | services/imageService.ts:33-40 | proof helper for `ExactlyTwentyCircles`, models no source line: circle counts add over concatenated drawing lists |

## Findings

| source | as written | input that shows it | evidently intended | confidence | as-written member | corrected member |
|---|---|---|---|---|---|---|
| App.tsx:99-102 | `retake` and `resetApp` never put the countdown back to 3, and the capture button is disabled below 3, so after the first capture the capture control is never enabled again, through retakes and new sessions alike; the only frame still taken is by an interval left over from a double press, if a retake comes before it fires (`SessionTraces.LeftoverIntervalCaptures`) | granted start, capture, three ticks, retake | a retake, and a new session, re-arm the countdown so that returning to the camera screen allows a capture again | high, not executed | SessionTraces.RetakeLeavesCaptureDisabled | SessionRearmed.RearmedCameraEntryArmed |
| App.tsx:192-194 | the button is disabled only once the shown value drops below 3, so it still works during the first second of a countdown and a second press starts a second interval | granted start, capture, capture within one second | the capture control is disabled for the whole countdown | medium, not executed | SessionTraces.DoublePressRunsTwoTimers | SessionRearmed.RearmedSingleCountdown |

The corrected machine `SessionRearmed.NextRearmed` differs from the written one in three places:
- `RetakeRearmed` re-arms the countdown.
- `ResetRearmed` re-arms the countdown.
- The capture control also requires that no interval is running.

Every other handler is the written one. The correction covers retakes and new sessions only. A capture whose canvas context is missing still leaves the camera screen at countdown 1 with the control disabled, in the corrected machine as in the code, since `captureFrame` has no else branch (App.tsx:88-95). `SessionInvariants.CaptureNeverReenabled` states the first finding for every run, not just for the example input.

## Left out

- JSX rendering, icons, CSS and the `Button` component: presentation. Only which buttons each screen offers is kept (`Session.Enabled`).
- `getUserMedia`, stopping the stream's tracks, and the effect that attaches the stream to the video element (App.tsx:139-143): browser I/O. The stream is a boolean.
- A second press of the start button while a camera request is still pending is not modelled: `startCamera` is one atomic step whose outcome is an input.
- Canvas pixel semantics:
  - gradient interpolation;
  - the drop shadow (services/imageService.ts:50-53, 57);
  - the mirror transform of the captured frame (App.tsx:89-91);
  - arc rasterisation;
  - `toDataURL` encoding and its quality.

  These are foreign canvas calls and lossy encoding. The captured frame and the composited image enter the session as strings carried by events, and the compositor stops at the drawing list.
- The link between the two components is not modelled: the compositor's string result reaches the session only as the `CompositorSettled` event's payload.
- Real timers, React's batching of state updates and stale closures: the intervals are discrete `Tick` events, each firing one of the running intervals and applied to the current state.
- `Math.random`: its sixty values are a parameter of the compositor.
- The browser's email syntax check is not modelled. Its verdict on a non-empty email is an input of the submit event.
- `alert`, `console` output and the submission log (App.tsx:126): they change no state.
- Compositor.Circles: the bounds hold for exact arithmetic. The program computes in doubles, where `Math.random() * 50 + 20` can round up to exactly 70 for the largest random value, so for the program the radius bound is [20,70]. The centre bounds [0,1080) and [0,1350) hold for the program too, since those products stay below the canvas size. Floating-point rounding is not modelled.
- Compositor.Circles: states the kind, paint and bounds of each circle, not its exact coordinates. The exact values are fixed by the random values, which are themselves only known to lie in [0, 1).
- Session.Next: its contract only states that disabled events change nothing. What an enabled event does is stated by the contract of the handler it runs.
