# IndirectSwipeRecognizer in Dafny

A model of the core of IndirectSwipeRecognizer, a macOS component that taps
the system's raw trackpad touch events and turns two-finger contact into a
continuous swipe gesture (`value`, `delta`, `velocity`) on the
`NSGestureRecognizer` of the view under the pointer.

The model has four modules:

- `Touches` (touches.dfy): touch events as AppKit delivers them. Each touch
  has an identity, a phase (`began`, `moved`, `stationary`, `ended`,
  `cancelled`) and a normalized position. It also models
  `touches(matching:in:)` for one phase, `.touching` and `.any`, and the
  left-fold sum of the positions. Coordinates (`CGFloat`) are reals.
- `EventTap` (event_tap.dfy): `SystemEventListener`. It covers the 64-bit
  event mask built from the requested event types, the `isEnabled` flag, and
  the tap callback's choice between re-enabling the tap and delivering the
  event.
- `Swipe` (swipe.dfy): the `TouchSwipeRecognizer` class. It has the fields
  of the Swift class, the clamping `detectionInset`, and the two property
  observers made explicit as `AssignValue` (`delta` follows `value`) and
  `AssignTime` (`velocity` follows the sample time). It also has `reset`,
  the four touch handlers and `avg`. A few client methods drive a fresh
  recognizer through whole gestures.
- `Tracker` (tracker.dfy): `IndirectTouchTracker.dispatch`, modelled as the
  ordered list of (recognizer, handler) calls it makes for one event, given
  the recognizers of the hit view. Also the class property
  `NSGestureRecognizer.wantsIndirectTouches` over the optional global
  tracker.

The time source `CACurrentMediaTime()` is the `now` parameter of each
handler. Hit-testing is the `hit` parameter of `Dispatch`: the recognizers
of the hit view, or `None` when no window or view is found. Whether a raw
event decodes to an `NSEvent` is the `decodes` parameter of `Callback`.

The model follows the code on these points, where its behaviour may be
unexpected:

- The router's gate is "two or more touches", so 3-finger events are also
  forwarded (`ThreeFingersForwarded`), and the recognizer then fails the
  gesture (`ThreeFingerMoveFails`).
- `touchesMoved` counts touches in any phase, not only touching ones. It
  averages all of them.
- `.failed` is not terminal. No handler looks at `state`, so a 2-touch move
  after a failure changes the gesture again (`MoveAfterFailure`).
- `touchesBegan` does not set `velocity` to -1. It writes the time, so
  `velocity` becomes the time since the previous sample. Right after
  `reset()` that is `now - 0` (`VelocityAfterReset`). `velocity` is an
  interval, not a rate.
- `reset()` does not assign `state`. AppKit returns a recognizer to
  `.possible` itself.

## Model

| member | source | states |
|---|---|---|
| `Touches.Matching` | IndirectSwipeRecognizer.swift:236 | the touches matching a phase mask are exactly the event's touches in those phases; `.any` keeps them all |
| `Touches.MatchingDistinct` | IndirectSwipeRecognizer.swift:236 | filtering an event whose touches have distinct identities gives touches with distinct identities, as a subset of a `Set` is a set |
| `Touches.Count` | IndirectSwipeRecognizer.swift:135 | the `.count` of the matching touches is at most the number of touches, and equals it for `.any` |
| `Touches.BeganIsTouching` | IndirectSwipeRecognizer.swift:145-147 | an event with a `.began` touch has a non-zero `.touching` count |
| `Touches.Sum` | IndirectSwipeRecognizer.swift:269-271 | the sum of n positions in the unit square lies in [0, n] on each axis |
| `Touches.SumOfPermutation` | IndirectSwipeRecognizer.swift:269-271 | the sum over a set of touches does not depend on the order in which the set is enumerated |
| `EventTap.Bit` | IndirectSwipeRecognizer.swift:54 | `1 << raw` on a 64-bit mask is non-zero below 64 and zero from 64 on |
| `EventTap.Fold` | IndirectSwipeRecognizer.swift:54 | the or-fold over the events only sets bits: every bit of the start value stays set |
| `EventTap.FoldBit` | IndirectSwipeRecognizer.swift:54 | bit k of the or-fold is set iff it was set in the start value or some event type has raw value k |
| `EventTap.Mask` | IndirectSwipeRecognizer.swift:54 | for every k below 64, bit k of the listener's mask is set iff some requested event type has raw value k |
| `EventTap.TouchesMask` | IndirectSwipeRecognizer.swift:103 | the touch tracker's mask (event type 29 only) is 0x2000_0000 |
| `EventTap.SystemEventListener.constructor` | IndirectSwipeRecognizer.swift:51-54 | a new listener keeps its events, registers their mask and starts enabled |
| `EventTap.SystemEventListener.SetEnabled` | IndirectSwipeRecognizer.swift:43-47 | assigning `isEnabled` stores the new flag and changes nothing else |
| `EventTap.SystemEventListener.Callback` | IndirectSwipeRecognizer.swift:59-67 | the two tap-disabled event types, and only they, re-enable the tap with the listener's own flag; any other event is delivered iff it decodes |
| `EventTap.PausedStaysPaused` | IndirectSwipeRecognizer.swift:59-63 | a paused listener re-enables its tap as disabled after a system auto-disable |
| `Swipe.ClampUnit` | IndirectSwipeRecognizer.swift:196-197 | the clamped value is in [0, 1]; values in [0, 1] are kept, values below go to 0 and above to 1 |
| `Swipe.ClampInset` | IndirectSwipeRecognizer.swift:194-198 | both sides of a clamped inset are in [0, 1], and an in-range inset is stored unchanged |
| `Swipe.ClampInsetIdempotent` | IndirectSwipeRecognizer.swift:194-198 | clamping twice equals clamping once |
| `Swipe.Avg` | IndirectSwipeRecognizer.swift:267-274 | each coordinate of the average times (1 - inset) is the mean position of the touches on that axis; for touches in the unit square that mean lies in [0, 1] |
| `Swipe.AvgOfPermutation` | IndirectSwipeRecognizer.swift:267-274 | the average of a set of touches does not depend on its enumeration order |
| `Swipe.TouchSwipeRecognizer.constructor` | IndirectSwipeRecognizer.swift:190-225 | initial state `.possible`, inset (0.5, 0.5), zero value and delta, time 0, velocity -1, no initial touches, wants indirect touches |
| `Swipe.TouchSwipeRecognizer.SetDetectionInset` | IndirectSwipeRecognizer.swift:194-198 | after any assignment the inset is the clamped value, both sides in [0, 1]; nothing else changes |
| `Swipe.TouchSwipeRecognizer.AssignValue` | IndirectSwipeRecognizer.swift:205-209 | a write of `value` sets `delta` to the new value minus the old one, keeps the clamped-inset invariant and changes nothing else |
| `Swipe.TouchSwipeRecognizer.AssignTime` | IndirectSwipeRecognizer.swift:216-218 | a write of the time sets `velocity` to the new time minus the old one, keeps the clamped-inset invariant and changes nothing else |
| `Swipe.TouchSwipeRecognizer.Reset` | IndirectSwipeRecognizer.swift:227-233 | whatever the prior fields, value and delta are zero, time 0, velocity -1 and no initial touches; state and inset are kept, and so is the clamped-inset invariant |
| `Swipe.TouchSwipeRecognizer.TouchesBegan` | IndirectSwipeRecognizer.swift:235-240 | nothing changes when no touch is touching; otherwise the initial touches become all of the event's touches, the time becomes `now` (velocity the interval since the old time) and the state `.began`; the clamped-inset invariant is kept |
| `Swipe.TouchSwipeRecognizer.TouchesMoved` | IndirectSwipeRecognizer.swift:242-252 | with a touch count other than 2 the state becomes `.failed` and value, delta, time and velocity are kept; with 2 the value becomes the current average minus the initial average, delta the change of value, the time `now` and the state `.changed`; the clamped-inset invariant is kept |
| `Swipe.TouchSwipeRecognizer.TouchesEnded` | IndirectSwipeRecognizer.swift:254-258 | nothing changes while a touch is touching; once none is, the time becomes `now` and the state `.ended`, value and delta untouched; the clamped-inset invariant is kept |
| `Swipe.TouchSwipeRecognizer.TouchesCancelled` | IndirectSwipeRecognizer.swift:260-264 | as ended, with state `.cancelled` |
| `Swipe.ExampleAverages` | IndirectSwipeRecognizer.swift:267-274 | with inset (0.5, 0.5) the averages of the example's touches are (0.6, 1.1) and (0.8, 1.1) |
| `Swipe.WorkedExample` | IndirectSwipeRecognizer.swift:242-252 | touches moving from (0.3, 0.5), (0.3, 0.6) to (0.4, 0.5), (0.4, 0.6) with inset (0.5, 0.5) give value (0.2, 0.0), delta (0.2, 0.0), state `.changed` |
| `Swipe.MoveAll` | IndirectSwipeRecognizer.swift:242-252 | after a run of 2-touch samples the gesture is `.changed`, at the last sample's time, with the last sample's average minus the initial average as value |
| `Swipe.TwoFingerSwipe` | IndirectSwipeRecognizer.swift:235-258 | began, one or more 2-touch moves and a no-finger end leave state `.ended`, the last move's value, and the interval between the last two samples as velocity |
| `Swipe.MoveAfterFailure` | IndirectSwipeRecognizer.swift:242-251 | a move with a touch count other than 2 fails the gesture, and a later 2-touch move changes it again |
| `Swipe.VelocityAfterReset` | IndirectSwipeRecognizer.swift:227-238 | velocity is -1 after reset, and the next began at t gives velocity t |
| `Swipe.Apply` | IndirectSwipeRecognizer.swift:227-264 | one handler call or `reset()`: a call that passes its guard sets the time to `now` and velocity to the interval since the old time; one that does not keeps both; `reset()` gives time 0 and velocity -1 |
| `Swipe.SampleRun` | IndirectSwipeRecognizer.swift:216-264 | over any run of handler calls and resets with a non-negative clock that never runs backwards, in which every 2-touch move follows a began sample since construction or the last reset, velocity is -1 ("no event received") exactly until the first sampling call after construction or reset, and non-negative from then on |
| `Tracker.CallsForMembership` | IndirectSwipeRecognizer.swift:145-160 | trying handlers in turn calls exactly those tried whose phase some touch has |
| `Tracker.CallsForAscending` | IndirectSwipeRecognizer.swift:145-160 | handlers tried in ascending order are called in ascending order |
| `Tracker.HandlerCalls` | IndirectSwipeRecognizer.swift:145-160 | a wanting recognizer gets one call per handler whose phase is present, in the order began, moved, ended, cancelled |
| `Tracker.HandlerCallsUnrolled` | IndirectSwipeRecognizer.swift:145-160 | those calls are the four `if` tests of the per-recognizer closure, one after the other |
| `Tracker.RecognizerCalls` | IndirectSwipeRecognizer.swift:142-161 | the calls made on the recognizers, in order: at most four per recognizer, and none when no recognizer wants indirect touches |
| `Tracker.DispatchCalls` | IndirectSwipeRecognizer.swift:134-161 | the calls dispatch makes for one event: none unless it has 2 or more touches and a view was hit, and at most four per recognizer of that view |
| `Tracker.RecognizerCallsMembership` | IndirectSwipeRecognizer.swift:142-161 | a call is made iff a recognizer with that identity wants indirect touches and the handler's phase is present |
| `Tracker.DispatchMembership` | IndirectSwipeRecognizer.swift:134-161 | dispatch makes a call iff the event has at least 2 touches, a view was hit, a recognizer of that identity there has `wantsIndirectTouches` true, and some touch has the handler's phase |
| `Tracker.RecognizerCallsTo` | IndirectSwipeRecognizer.swift:142-161 | with distinct identities, the calls one recognizer receives are its handler calls if it wants indirect touches, and none otherwise |
| `Tracker.DispatchTo` | IndirectSwipeRecognizer.swift:134-161 | with distinct identities, a recognizer receives its handler calls in phase order if the event has 2 or more touches and its flag is true; with fewer touches, or a flag false or absent, it receives nothing |
| `Tracker.ForwardedBeganIsTouching` | IndirectSwipeRecognizer.swift:145-147 | a forwarded `touchesBegan` always passes the recognizer's touching guard |
| `Tracker.OnlyMovedTouches` | IndirectSwipeRecognizer.swift:145-160 | an event whose touches all move produces only a `touchesMoved` call |
| `Tracker.ThreeFingersForwarded` | IndirectSwipeRecognizer.swift:135 | a move of 3 distinct fingers reaches the wanting recognizer of the hit view, and the recognizer without the flag gets nothing |
| `Tracker.IndirectTouchTracker.constructor` | IndirectSwipeRecognizer.swift:124-127 | a new tracker owns a fresh, enabled listener for touch events only |
| `Tracker.IndirectTouchTracker.Forward` | IndirectSwipeRecognizer.swift:144-161 | the per-recognizer closure makes exactly that recognizer's handler calls |
| `Tracker.IndirectTouchTracker.Dispatch` | IndirectSwipeRecognizer.swift:134-161 | the calls made, in order, are those of the dispatch specification |
| `Tracker.IndirectTouchSupport.constructor` | IndirectSwipeRecognizer.swift:180 | the process starts without a tracker, so the flag reads false |
| `Tracker.IndirectTouchSupport.WantsIndirectTouches` | IndirectSwipeRecognizer.swift:170 | the getter reads true iff a tracker exists |
| `Tracker.IndirectTouchSupport.SetWantsIndirectTouches` | IndirectSwipeRecognizer.swift:169-178 | the getter then returns the new value; turning on keeps an existing tracker, turning off without one leaves none, turning on without one creates a fresh one |
| `Tracker.AssignFlags` | IndirectSwipeRecognizer.swift:170-180 | the getter reads false before any assignment, and after each assignment in any series it returns the value just assigned |
| `Tracker.ThreeFingerMoveFails` | IndirectSwipeRecognizer.swift:135-161 | a 3-finger move after a began sample is forwarded as `touchesMoved` to the recognizer that wants indirect touches, and the recognizer fails the gesture |

## Left out

- `AppDelegate`, the demo application and its layer animation: UI code, not part of the core.
- Creating the event tap (`CGEvent.tapCreate`), `tapEnable`, `CFMachPortCreateRunLoopSource` and the context pointer cast: calls into the operating system. `SetEnabled` stores the flag but does not model the tap. The force-unwrap crash when tap creation is denied is not modelled.
- `RunLoop.add`/`remove` and the `DispatchQueue.main.async` hand-off in the tracker's initializer: run-loop and thread plumbing over foreign calls.
- Window lookup, `borderView` hit-testing and `setValue(view, forKey: "view")` on the touches: AppKit machinery. Hit-testing is an input, and the view assignment on touches is not modelled.
- `responds(to:)`/`perform(_:with:)`: modelled as direct calls. Every `NSGestureRecognizer` implements the four touch handlers.
- The listener's `action` closure: the `Deliver` outcome stands for calling it, and `Dispatch` models what the tracker's action does.
- Decoding a raw `CGEvent` into an `NSEvent`: a boolean input.
- The `CGEventType` and `RunLoopMode` extension constants: only named (`FluidGestureSwipe`, `FluidEdgeSwipe` are unused by the core).
- Floating point: coordinates and times are reals, with no rounding, NaN or infinity.
- Swipe.TouchSwipeRecognizer.TouchesBegan, TouchesMoved, TouchesEnded, TouchesCancelled: `now` is unconstrained in each handler, so called one by one the model's clock may run backwards and give a negative velocity, which `CACurrentMediaTime()` never does. `SampleRun` states the velocity promise for a non-negative clock that never runs backwards.
- Swipe.SampleRun: requires every 2-touch move to follow a began sample since construction or the last reset (`Primed`). A run without one, such as a 2-touch move straight after `reset()`, is excluded. On it the Swift code still sets the time and the velocity as promised, but `avg` of the empty `initialTouches` divides by zero and `value` becomes NaN, which `TouchesMoved`'s precondition rules out.
- Swipe.Avg: requires a non-empty set of touches and an inset below 1 on both axes. The Swift code divides by the count and by `1 - inset`, and an inset of exactly 1 is allowed, which would give NaN or infinity.
- Swipe.TouchSwipeRecognizer.TouchesMoved: when the event has 2 touches, requires non-empty initial touches and an inset below 1. Outside that, the Swift code stores a NaN or infinite value, which reals cannot represent.
- The effects of assigning `state` inside AppKit (action messages, the return to `.possible` before `reset`): framework behaviour. `state` is a plain field here.
- Touch sets are sequences. `touches(matching:in:)` returns a `Set<NSTouch>`. `SumOfPermutation` and `AvgOfPermutation` show that the enumeration order does not matter. Only a sequence without duplicates (`Distinct`: distinct identities) stands for an event. `MatchingDistinct` shows that filtering keeps it so. The handlers and `Dispatch` do not require it, so on a sequence with repeated touches `Count` counts the repeats, which a `Set` does not; the scenario lemma `ThreeFingersForwarded` requires `Distinct`.
- Tracker.IndirectTouchSupport.SetWantsIndirectTouches: the model does not capture that a dropped tracker stays alive and keeps routing. In the Swift code the listener's `action` closure captures the tracker strongly (IndirectSwipeRecognizer.swift:125-127, stored at lines 40 and 53). The main run loop also holds the listener's source, and nothing disables the tap when the tracker is released. So `_tracker = nil` (line 173) does not stop dispatch. Turning the flag on again (line 175) adds a second tracker with its own tap, and each handler is then called once per live tracker for every event. The model's `tracker := null` only tracks the `_tracker` variable. Object lifetime, reference counting and run-loop ownership are not modelled.
