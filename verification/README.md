# minimalist-clock: digit change detection and flip animations, in Dafny

This project models the logic at the core of minimalist-clock, a full-screen
flip clock written in TypeScript and React. Each piece is modelled in the
form its source takes.

- **Clock tick** (`ClockDisplay`). Once a second the clock pads the stored
  and the fresh hours and minutes to two characters. It compares the four
  display positions one character at a time and raises a one-shot animate
  flag for each position that differs. It schedules each flag's reset
  100 ms later and stores the fresh time. This is the class `Clock`.
  `Tick` is proved against the pure function `Raised`, and the lemmas about
  `Raised` state what a tick animates.
- **Two-digit formatting** and **time to the next minute** (`TimeSync`).
  These are pure functions with round-trip, shape and bound lemmas.
- **Executors.** There are three.
  - Classic flip (`ClassicFlip`) and drop-down (`DropDown`) are effects that
    make one gsap call on their container: set the end state at once, or
    tween from fixed start values to fixed end values. `Tweens` models the
    calls.
  - Card fold (`CardFold`) is a two-phase state machine with three state
    fields (overlay clip, overlay digit, bottom-card digit), the overlay's
    rotation, and the timelines its effect has started.
  - Each executor is a class whose `Render` follows React's effect rule:
    the effect runs only when its dependency list changed (`Effects`).
- **Dispatcher** (`AnimationHandler`). It resolves the optional digit props
  through their fallback chains and forces the duration to zero under
  reduced motion. It then picks the executor and its arguments.
- **Responsive layout** (`ResponsiveLayout`). It classifies the viewport,
  computes the piecewise-linear scale factor over exact reals, and models
  the debounced resize hook.

Some consequences of the code worth knowing:

- The stored time starts at 00:00, and the first tick after mounting
  compares against it. That first tick therefore animates every position
  whose digit is not zero (`ClockDisplay.FirstTickFromMidnight`).
- A card-fold timeline is never stopped when the effect runs again. Each
  run with a non-zero duration adds a timeline, and the callbacks of earlier
  ones still fire and overwrite the cards with the digit they captured.
  `CardFold.CardFoldAnimation` therefore keeps the sequence of every
  timeline started, and a callback may fire for any of them.
- 09:59 to 10:00 animates all four positions. 10:59 to 11:00 animates only
  three, because the hour tens digit stays '1' (`ClockDisplay.AllFourRollOver`,
  `ClockDisplay.SharedTensNotRaised`).
- With card-fold, the cloning fallback (a child element cloned with the
  digit as its content) is chosen only when no digit prop is given, and the
  old and new digits the dispatcher passes it are then both empty
  (`AnimationHandler.ClonedChildShowsChildrenOnly`). The card-fold component
  keeps its state across renders, so digits from an earlier render with a
  digit prop can still be on its cards and be shown cloned.

## Model

| member | source | states |
|---|---|---|
| TimeSync.NatString | src/utils/timeSync.ts:29 | `toString()` of a natural number has at least one character |
| TimeSync.DecimalString | src/utils/timeSync.ts:29 | `toString()` of an integer: the natural spelling from 0 on, a minus sign before the spelling of the magnitude below 0 |
| TimeSync.NatStringShape | src/utils/timeSync.ts:29 | the spelling uses only decimal digits, has no leading zero for a positive number, and has two or more digits exactly from 10 on |
| TimeSync.NatStringRoundTrip | src/utils/timeSync.ts:29 | reading the decimal spelling back gives the number |
| TimeSync.PadStart | src/utils/timeSync.ts:29 | `padStart` gives length max(|s|, width) |
| TimeSync.PadStartKeepsSuffix | src/utils/timeSync.ts:29 | padding only prepends fill characters: the result ends with the original string and everything before it is the fill |
| TimeSync.FormatTimeValue | src/utils/timeSync.ts:28-30 | the formatted value is at least two characters long |
| TimeSync.FormatNeverTruncates | src/utils/timeSync.ts:28-30 | the result ends with the full decimal spelling and equals it from 10 on: padding never truncates |
| TimeSync.FormatTwoDigitValue | src/utils/timeSync.ts:28-30 | for 0..99 the result is the tens digit then the ones digit, and '0' followed by the digit below 10 |
| TimeSync.FormatRoundTrip | src/utils/timeSync.ts:28-30 | for every natural number the result is all digits and reads back as the value |
| TimeSync.FormatTwoDigits | src/utils/timeSync.ts:28-30 | for 0..99 the result has exactly two digit characters whose value tens*10+ones is the input |
| TimeSync.MillisecondsUntilNextMinute | src/utils/timeSync.ts:36-44 | the wait from seconds s and millis m into the minute lies in (0, 60000] |
| TimeSync.NextMinuteIsFirstBoundary | src/utils/timeSync.ts:36-44 | now plus the wait is a minute boundary, and no instant strictly between is one |
| ClockDisplay.Face | src/components/ClockDisplay.tsx:48-51 | the four characters compared form a string of length 4 |
| ClockDisplay.FaceChars | src/components/ClockDisplay.tsx:48-51 | face positions 0..3 are characters 0 and 1 of the padded hours, then of the padded minutes |
| ClockDisplay.ComparisonsAreFace | src/components/ClockDisplay.tsx:48-72 | each of `updateTime`'s four character comparisons decides exactly whether its position changed |
| ClockDisplay.PulsesExact | src/components/ClockDisplay.tsx:54-72 | the scheduled resets contain a position exactly when its comparison differed, in strictly increasing display order |
| ClockDisplay.RaisedExactlyChanged | src/components/ClockDisplay.tsx:54-72 | a tick raises exactly the changed positions, each once, in display order |
| ClockDisplay.ChangedIffDigitDiffers | src/components/ClockDisplay.tsx:48-72 | for fields of at most two digits, a position animates exactly when its decimal digit (hours/10, hours%10, minutes/10, minutes%10) differs |
| ClockDisplay.SomeRaisedIffTimeChanged | src/components/ClockDisplay.tsx:54-74 | some flag is raised exactly when the hours or minutes differ; the date never matters |
| ClockDisplay.SameTimeRaisesNothing | src/components/ClockDisplay.tsx:54-72 | a tick to the stored hours and minutes raises no flag, for any values |
| ClockDisplay.HourTensAndOnesIndependent | src/components/ClockDisplay.tsx:54-62 | 09 to 10 raises both hour flags |
| ClockDisplay.AllFourRollOver | src/components/ClockDisplay.tsx:54-72 | 09:59 to 10:00 raises all four flags in display order |
| ClockDisplay.SharedTensNotRaised | src/components/ClockDisplay.tsx:54-72 | 10:59 to 11:00 raises hour ones, minute tens and minute ones, not hour tens |
| ClockDisplay.FirstTickFromMidnight | src/components/ClockDisplay.tsx:23-77 | the first tick compares against 00:00, so it animates exactly the positions whose digit is not zero |
| ClockDisplay.Clock.constructor | src/components/ClockDisplay.tsx:23-31 | the stored time is 00:00 with an empty date, all four flags are down, and no reset is pending |
| ClockDisplay.Clock.RaiseFlags | src/components/ClockDisplay.tsx:54-72 | each differing comparison raises its flag and appends its reset in display order; other flags and the time are unchanged; every raised flag has a pending reset |
| ClockDisplay.Clock.Tick | src/components/ClockDisplay.tsx:34-75 | the stored time becomes the new time, each flag is raised exactly when its position changed (others keep their value), and the resets of the changed positions are appended in display order |
| ClockDisplay.Clock.FireReset | src/components/ClockDisplay.tsx:55-71 | the oldest pending 100 ms reset lowers its flag and leaves the other flags and the time alone; every raised flag still has a pending reset |
| ClockDisplay.Clock.IsSettled | src/components/ClockDisplay.tsx:55-71 | once no reset is pending, every flag is down: flags are pulses, not latches |
| Effects.SameDepsDoNotRerun | src/components/ClassicFlipAnimation.tsx:41 | an effect reruns exactly when its dependency list differs from the last render's; after any render, rendering again with the same list runs nothing |
| Tweens.DepsOf | src/components/ClassicFlipAnimation.tsx:20-25 | duration defaults to 0.75 and reduced motion to false; given values pass through (the drop-down executor, src/components/DropDownAnimation.tsx:75-80, takes the same props with the same defaults and shares this definition) |
| ClassicFlip.Decide | src/components/ClassicFlipAnimation.tsx:28-40 | a call is made exactly when triggered; it is a direct set exactly under reduced motion; a tween lasts the given duration |
| ClassicFlip.TriggeredRunShowsDigit | src/components/ClassicFlipAnimation.tsx:31-40 | a triggered run ends upright and opaque from any state; the tween starts transparent at -90 degrees |
| ClassicFlip.ReducedMotionSameEnd | src/components/ClassicFlipAnimation.tsx:31-40 | reduced motion ends at the same rotation and opacity as the tween; it also sets y to 0, which the tween leaves alone |
| ClassicFlip.ClassicFlipAnimation.constructor | src/components/ClassicFlipAnimation.tsx:20-26 | a mounted component has made no call and has no previous dependencies |
| ClassicFlip.ClassicFlipAnimation.Render | src/components/ClassicFlipAnimation.tsx:28-41 | one call is appended exactly when the dependencies changed and trigger is true, after which the digit is shown; otherwise nothing changes, so a trigger that stays true with the same props does not animate again |
| DropDown.Decide | src/components/DropDownAnimation.tsx:83-107 | a call is made exactly when triggered; it is a direct set exactly under reduced motion; a tween lasts the given duration |
| DropDown.TriggeredRunShowsDigit | src/components/DropDownAnimation.tsx:86-107 | a triggered run ends upright, opaque and at y 0; the tween starts transparent, tilted to rotateX -15, at y -50%, and keeps the 'center top' origin at both ends |
| DropDown.ReducedMotionSameEnd | src/components/DropDownAnimation.tsx:86-107 | reduced motion ends at the same rotation, opacity and offset as the tween |
| DropDown.DropDownAnimation.constructor | src/components/DropDownAnimation.tsx:75-81 | a mounted component has made no call and has no previous dependencies |
| DropDown.DropDownAnimation.Render | src/components/DropDownAnimation.tsx:83-108 | one call is appended exactly when the dependencies changed and trigger is true, after which the digit is shown in place; otherwise nothing changes, so a trigger that stays true with the same props does not animate again |
| CardFold.PhaseDuration | src/components/CardFoldAnimation.tsx:173 | the two phases together last the whole duration, each strictly shorter for a positive duration |
| CardFold.FullCycleShowsNewDigit | src/components/CardFoldAnimation.tsx:159-212 | after reset, phase one and phase two, the overlay (bottom half) and the bottom card show the new digit with the overlay flat; the instant path shows the same picture |
| CardFold.PhasesInBetween | src/components/CardFoldAnimation.tsx:167-200 | after the reset every card shows the old digit; after phase one the overlay shows the new digit's bottom half at +90 degrees and the bottom card still the old digit |
| CardFold.StepsKeepFlat | src/components/CardFoldAnimation.tsx:150-212 | every transition keeps the overlay flat whenever its top half is shown |
| CardFold.View | src/components/CardFoldAnimation.tsx:217-260 | the upper static card always shows the `oldDigit` prop and the height reference the `newDigit` prop |
| CardFold.SameDigitStaysUniform | src/components/CardFoldAnimation.tsx:150-222 | when the old and the new digit are equal, every card shows that digit after every step |
| CardFold.CardFoldAnimation.constructor | src/components/CardFoldAnimation.tsx:150-152 | the overlay shows the top half, and the overlay and bottom card show the old digit |
| CardFold.CardFoldAnimation.Render | src/components/CardFoldAnimation.tsx:154-215 | with changed dependencies and a trigger: duration 0 commits the new digit at once; otherwise the state resets and one timeline is added whose phases last half the duration each; otherwise nothing changes, in particular when the props repeat the last render's |
| CardFold.CardFoldAnimation.CompleteFoldTop | src/components/CardFoldAnimation.tsx:183-200 | phase one's callback shows the bottom half with the captured new digit at +90 degrees and leaves the bottom card alone |
| CardFold.CardFoldAnimation.CompleteFoldBottom | src/components/CardFoldAnimation.tsx:202-212 | phase two's callback puts the captured new digit on the bottom card with the overlay flat |
| AnimationHandler.EffectiveDuration | src/components/AnimationHandler.tsx:49 | the duration is 0 under reduced motion, otherwise the given one or 0.75 |
| AnimationHandler.ResolvedDigit | src/components/AnimationHandler.tsx:51 | the first given of `digit`, `newDigit`, `oldDigit`, else the empty string |
| AnimationHandler.SafeDigits | src/components/AnimationHandler.tsx:55-56 | explicit old and new digits pass through; a lone `digit` becomes both; with no digit both are empty |
| AnimationHandler.CardFace | src/components/AnimationHandler.tsx:58-104 | a custom render function is applied to the digit, the digit-driven mode puts it in a span, and the cloning fallback shows the children unchanged for an empty digit and otherwise the child cloned with the digit in a span |
| AnimationHandler.ContentOf | src/components/AnimationHandler.tsx:110-114 | the render function on the resolved digit if given, else a span of it if any digit prop is given, else the children |
| AnimationHandler.Dispatch | src/components/AnimationHandler.tsx:54-136 | card-fold style picks the card-fold executor, or the plain container exactly when there is no render function, no digit prop and no valid child; drop-down picks drop-down; any other style or none picks classic flip; every executor gets the trigger, the effective duration and the reduced-motion flag; card-fold gets the safe digits |
| AnimationHandler.ClonedChildShowsChildrenOnly | src/components/AnimationHandler.tsx:73-104 | when card-fold clones the child, both digits the dispatcher passes are empty, so each renders as the unchanged children |
| AnimationHandler.ReducedMotionCardFoldIsInstant | src/components/AnimationHandler.tsx:49-104 | under reduced motion card-fold gets duration 0, so a triggered run shows the new digit at once |
| AnimationHandler.ReducedMotionNoTween | src/components/AnimationHandler.tsx:116-136 | under reduced motion the drop-down and classic executors set their end state instead of tweening |
| AnimationHandler.Handler.constructor | src/components/AnimationHandler.tsx:39 | reduced motion is off until the media query is read |
| AnimationHandler.Handler.MediaQueryReports | src/components/AnimationHandler.tsx:41-47 | the preference becomes what the media query reports |
| AnimationHandler.Handler.Render | src/components/AnimationHandler.tsx:28-137 | the render dispatches under the current preference; under reduced motion every executor gets duration 0 |
| ResponsiveLayout.ViewportFor | src/utils/useResponsiveLayout.ts:35-39 | mobile exactly below 768, tablet exactly from 768 to 1024, desktop exactly above 1024 |
| ResponsiveLayout.ScaleFactor | src/utils/useResponsiveLayout.ts:13-33 | mobile scale in [0.4, 0.6], tablet in [0.75, 1.0], 1.0 up to 1920, then in (1.0, 1.5] |
| ResponsiveLayout.ScaleFactorMonotone | src/utils/useResponsiveLayout.ts:13-33 | a wider window never gets a smaller scale |
| ResponsiveLayout.ScaleFactorAnchors | src/utils/useResponsiveLayout.ts:13-33 | the values at the breakpoints and ramp ends: 0.75 at 768, 1.0 at 1024 and 1920, 1.25 at 2880, 1.5 from 3840 on |
| ResponsiveLayout.ViewportAgreesWithScale | src/utils/useResponsiveLayout.ts:13-39 | the viewport is mobile exactly when the scale is below 0.75; tablet scales lie in [0.75, 1.0]; desktop scales are at least 1.0 |
| ResponsiveLayout.LayoutFor | src/utils/useResponsiveLayout.ts:44-47 | the layout's viewport and scale come from the same width |
| ResponsiveLayout.ResponsiveLayoutHook.constructor | src/utils/useResponsiveLayout.ts:42-48 | the first layout is that of the window width, or of 1920 without a window |
| ResponsiveLayout.ResponsiveLayoutHook.Resized | src/utils/useResponsiveLayout.ts:53-63 | a resize event while listening (re)starts the timer and leaves the layout alone |
| ResponsiveLayout.ResponsiveLayoutHook.TimerFired | src/utils/useResponsiveLayout.ts:56-62 | the timer recomputes the layout from the width at the time it fires |
| ResponsiveLayout.ResponsiveLayoutHook.Unmount | src/utils/useResponsiveLayout.ts:67-70 | unmounting clears the timer and stops listening; the layout stays |
| ResponsiveLayout.ResponsiveLayoutHook.Current | src/utils/useResponsiveLayout.ts:73 | the returned layout is mobile exactly when its scale is below 0.75 |

## Left out

- gsap motion: easing, interpolated frames and timing are not modelled. A call is modelled by its start and end properties (`Tweens.StartOf`, `Tweens.EndOf`). A classic or drop-down container's `style` is its state once the issued call has run to its end.
- Styling: CSS, the clip-path strings (modelled as `TopHalf`/`BottomHalf`), the background colour, transform origins other than drop-down's, and the `renderContent` function itself. For the function, only which content is rendered for which digit is modelled.
- Wall-clock reads are parameters. The fresh time passed to `Clock.Tick`, the seconds and milliseconds given to `MillisecondsUntilNextMinute`, and the width given to `TimerFired` all come from the caller. `fetchCurrentTime` is not part of this model, and neither are `toLocaleDateString` (the date is an opaque string) or what `setMinutes` does across daylight-saving changes.
- Timers are explicit calls. The 1 s interval is modelled by `Clock.Tick`, the 100 ms flag resets by `Clock.FireReset` in the order they were scheduled, the 250 ms resize debounce by `Resized`/`TimerFired`, and gsap phase completions by `CompleteFoldTop`/`CompleteFoldBottom`.
- Re-creating the clock's interval when the hours or minutes change is not modelled. Each run compares against the stored hours and minutes, which is what `Tick` does. The immediate `updateTime` on each re-run is one more `Tick`.
- The effects' null guards on `containerRef`/`overlayRef` are not modelled. The refs are set once the component is mounted.
- JavaScript numbers are not modelled as floating point. Durations and the scale factor are exact reals, and widths are integers. `Object.is` on dependency lists is plain equality, so NaN durations are not modelled.
- TimeSync.DecimalString: models `toString()` for integers only. Fractional hours or minutes do not occur.
- The other files of the repository are not part of this model. That covers settings, storage, fullscreen, user-activity tracking, `TimeRenderer` and page composition.

