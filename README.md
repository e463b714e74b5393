# Carousel model

A model of `Slider`, the browser carousel in `js/main.js`. The carousel scrolls a row
of slides horizontally. It has auto-advance on a repeating timer, prev/next/pause
buttons, one indicator button per slide, hover pause and arrow-key navigation.
The model keeps the state machine under the DOM calls:

- the slide count `n`, fixed at construction;
- the current index;
- the user-pause flag;
- the handle of the armed interval;
- the translation offset of the slide list;
- the pause button's label;
- the "active" marks on the indicator buttons.

`carousel_spec.dfy` (module `CarouselSpec`) states the rules on values:

- the configuration merge;
- the index arithmetic of manual moves (which clamp) and of the timer tick (which wraps);
- the indicator marks;
- the abstract `View` (index, paused, armed), with one transition `Step` per handler event.

`carousel.dfy` (module `Carousel`) is the object. It is a class `Slider` with an
`array<bool>` of indicator marks. Each handler is a method with `modifies` frames.
Each method's `ensures` ties `State()` to `Step(old(State()), n, event)` and says what
happens to the offset, the marks and the timer handles.

The browser's timers are modelled by two fields:

- `live`: the set of interval handles of this carousel that the browser still runs;
- `nextHandle`: the handle the next `setInterval` returns.

The object invariant ties `live` to `autoSlide`. So "at most one timer is armed" is a
fact about the browser's timers, not just a boolean.

Three behaviours of the code are easy to miss:

- Construction does not mark any indicator active. `init` never calls
  `updateIndicators`, so the first indicator becomes active only at the first move.
  The object invariant therefore allows "no indicator active" as well as "exactly the
  current one".
- With zero slides, construction succeeds. Only the first timer tick fails, when
  `moveSlider` reads the first slide's width. `Slider.AutoAdvance` reports that as
  `ok == false` and changes nothing. At zero slides, manual moves keep the index at 0 and
  reset the timer (stop, then restart unless paused).
- Toggling pause twice does not always restore the timer state. After a hover stop
  (not paused, no timer armed), the second toggle re-arms the timer.
  `CarouselSpec.ToggleTwice` states exactly when the state is restored.

## Model

| member | source | states |
|---|---|---|
| `CarouselSpec.Merge` | js/main.js:6-13 | every option the caller gives overrides the default; every option left out keeps the default (5000 ms, indicators on, controls on) |
| `CarouselSpec.PrevIndex` | js/main.js:69-73 | manual previous moves back at most one step, and leaves the index unchanged exactly when it is 0 (no wrap) |
| `CarouselSpec.NextIndex` | js/main.js:79-83 | manual next moves on at most one step and stays in bounds; it leaves the index unchanged exactly at the last slide (no wrap) |
| `CarouselSpec.TickIndex` | js/main.js:40-43 | the timer tick is the successor modulo the slide count, i.e. it wraps from the last slide to 0 |
| `CarouselSpec.ManualClampsTickWraps` | js/main.js:40-83 | for every slide count n >= 1, at the ends prev and next stay put while the tick wraps to 0; everywhere else next and the tick agree |
| `CarouselSpec.TicksAreModular` | js/main.js:39-45 | k consecutive ticks from index i land on (i + k) mod n |
| `CarouselSpec.FullCycleReturns` | js/main.js:39-45 | n ticks return to the starting index, and no shorter positive run of ticks does |
| `CarouselSpec.NextsClamp` | js/main.js:79-83 | k manual nexts from i reach min(i + k, n - 1) |
| `CarouselSpec.PrevsClamp` | js/main.js:69-73 | k manual prevs from i reach max(i - k, 0) |
| `CarouselSpec.Marks` | js/main.js:22-26 | the marks after updateIndicators: the button of the current slide is active and no other |
| `CarouselSpec.CountActive` | js/main.js:22-26 | the count of active indicators is at most their number, and is zero exactly when none is marked |
| `CarouselSpec.MarksExactlyOne` | js/main.js:22-26 | after a move to slide k exactly one indicator is active, and it is button k |
| `CarouselSpec.Step` | js/main.js:37-175 | every handler keeps the index in bounds and keeps "paused implies no timer"; only the toggle changes `paused`; after prev, next or an indicator click the timer is armed exactly when not paused; hover enter disarms and changes nothing else; hover leave re-arms unless paused; the tick wraps while armed; arrow keys act as prev/next and other keys change nothing |
| `CarouselSpec.RunKeepsInvariant` | js/main.js:37-175 | over any sequence of events the index stays in [0, n) and a user pause leaves no timer armed |
| `CarouselSpec.PauseIsSticky` | js/main.js:127-136 | from a user pause, no sequence of events without the toggle lifts the pause or arms a timer, and a tick then changes nothing |
| `CarouselSpec.TickRun` | js/main.js:39-45 | k timer firings on an armed carousel move the index exactly as k ticks do and touch nothing else |
| `CarouselSpec.ToggleTwice` | js/main.js:127-136 | toggling pause twice restores `paused`; it restores the whole state if and only if the timer was armed exactly when not paused |
| `CarouselSpec.HoverRoundTrip` | js/main.js:170-175 | entering then leaving keeps the index and `paused`, and leaves the timer armed exactly when not paused |
| `Carousel.Slider.constructor` | js/main.js:2-19 | resolves the configuration by `Merge`, starts at index 0, not paused, with exactly one live timer, offset 0, and no indicator active yet; establishes `Steady` (valid, and a user pause leaves no timer armed) |
| `Carousel.Slider.UpdateIndicators` | js/main.js:22-26 | afterwards the marks are exactly `Marks(len, currentIndex)`; nothing when indicators are off |
| `Carousel.Slider.MoveSlider` | js/main.js:29-34 | sets the index to the target and the offset to target times the slide width; only the target's indicator is active |
| `Carousel.Slider.StartSlide` | js/main.js:37-46 | cancels the previously armed interval and arms a fresh one, so exactly one live timer remains whatever the prior state |
| `Carousel.Slider.StopSlide` | js/main.js:49-52 | leaves no timer armed and no interval live; it changes nothing when already idle |
| `Carousel.Slider.AutoAdvance` | js/main.js:39-45 | one firing of the armed timer is `Step(_, n, Tick)` and shows the new slide; with zero slides it fails and changes nothing |
| `Carousel.Slider.PrevSlide` | js/main.js:69-76 | the state after is `Step(_, n, Prev)`; the offset and marks change only when the index moved; any armed timer is a fresh one |
| `Carousel.Slider.NextSlide` | js/main.js:79-86 | the state after is `Step(_, n, Next)`; the offset and marks change only when the index moved; any armed timer is a fresh one |
| `Carousel.Slider.HandleKeyboard` | js/main.js:55-66 | the state after is `Step(_, n, Key(key))`; ArrowLeft has PrevSlide's effect on offset, marks and timer, ArrowRight NextSlide's; a key other than the two arrows leaves every field and mark unchanged |
| `Carousel.Slider.TogglePause` | js/main.js:127-136 | the state after is `Step(_, n, Toggle)`; the label reads "Play" exactly when paused |
| `Carousel.Slider.ClickIndicator` | js/main.js:160-165 | the state after is `Step(_, n, Indicator(target))`; the target slide is shown and only its indicator is active |
| `Carousel.Slider.MouseEnter` | js/main.js:170-171 | the state after is `Step(_, n, Enter)`: no timer is armed, and the index and `paused` are unchanged |
| `Carousel.Slider.MouseLeave` | js/main.js:172-174 | the state after is `Step(_, n, Leave)`; when paused nothing changes, otherwise the armed timer is a fresh one |

Every handler (`AutoAdvance`, `PrevSlide`, `NextSlide`, `HandleKeyboard`, `TogglePause`,
`ClickIndicator`, `MouseEnter`, `MouseLeave`) also ensures that `Steady()` is kept:
`Valid()` together with "a user pause leaves no timer armed".

## Left out

- DOM construction of the control and indicator buttons is not modelled, nor their class names and texts other than the pause label (js/main.js:98-120, 140-156). This is presentation.
- Listener registration is not modelled (js/main.js:90, 123-126, 159-161, 171-172). The handlers are methods of `Slider` instead. The document-wide keydown listener is `Slider.HandleKeyboard`.
- Real timing is not modelled: the 3000 ms and 5000 ms intervals and the scheduling of `setInterval` callbacks. A timer is a handle in `live`, and a firing is an explicit call of `Slider.AutoAdvance`, allowed only while a timer is armed. The configured interval is stored but not attached to the handle.
- The container lookup is abstracted to the slide count `slideCount`. The constructor's failure when the selector matches no element (js/main.js:3-4) is not modelled.
- Interval handle numbers are abstract: they start at 1 and count up. They are not shared with other timers on the page.
- Measuring `clientWidth` and formatting the `translateX` string are not modelled. The slide width is a `nat` parameter of each move, and the offset is the pixel distance.
- `CarouselSpec.Merge`: an option passed explicitly as `undefined` is treated as absent, whereas `Object.assign` would copy the `undefined`. Option keys other than the three known ones are not modelled.
- The module-level instantiation with a 3000 ms interval is not modelled (js/main.js:179-183).
- `Carousel.Slider.ClickIndicator` and `Carousel.Slider.TogglePause` require that their button exists. That means indicators or controls are shown, and the target is below the indicator count. Without the button the handler is never registered.
