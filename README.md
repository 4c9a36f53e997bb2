# Carousel and count-up logic of the LogiTrans landing page, in Dafny

The landing page (`src/App.jsx`) has two horizontally scrolling "infinite" strips: partner logos and testimonials. Each strip holds its items twice. A wrap handler samples the offset after every scroll and moves it back or forward at the ends, so that scrolling seems endless. Each strip also has three indicator dots, computed from the offset, and an auto-advance interval whose handle sits in a page-wide slot on `window`. Pointer events, ref callbacks and the unmount cleanup fill and clear that slot. A stats section counts four figures up from `start` to `end` with an ease-out curve once it scrolls into view, each starting 300 ms after the previous one.

The model has six modules:

- `Js` (js.dfy): the JavaScript semantics the code relies on. `%` truncates toward zero, every comparison with `undefined` is false, and `Math.min` is defined here.
- `Layout` (layout.dfy): the logo item width by breakpoint (125/150/190), the testimonial step (card + 20), the dot stride (card + 30), and the scroll targets of the dots and of the prev/next buttons.
- `Indicator` (indicator.dfy): the zone number a sampled offset maps to, for each strip. The dots are a `bool` array in document order (three logo dots, then three testimonial dots). `UpdateActiveDots` is the in-place `forEach` loop that sets one selected dot and clears the others.
- `ScrollLoop` (scrollloop.dfy): the strip element as a class (`scrollLeft`, `scrollWidth`, `clientWidth` and the `previousScrollLeft` property the code attaches to it). Both wrap handlers are methods that change it in place. Each is specified by a pure correction function, and lemmas about that function state the wrap properties.
- `Scheduler` (scheduler.dfy): the two handle slots and the intervals the browser still runs, as a `Window` class. Every event is specified by a pure transition, and lemmas cover whole event sequences.
- `Counter` (counter.dfy): the exact eased frame value and the section state. The section state is the displayed values, visibility, pending start-up timeouts and running tickers. It exists as a pure transition system and as a `StatsSection` class whose methods follow the source step by step.

Offsets are `real`, because half of an odd `scrollWidth` is fractional. DOM measurements (`scrollWidth`, `clientWidth`, `offsetWidth`, `innerWidth`) are integers. Measured widths enter as parameters or fields. Timers are events: a timeout firing and an interval tick are each one step. There is no clock.

The start-up delays in the code are 0, 300, 600 and 900 ms, so all four stats have started by 1000 ms (`Counter.AllFourStartedAt1000`). The testimonial correction leaves every offset between H − clientWidth and H − 50 unchanged, so its result is not bounded by the backward landing point H − clientWidth (`ScrollLoop.TestimonialWrapCanPassLanding`).

## Model

| member | source | states |
|---|---|---|
| `Js.Rem` | src/App.jsx:128 | JavaScript `%`: for a non-negative offset and positive set width the remainder lies in [0, m); for a non-positive one in (−m, 0]; below one period it is the offset itself |
| `Js.RemPeriodic` | src/App.jsx:128 | adding one whole set width does not change the remainder of a non-negative offset |
| `Js.Trunc` | src/App.jsx:128 | the quotient `%` is built on: for x ≥ 0 the integer t with t ≤ x < t + 1, for x < 0 the one with t − 1 < x ≤ t (truncation toward zero) |
| `Js.Min` | src/App.jsx:131-134 | `Math.min` of two integers: no larger than either and equal to one of them |
| `Js.LessThan` | src/App.jsx:157 | `x < p` with `p` possibly `undefined`: false when `p` is `undefined`, otherwise the numeric comparison |
| `Js.GreaterThan` | src/App.jsx:180 | `p > x` with `p` possibly `undefined`: false when `p` is `undefined`, otherwise the numeric comparison; the same as `x < p` |
| `Layout.LogoItemWidth` | src/App.jsx:383 | 125 exactly when the viewport is at most 576, 150 exactly when it is in (576, 768], 190 exactly above 768 |
| `Layout.LogoItemWidthMonotone` | src/App.jsx:383 | a wider viewport never gets a narrower logo step |
| `Layout.TestimonialStep` | src/App.jsx:617 | the advance step is wider than the measured card (card + 20) |
| `Layout.TestimonialDotStride` | src/App.jsx:188 | the zone stride of the testimonial dot rule exceeds the advance step |
| `Layout.LogoDotTarget` | src/App.jsx:491-505 | logo dot k scrolls to 2·k item widths (0, 2w, 4w) |
| `Layout.TestimonialDotTarget` | src/App.jsx:766-785 | testimonial dot k scrolls to k advance steps |
| `Layout.ScrollByTarget` | src/App.jsx:479-482 | next/auto-advance asks for exactly one step forward, prev for exactly one step back |
| `Indicator.SetWidth` | src/App.jsx:126 | `totalWidth / 2`: one duplicated set is exactly half the scroll width |
| `Indicator.ClampedZone` | src/App.jsx:131-134 | `Math.min(Math.floor(n / w), 2)`: zone 0 exactly on [0, w), 1 exactly on [w, 2w), 2 exactly from 2w on; never above 2, never negative for n ≥ 0 |
| `Indicator.LogoZone` | src/App.jsx:120-134 | NaN exactly when the scroll width is 0; otherwise for an offset ≥ 0 a zone in {0,1,2}, zone k being the k-th third of one set after reducing the offset modulo the set |
| `Indicator.TestimonialZone` | src/App.jsx:187-189 | NaN exactly when the scroll width is 0; otherwise for an offset ≥ 0 a zone in {0,1,2}, zone k covering [k·(card+30), (k+1)·(card+30)) of the reduced offset |
| `Indicator.CountActiveOfZone` | src/App.jsx:136-142 | a selection marked "dot k active iff k is the zone" has exactly one active dot when the zone is within it, none otherwise |
| `Indicator.DotsAfter` | src/App.jsx:136-142 | after the loop exactly the dot at the zone's index is active among the selected dots, every other selected dot is inactive, and unselected dots keep their state |
| `Indicator.UpdateActiveDots` | src/App.jsx:136-142 | the in-place loop leaves the dot array equal to `DotsAfter` of its old contents |
| `Indicator.LogoQueryClearsTestimonialDots` | src/App.jsx:123 | the logo rule selects all six dots of the page, so a logo update leaves every testimonial dot inactive |
| `Indicator.ScopedLogoQueryKeepsTestimonialDots` | src/App.jsx:123 | restricted to its own three dots, a logo update leaves the testimonial dots as they were and activates exactly one logo dot |
| `Indicator.LogoDotSelectsItsZone` | src/App.jsx:491-505 | with five logos of width w per set, the target of logo dot k lies in zone k |
| `Indicator.TestimonialDotHighlightsPrevious` | src/App.jsx:188 | with three cards per set, the targets of testimonial dots 1 and 2 fall in zones 0 and 1 |
| `Indicator.CorrectedTestimonialZone` | src/App.jsx:187-189 | the zone rule with the advance step as stride: NaN exactly for an empty strip, otherwise in {0,1,2} for offsets ≥ 0 |
| `Indicator.CorrectedTestimonialDotSelectsItsZone` | src/App.jsx:188 | with the step as stride, testimonial dot k's target lies in zone k |
| `ScrollLoop.Strip.constructor` | src/App.jsx:166-172 | a freshly rendered strip has the given widths, offset 0 and no `previousScrollLeft` property yet (`undefined`) |
| `ScrollLoop.LogoBackward` | src/App.jsx:157 | the logo rewind condition: never holds while no sample is recorded; otherwise exactly when the offset is below 10 and below the recorded sample |
| `ScrollLoop.LogoWrap` | src/App.jsx:148-161 | the logo correction: backward near the start gives H + s (this rule wins), otherwise past H gives s − H (in (0, H] when s ≤ 2H), otherwise s; the shift is −H, 0 or H; the recorded sample equals the corrected offset |
| `ScrollLoop.LogoWrapKeepsZone` | src/App.jsx:153-163 | for s ≥ 0 a logo correction does not change the highlighted zone |
| `ScrollLoop.LogoWrapSettles` | src/App.jsx:153-161 | within [0, 2H] and not rewinding, running the handler again on its own result changes nothing |
| `ScrollLoop.LogoRewindIsUndoneByNextPass` | src/App.jsx:153-161 | a backward wrap from an offset in (0, 10) is sent back to that offset by the next run of the handler |
| `ScrollLoop.TestimonialBackward` | src/App.jsx:180 | the testimonial backward condition: never holds while no sample is recorded; otherwise exactly when the offset is at most 0 and below the recorded sample |
| `ScrollLoop.TestimonialWrap` | src/App.jsx:169-184 | the testimonial correction: a backward crossing of 0 gives H − clientWidth (this rule wins), otherwise s ≥ H − 50 gives 0, otherwise s; the recorded sample is the uncorrected s; for s ≥ 0 the result is non-negative iff the backward rule does not fire or clientWidth ≤ H |
| `ScrollLoop.TestimonialBackwardScenario` | src/App.jsx:180-181 | a 3000-wide strip with a 500-wide viewport moving from 10 to 0 lands at 1000 |
| `ScrollLoop.TestimonialWrapCanPassLanding` | src/App.jsx:175-182 | an offset of 1200 on that strip is left at 1200, beyond the landing point 1000 |
| `ScrollLoop.TestimonialEarlyWrapBounces` | src/App.jsx:175-184 | an early wrap to 0 from a positive sample is turned into H − clientWidth by the next run of the handler |
| `ScrollLoop.TestimonialSettle` | src/App.jsx:621-631 | the auto-advance settle step: from H − 50 on it resets to 0, so the handler it calls records 0; below that it is exactly the handler |
| `ScrollLoop.TestimonialSettleLandsBeforeSeam` | src/App.jsx:626-631 | when the settle step resets to 0 while a positive sample is recorded, the strip lands at H − clientWidth, not at 0 |
| `ScrollLoop.CorrectedTestimonialWrap` | src/App.jsx:184 | the testimonial handler recording the corrected offset: the same offset, and a sample equal to it |
| `ScrollLoop.CorrectedTestimonialSettle` | src/App.jsx:626-631 | the settle step recording its reset: from H − 50 on the strip is at 0 with 0 recorded; below that it is the corrected handler |
| `ScrollLoop.CorrectedEarlyWrapStaysAtStart` | src/App.jsx:175-184 | with the corrections, an early wrap by the handler or by the settle step lands at 0 and stays there when the handler runs again |
| `ScrollLoop.UpdateActiveDot` | src/App.jsx:120-143 | no strip: no dot changes; otherwise the page's dots become `DotsAfter` over all of them for the logo zone of the current offset |
| `ScrollLoop.HandleInfiniteScroll` | src/App.jsx:145-164 | no strip: nothing changes; otherwise the offset and recorded sample become those of `LogoWrap`, the widths stay, and the dots follow the corrected offset's zone |
| `ScrollLoop.OnLogoScroll` | src/App.jsx:399-405 | a scroll event on the logo strip has the effect of one `HandleInfiniteScroll` (the first dot update is overwritten) |
| `ScrollLoop.HandleTestimonialInfiniteScroll` | src/App.jsx:166-199 | no strip: nothing changes; otherwise offset and sample become those of `TestimonialWrap`, and the three testimonial dots follow the zone of the uncorrected sample |
| `ScrollLoop.SettleTestimonial` | src/App.jsx:621-632 | the settle callback leaves offset and recorded sample as `TestimonialSettle` says, widths unchanged, and the testimonial dots follow the zone of the offset after the reset |
| `ScrollLoop.LogoAdvanceTick` | src/App.jsx:379-396 | an auto-advance tick aims one logo width ahead and updates the dots from the offset before the scroll |
| `Scheduler.LogoEnter` | src/App.jsx:369-374 | mouse-enter leaves the logo slot empty, stops exactly the interval it held, and changes nothing else |
| `Scheduler.LogoStart` | src/App.jsx:376-379 | mouse-leave or mount with a full slot changes nothing; with an empty slot it creates a fresh interval and stores it in the same step |
| `Scheduler.TestimonialEnter` | src/App.jsx:604-610 | mouse-enter leaves the testimonial slot empty, stops exactly the interval it held, and changes nothing else |
| `Scheduler.TestimonialLeave` | src/App.jsx:611-613 | with a full slot nothing changes; with an empty one a fresh interval is created and stored at once |
| `Scheduler.TestimonialMountStep` | src/App.jsx:641-647 | with an empty slot the ref callback only schedules one start-up timeout; the slot stays empty |
| `Scheduler.TestimonialStart` | src/App.jsx:648-649 | a firing start-up timeout creates an interval and stores it whatever the slot held |
| `Scheduler.UnmountStep` | src/App.jsx:66-77 | unmount leaves both slots empty and stops the intervals they held; pending start-up timeouts remain |
| `Scheduler.StepKeepsLogoSingle` | src/App.jsx:369-379 | every event keeps the browser running exactly the logo interval the slot holds |
| `Scheduler.LogoNeverTwoIntervals` | src/App.jsx:406-412 | no sequence of events leaves more than one logo interval running, or one the slot does not hold |
| `Scheduler.LogoSingleFromInitial` | src/App.jsx:406-412 | from the first render, every event sequence keeps at most one logo interval |
| `Scheduler.TestimonialLeaveDuringStartupLeaks` | src/App.jsx:643-649 | mount, mouse-leave, timeout leaves two testimonial intervals running; after mouse-enter and unmount one still runs with both slots empty |
| `Scheduler.CorrectedTestimonialStart` | src/App.jsx:648-649 | the start-up timeout re-checking the slot: with an empty slot it acts as mouse-leave, with a full one the slot and intervals stay |
| `Scheduler.CorrectedStepKeepsSingle` | src/App.jsx:641-649 | with the re-check every event keeps each strip's running intervals equal to what its slot holds |
| `Scheduler.CorrectedNeverTwoIntervals` | src/App.jsx:641-649 | with the re-check no event sequence runs two intervals for either strip |
| `Scheduler.Window.OnLogoMouseEnter` | src/App.jsx:369-374 | the window state becomes `LogoEnter` of the old one |
| `Scheduler.Window.OnLogoMouseLeave` | src/App.jsx:376-379 | the window state becomes `LogoStart` of the old one |
| `Scheduler.Window.LogoRef` | src/App.jsx:406-412 | no element: nothing changes; otherwise `LogoStart`, resetting the element's recorded sample to 0 exactly when it starts; the element's offset and widths unchanged |
| `Scheduler.Window.OnTestimonialMouseEnter` | src/App.jsx:604-610 | the window state becomes `TestimonialEnter` of the old one |
| `Scheduler.Window.OnTestimonialMouseLeave` | src/App.jsx:611-613 | the window state becomes `TestimonialLeave` of the old one |
| `Scheduler.Window.TestimonialRef` | src/App.jsx:641-647 | no element: nothing changes; otherwise `TestimonialMountStep`, resetting the recorded sample exactly when it schedules; the element's offset and widths unchanged |
| `Scheduler.Window.OnTestimonialStartFires` | src/App.jsx:648-649 | the window state becomes `TestimonialStart` of the old one |
| `Scheduler.Window.OnUnmount` | src/App.jsx:66-77 | the window state becomes `UnmountStep` of the old one |
| `Counter.RoundDiv` | src/App.jsx:84 | `Math.round(n / d)`: the integer within one half of n / d, halves rounding up |
| `Counter.EasedProgress` | src/App.jsx:95-96 | the scaled ease-out progress at a frame lies in [0, T·T] |
| `Counter.EasedProgressMonotone` | src/App.jsx:95-96 | the eased progress never drops from one frame to a later one |
| `Counter.FrameValue` | src/App.jsx:95-98 | the value at frame f ≤ T lies in [start, end] when start ≤ end, is start at frame 0 and exactly end at frame T |
| `Counter.FrameValueMonotone` | src/App.jsx:95-98 | a stat's displayed value never drops as its frame advances |
| `Counter.StartDelayMs` | src/App.jsx:87 | stat i starts i·300 ms after the section becomes visible |
| `Counter.StartedByElapsed` | src/App.jsx:87-89 | by `elapsed` ms exactly the stats with index ≤ elapsed / 300 have started |
| `Counter.AllFourStartedAt1000` | src/App.jsx:87 | all four delays have passed at 1000 ms |
| `Counter.Starts` | src/App.jsx:46 | the reset values: each stat's start, in order |
| `Counter.InitialSection` | src/App.jsx:8-19 | the first render: every value at its stat's start, invisible, nothing pending or running, well formed, and every value within its stat's range when stats count upwards |
| `Counter.Indices` | src/App.jsx:86 | one start-up timeout per stat index |
| `Counter.Observe` | src/App.jsx:44-49 | intersecting: visible and every value reset to its start, with a start-up timeout per stat when it was not visible before; not intersecting: values frozen and, when it was visible, the pending timeouts cancelled; running tickers always kept |
| `Counter.StartFires` | src/App.jsx:89-92 | a pending start-up timeout begins a ticker at frame 0 for its stat; a cancelled one does nothing |
| `Counter.Tick` | src/App.jsx:93-108 | a tick writes the eased value of the next frame into its stat's slot only, every other slot unchanged, and stops its ticker exactly at frame T |
| `Counter.Step` | src/App.jsx:44-108 | every event keeps the section well formed |
| `Counter.Run` | src/App.jsx:44-108 | every event sequence keeps the section well formed |
| `Counter.StepKeepsValuesInRange` | src/App.jsx:93-104 | every event keeps each displayed value between its stat's start and end |
| `Counter.RunKeepsValuesInRange` | src/App.jsx:93-104 | every event sequence keeps each displayed value in range |
| `Counter.PageValuesInRange` | src/App.jsx:12-19 | the page's four figures never show a value outside [start, end] |
| `Counter.RetriggerRunsTwoTickers` | src/App.jsx:111-117 | leaving and re-entering the viewport after stat 0 started leaves two tickers driving stat 0 |
| `Counter.CorrectedObserve` | src/App.jsx:115-117 | the cleanup that also stops running tickers: when visibility is lost nothing stays pending or running; apart from the tickers every field is as `Observe` leaves it |
| `Counter.CorrectedStepKeepsOneAnimation` | src/App.jsx:86-117 | with that cleanup every event keeps at most one animation per stat |
| `Counter.CorrectedRunKeepsOneAnimation` | src/App.jsx:86-117 | with that cleanup no event sequence lets two animations drive one stat |
| `Counter.StatsSection.OnIntersect` | src/App.jsx:44-49 | the section state becomes `Observe` of the old one |
| `Counter.StatsSection.OnStartTimeout` | src/App.jsx:89-92 | the section state becomes `StartFires` of the old one |
| `Counter.StatsSection.OnInterval` | src/App.jsx:93-108 | `statFrame++`, copy-then-write of one slot, and the stop at the last frame give `Tick` of the old state |

## Left out

- Browser clamping: writing `scrollLeft` clamps it to [0, scrollWidth − clientWidth], and reading it back (App.jsx:161) returns the clamped value. The model stores the value written.
- Smooth scrolling: the animations behind `scrollBy` and `scrollTo` are the browser's. The model gives the target they ask for (`ScrollByTarget`, the dot targets), and the offset a handler samples is a field set from outside.
- Scroll events: a `scrollLeft` assignment fires a scroll event, which runs the handler again. This is not automatic in the model. The lemmas that apply a correction to its own result (`LogoWrapSettles`, `LogoRewindIsUndoneByNextPass`, `TestimonialEarlyWrapBounces`) cover that second run.
- DOM queries and measurement: `querySelector`, `offsetWidth` and `innerWidth` become parameters. A missing `.testimonial-card` would throw. The markup always has one, so the model has no error path for it.
- Real-time scheduling: the 3000 ms interval period, the 500 ms settle delay, the 1000 ms start-up delay and the 60 fps tick period are not modelled. Each callback is one event, in any order. An auto-advance tick leaves the handle slots alone, so it is not a `Scheduler` event. The testimonial tick's own computation is just `TestimonialStep`.
- Floating point: the easing is computed in exact integer arithmetic, and offsets are exact reals. This does not claim bit-exact agreement with JavaScript doubles. In exact arithmetic `totalFrames` is 120.
- React: the model does not cover render batching or how often React calls ref callbacks. `setState` updates apply at once, and an effect runs right after the change that triggers it. A ref callback with `null` changes nothing.
- The IntersectionObserver's creation, threshold and teardown (App.jsx:41-63) are left out; only its callback is kept. The counter effect's cleanup at unmount of the whole page is also left out.
- The header scroll listener and back-to-top flag (App.jsx:22-37), the menu toggle, the contact form, the network map and all markup and styling are left out. None of them is carousel or counter logic.
- ScrollLoop.HandleTestimonialInfiniteScroll: the dot array is the page's six dots in document order, as the markup fixes them, so the method asks for exactly six; the source's scoped query has no such demand.
- Counter.StatsSection.OnInterval: the displayed values are a `seq` that is copied and rewritten. This is the value semantics of the source's spread copy, so there is no aliasing to model.

## Findings

The page model (`HandleInfiniteScroll`, `HandleTestimonialInfiniteScroll`, `SettleTestimonial`, the `Window` and `StatsSection` classes, `Step`, `Run`) keeps the code as written, because it describes the page as it behaves. Each corrected definition sits beside it, with the intended property proved about it.

| source | as written | input that shows it | evidently intended | confidence | as-written member | corrected member |
|---|---|---|---|---|---|---|
| src/App.jsx:648-649 | the start-up timeout stores a new interval in the slot without checking what the slot holds | ref callback, then mouse-leave, then the timeout fires: two intervals run, and mouse-enter stops only the second | exactly one testimonial interval, as mouse-leave guarantees | high, not executed | `Scheduler.TestimonialLeaveDuringStartupLeaks` | `Scheduler.CorrectedNeverTwoIntervals` |
| src/App.jsx:188 | the dot rule divides by card + 30, while an advance and the dot clicks move by card + 20 | a click on the second testimonial dot scrolls to card + 20, which is zone 0, so the first dot lights up | dot k lights up at the offset dot k scrolls to | high, not executed | `Indicator.TestimonialDotHighlightsPrevious` | `Indicator.CorrectedTestimonialDotSelectsItsZone` |
| src/App.jsx:123 | the logo dot update selects every `.carousel-dot` of the page, the testimonial dots included | any logo scroll or tick clears all three testimonial dots | the logo update touches only the logo strip's dots | high, not executed | `Indicator.LogoQueryClearsTestimonialDots` | `Indicator.ScopedLogoQueryKeepsTestimonialDots` |
| src/App.jsx:175-184 | the early wrap resets to 0 but records the large pre-correction sample | scroll width 3000, viewport 500, sample 1460: the strip goes to 0, then the next handler run sees 0 below the recorded 1460 and jumps to 1000 | "jump back to start": the strip stays at 0 | medium, not executed | `ScrollLoop.TestimonialEarlyWrapBounces` | `ScrollLoop.CorrectedEarlyWrapStaysAtStart` |
| src/App.jsx:111-117 | the cleanup cancels only the start-up timeouts; the interval ids returned inside them are discarded | intersect, stat 0 starts, leave, intersect, stat 0 starts again: two tickers drive stat 0 | a restart cancels the previous animation | high, not executed | `Counter.RetriggerRunsTwoTickers` | `Counter.CorrectedRunKeepsOneAnimation` |
