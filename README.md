# Portfolio landing page: scroll and timer arithmetic

This project is a Dafny model of the only logic on the portfolio landing
page (`src/app/page.tsx`) that goes beyond markup. There are three pieces:

- **Intro sequencer.** `Home`'s first effect installs two one-shot timers.
  The first starts the curtain once the phrase's letters have risen plus a
  250 ms pause. The second removes the overlay once all 8 curtain segments
  have shrunk plus 100 ms. `AnimatedPhrase` gives each code point of the
  phrase an entrance delay of `idx * 60` ms and renders spaces as U+00A0.
  All of this is modelled in integer milliseconds (module `Intro`).
- **Hero tilt controller.** On each animation frame, the photo card's
  rotation is interpolated from -6 degrees to 0 degrees over the first
  280 px that the hero block scrolls past the viewport top. On the same
  frame the card is reported pinned once its top is within 112.5 px of the
  viewport top. When a ref is not attached, its half of the state is left
  as it was (module `HeroTilt`, pure functions on a `TiltState` value).
- **Timeline scrubber.** `ExperienceTimeline` turns the sticky section's
  scroll position into an offset in `[0, scrollLength]`. It goes through a
  one-way `started` latch that only closes on a pinned frame that also sees
  the hero card pinned. Module `TimelineScrubber` holds the pure
  specification `Step`, and the class `Scrubber` whose fields are the latch
  and the offset. Its `Frame` method is the frame callback, written step by
  step with an early return and reassignments. Each entry's position
  `60 + 200*idx - offset` and its piecewise opacity are in module
  `TimelineLayout`. Module `Page` connects the two controllers: the
  tilt callback's `cardPinned` is the prop the timeline reads.

Geometry is `real`. Element tops from `getBoundingClientRect` are
parameters of the frame functions. A ref that is not attached is `None`.

Two details of the code shape the model:

- The curtain timer counts the phrase's UTF-16 code units
  (`phrase.length`). That is 14 for the page's phrase, whose waving hand
  is a surrogate pair, while the letters on screen are its 13 code
  points. So the curtain starts at 1730 ms and the overlay is removed at
  3290 ms. `Intro.CurtainAfterLastLetter` states the general relation:
  60 ms extra per astral code point.
- The top and bottom fades are `Math.max(0, ...)` with no upper clamp.
  They still stay in [0, 1] (`TimelineLayout.Opacity`).

The comments above the scroll-length computation say that the last entry
should stop fully visible at the bottom. The code stops it at `y = 0`,
where its opacity is 0. At full progress the sticky viewport therefore
shows no entry at all (`TimelineLayout.FullProgressHidesAll`). The model
keeps the scroll length as written.

## Model

| member | source | states |
|---|---|---|
| `Common.Max` | src/app/page.tsx:282 | `Math.max(a, b)` is at least both arguments and equal to one of them |
| `Common.Min` | src/app/page.tsx:284 | `Math.min(a, b)` is at most both arguments and equal to one of them |
| `Common.Clamp01` | src/app/page.tsx:56 | `Math.min(Math.max(x, 0), 1)` lies in [0, 1], is `x` inside it, and is 0 or 1 at and beyond the ends |
| `HeroTilt.Tilt` | src/app/page.tsx:55-57 | the tilt is always in [-6, 0]; it is -6 when the hero top is >= 0 and 0 when it is <= -280 |
| `HeroTilt.TiltLinear` | src/app/page.tsx:55-57 | between hero tops 0 and -280 the tilt is the straight line from -6 to 0 degrees |
| `HeroTilt.TiltMonotone` | src/app/page.tsx:56-57 | the tilt is non-increasing as the hero top increases |
| `HeroTilt.TiltContinuous` | src/app/page.tsx:56-57 | the tilt changes by at most 6/280 degree per pixel of scroll (continuous, no jumps) |
| `HeroTilt.CardPinned` | src/app/page.tsx:61-62 | the card is pinned exactly when its top is <= 112.5 (sticky offset 112 plus 0.5 tolerance) |
| `HeroTilt.CardPinnedMonotone` | src/app/page.tsx:62 | a card pinned at some top is pinned at every smaller (higher on screen) top |
| `HeroTilt.Frame` | src/app/page.tsx:49-64 | a missing hero ref leaves the tilt unchanged and a missing card ref leaves `cardPinned` unchanged; otherwise each is recomputed from its geometry; the tilt range invariant is preserved |
| `HeroTilt.FrameIdempotent` | src/app/page.tsx:49-64 | running the callback twice on the same geometry gives the same state as once |
| `HeroTilt.FrameForgetsHistory` | src/app/page.tsx:51-63 | with both refs attached the new state does not depend on the previous one |
| `HeroTilt.UprightWhenScrolledPast` | src/app/page.tsx:53-63 | hero top <= -280 and card top <= 112 give tilt 0 and pinned |
| `HeroTilt.InitialIsRest` | src/app/page.tsx:22-23 | the initial state (-6, not pinned) satisfies the invariant and is what an unscrolled hero produces |
| `Intro.CodeUnits` | src/app/page.tsx:27 | a code point takes two UTF-16 units exactly when it is outside the Basic Multilingual Plane, one otherwise |
| `Intro.Utf16Length` | src/app/page.tsx:27 | `phrase.length` is between the number of code points and twice that |
| `Intro.Utf16LengthCounts` | src/app/page.tsx:27 | `phrase.length` equals the number of code points plus the number of astral code points |
| `Intro.TotalLettersMs` | src/app/page.tsx:27 | `totalLetters` is `700 + 60*(phrase.length - 1)` ms, which is `700 + 60*(code points + astral code points - 1)` |
| `Intro.CurtainDurationMs` | src/app/page.tsx:32 | `curtainDurationMs` is `900 + 80*(8-1)` = 1460 ms |
| `Intro.IntroSchedule` | src/app/page.tsx:26-36 | the curtain timer's delay is exactly `totalLetters + 250` ms and positive; the hide timer fires exactly `(900 + 80*(8-1)) + 100` ms after it |
| `Intro.IntroStateAt` | src/app/page.tsx:29-36 | before the curtain delay the state is (not started, shown); from the curtain delay to the hide delay it is (started, shown); from the hide delay on it is (started, hidden) |
| `Intro.IntroStateMonotone` | src/app/page.tsx:29-36 | each flag flips once: a started curtain stays started, a hidden overlay stays hidden |
| `Intro.SegmentEndMs` | src/app/page.tsx:178-183 | segment `i` finishes shrinking `i*80 + 900` ms after the curtain starts, which is at most the curtain duration, and equal to it for the last segment |
| `Intro.SegmentsFinishBeforeHide` | src/app/page.tsx:31-36 | every segment finishes shrinking at least 100 ms before the overlay is removed |
| `Intro.Glyph` | src/app/page.tsx:225 | a space is rendered as U+00A0, every other character unchanged; the result is never U+0020 |
| `Intro.Letters` | src/app/page.tsx:203-227 | one letter per code point, in order; letter `i` has glyph `Glyph(phrase[i])`, delay `60*i` ms, and is the waving hand exactly when its code point is U+1F44B |
| `Intro.LetterDelaysIncrease` | src/app/page.tsx:203-204 | entrance delays strictly increase along the phrase |
| `Intro.GlyphsHaveNoSpace` | src/app/page.tsx:225 | the rendered glyph sequence contains no U+0020 |
| `Intro.RenderRoundTrip` | src/app/page.tsx:203-225 | for a phrase without its own U+00A0, turning the rendered no-break spaces back into spaces gives the phrase: rendering changes spaces and nothing else |
| `Intro.CurtainAfterLastLetter` | src/app/page.tsx:27-29 | the curtain starts 250 ms plus 60 ms per astral code point after the last letter's entrance ends, so never before it |
| `Intro.HomeSchedule` | src/app/page.tsx:10-35 | for "Hey, there 👋!": 13 code points, length 14, last letter risen at 1420 ms, curtain at 1730 ms, overlay removed at 3290 ms |
| `TimelineLayout.ScrollLength` | src/app/page.tsx:258-261 | the scroll length is never 0 (so the `\|\| 1` guard never applies); for at least one entry it is 60 plus 200 per further entry |
| `TimelineLayout.ItemY` | src/app/page.tsx:325 | an entry's position plus the offset is its rest position `60 + 200*idx` |
| `TimelineLayout.Opacity` | src/app/page.tsx:327-346 | opacity is in [0, 1], exactly 1 for `y` in [40, 240], and 0 for `y < -120` or `y > 540` |
| `TimelineLayout.OpacityShape` | src/app/page.tsx:330-346 | closed form: 0 up to `y = 0`, `y/40` up to 40, 1 up to 240, `(300-y)/60` up to 300, 0 beyond; positive exactly on (0, 300) |
| `TimelineLayout.FadesMeetAtOne` | src/app/page.tsx:333-341 | `Opacity` is 1 at `y = 40` and at `y = 240`, equal there to the top and bottom fade formulas, and follows `y/40` on [0, 40) and `(300-y)/60` on (240, 300] |
| `TimelineLayout.OpacityContinuous` | src/app/page.tsx:330-346 | opacity changes by at most `d/40` when the entry moves by `d` px (continuous in `y`) |
| `TimelineLayout.ItemsOrdered` | src/app/page.tsx:324-325 | at a fixed offset, `i < j` implies `y_i < y_j`, and the gap is exactly `200*(j-i)` |
| `TimelineLayout.AtMostTwoVisible` | src/app/page.tsx:325-346 | two entries with positive opacity at the same offset are adjacent |
| `TimelineLayout.EachItemShownInFull` | src/app/page.tsx:324-346 | every entry is fully opaque at some offset within `[0, scrollLength]` |
| `TimelineLayout.FullProgressHidesAll` | src/app/page.tsx:258-261 | at offset `scrollLength` the last entry is at `y = 0` and every entry has opacity 0 |
| `TimelineLayout.ShownItemsLayout` | src/app/page.tsx:240-261 | the four entries give scroll length 660; at rest entry 0 is fully visible, entry 1 has opacity 2/3, and entries 2 and 3 are hidden |
| `TimelineScrubber.Progress` | src/app/page.tsx:281-284 | progress is in [0, 1]; 0 when the section is not above the sticky offset; 1 once it has scrolled a full scroll length; otherwise `progress * scrollLength` is the distance scrolled |
| `TimelineScrubber.ScaledProgressInRange` | src/app/page.tsx:295 | `progress * scrollLength` lies between 0 and the largest offset |
| `TimelineScrubber.Step` | src/app/page.tsx:270-295 | the new state keeps the invariant (offset in `[0, scrollLength]`, open latch means offset 0); an unpinned frame gives the initial state; the latch is closed afterwards iff the section is pinned and the latch was closed or the card is pinned; with the latch closed the offset is the scrolled distance capped at the scroll length |
| `TimelineScrubber.Scrubber.constructor` | src/app/page.tsx:237-238 | a fresh timeline has an open latch and offset 0 |
| `TimelineScrubber.Scrubber.Frame` | src/app/page.tsx:270-296 | the callback's in-place update of the latch and the offset is exactly `Step` on the old state, and leaves the invariant true |
| `TimelineScrubber.StepIdempotent` | src/app/page.tsx:270-295 | running the callback twice on the same geometry and prop changes nothing the second time |
| `TimelineScrubber.UnpinnedResets` | src/app/page.tsx:273-279 | a section top > 112 sets the latch to false and the offset to 0, whatever the previous state |
| `TimelineScrubber.Gate` | src/app/page.tsx:286-293 | while pinned: an open latch and an unpinned card keep the offset 0 and the latch open; an open latch and a pinned card close it; a closed latch stays closed whatever `cardPinned` is |
| `TimelineScrubber.OffsetMonotone` | src/app/page.tsx:281-295 | with the latch closed, the offset is non-decreasing as the section top decreases |
| `TimelineScrubber.ShownItemsOffsetRange` | src/app/page.tsx:282-295 | for the four entries shown, every frame's offset is in [0, 660] |
| `TimelineScrubber.RunValid` | src/app/page.tsx:263-305 | every state reachable by any sequence of frames satisfies the invariant |
| `TimelineScrubber.LatchHoldsWhilePinned` | src/app/page.tsx:286-293 | once closed, the latch stays closed through any sequence of pinned frames |
| `TimelineScrubber.RestsUntilCardPinned` | src/app/page.tsx:286-293 | from rest, as long as no frame sees the card pinned, the timeline stays at rest with the latch open, however the section scrolls |
| `TimelineScrubber.LatchNeedsCardPinned` | src/app/page.tsx:286-290 | if a run that starts with the latch open ends with it closed, some frame in it had the section pinned and the card pinned |
| `Page.TimelineFrames` | src/app/page.tsx:141 | the timeline's k-th frame sees the k-th section top and a `cardPinned` that is true exactly when the k-th card top is <= 112.5 |
| `Page.TimelineAdvancesOnlyAfterCardPinned` | src/app/page.tsx:286-293 | from mount, a non-zero offset implies an earlier frame had the section pinned and the card top <= 112.5 |

## Left out

- Timer and frame scheduling are not modelled: `setTimeout`/`clearTimeout`, `requestAnimationFrame`/`cancelAnimationFrame`, the scroll listeners, and the `raf` coalescing flag. These are browser APIs on an event loop. Each frame callback is a function or method called with the geometry it reads. The intro timers are modelled by the time at which each fires (`Intro.IntroStateAt`). Cancelling them on unmount is not modelled.
- Intro.IntroStateAt: assumes each timer fires exactly at its delay. A browser may fire it later, which only shifts the flips in time.
- React's render cycle is not modelled. The timeline reads the `cardPinned` value of the last render, so it lags the tilt callback by a render; `cardPinned` is a plain parameter of `Scrubber.Frame`. The re-subscription that follows every change of `cardPinned` is one more call to `Frame`, and the latch and offset survive it because they are fields of the object.
- The timeline effect returns without subscribing when the section ref is not attached. The model only covers a mounted section.
- IEEE-754 rounding is not modelled. `Math.max`/`Math.min` are taken on finite reals, and `(totalLetters + 0.25) * 1000` is taken as an exact whole number of milliseconds.
- CSS animations are not modelled: `intro-slide-up`, `hand-wave`, `curtain-shrink`, and the `transition-transform` smoothing. They are defined in stylesheets that are not part of this model. A segment's shrink is taken to last `segDuration`.
- JSX markup, classes, the header, the navigation, and the experience entries' text are left out. They only matter through `items.length`, which is a parameter here.
- The unused `bottomPadding` constant is left out, because nothing reads it.
