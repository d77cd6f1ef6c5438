/** The experience timeline's frame callback: how the section's live top
    and the hero card's `cardPinned` flag move the timeline's scroll
    offset, through a one-way `started` latch.

    While the section's top is below the sticky offset (112 px) the
    timeline is at rest and the latch is open. Once it is pinned, the
    scrolled distance is turned into a progress in [0, 1] over the
    scroll length; but until the hero card has been seen pinned, the
    progress is held at 0. The first pinned frame that sees the card
    pinned closes the latch, and from then on the offset follows the
    scroll until the section is unpinned again.

    The latch lives in a ref, so it outlives the effect's teardown and
    re-subscription whenever `cardPinned` changes; the offset is
    component state and outlives them too. Both are the fields of
    `Scrubber`, and every run of the callback (one per scroll frame, and
    one right after each re-subscription) is a call to `Frame`. */
module TimelineScrubber {
  import opened Common
  import opened TimelineLayout

  /** `topStickyOffset`: the section is pinned once its top reaches it. */
  const TopStickyOffset: real := 112.0

  /** The persistent state: the `startedRef` latch and the `offset`. */
  datatype TimelineState = TimelineState(started: bool, offset: real)

  /** The state at mount: latch open, timeline at rest. */
  const Initial: TimelineState := TimelineState(false, 0.0)

  /** The largest offset a frame can produce for scroll length `len`. */
  function MaxOffset(len: int): real {
    if len > 0 then len as real else 0.0
  }

  /** The invariant every frame re-establishes: the offset lies in the
      scroll range, and an open latch means the timeline is at rest. */
  predicate Valid(s: TimelineState, len: int) {
    && 0.0 <= s.offset <= MaxOffset(len)
    && (!s.started ==> s.offset == 0.0)
  }

  /** The clamped progress of a pinned section whose top is at
      `sectionTop`, over scroll length `len` (`len || 1` guards zero). */
  function Progress(sectionTop: real, len: int): (p: real)
    ensures 0.0 <= p <= 1.0
    ensures len < 0 || sectionTop >= TopStickyOffset ==> p == 0.0
    ensures len > 0 && TopStickyOffset - sectionTop >= len as real ==> p == 1.0
    ensures len > 0 && 0.0 <= TopStickyOffset - sectionTop <= len as real
         ==> p * len as real == TopStickyOffset - sectionTop
  {
    var scrollProgress := Max(0.0, TopStickyOffset - sectionTop);
    Clamp01(scrollProgress / (if len == 0 then 1 else len) as real)
  }

  /** One run of the frame callback on the abstract state. */
  function Step(s: TimelineState, sectionTop: real, cardPinned: bool, len: int): (r: TimelineState)
    ensures Valid(r, len)
    ensures sectionTop > TopStickyOffset ==> r == Initial
    ensures r.started <==> sectionTop <= TopStickyOffset && (s.started || cardPinned)
    ensures r.started && len > 0
         ==> r.offset == Min(TopStickyOffset - sectionTop, len as real)
  {
    if sectionTop > TopStickyOffset then Initial
    else
      var started := s.started || cardPinned;
      var progress := if started then Progress(sectionTop, len) else 0.0;
      assert 0.0 <= progress * len as real <= MaxOffset(len) by {
        ScaledProgressInRange(progress, len);
      }
      TimelineState(started, progress * len as real)
  }

  /** A fraction of the scroll length lies between 0 and the largest
      offset; a negative length only ever meets a zero progress. */
  lemma ScaledProgressInRange(p: real, len: int)
    requires 0.0 <= p <= 1.0
    requires len < 0 ==> p == 0.0
    ensures 0.0 <= p * len as real <= MaxOffset(len)
  {
    if len > 0 {
      assert p * len as real <= 1.0 * len as real;
    }
  }

  /** The section's timeline component: the latch and the offset, for a
      fixed list of `itemCount` entries. */
  class Scrubber {
    const scrollLength: int
    var started: bool
    var offset: real

    /** The abstract value of the component's state. */
    function State(): TimelineState
      reads this
    {
      TimelineState(started, offset)
    }

    /** Mounting: `useRef(false)` and `useState(0)`. */
    constructor (itemCount: nat)
      ensures scrollLength == ScrollLength(itemCount)
      ensures State() == Initial && Valid(State(), scrollLength)
    {
      scrollLength := ScrollLength(itemCount);
      started := false;
      offset := 0.0;
    }

    /** The `requestAnimationFrame` body: reads the section's top and the
        `cardPinned` prop the effect was subscribed with. */
    method Frame(sectionTop: real, cardPinned: bool)
      modifies this
      ensures State() == Step(old(State()), sectionTop, cardPinned, scrollLength)
      ensures Valid(State(), scrollLength)
    {
      var isTimelinePinned := sectionTop <= TopStickyOffset;

      if !isTimelinePinned {
        started := false;
        offset := 0.0;
        return;
      }

      var scrollProgress := Max(0.0, TopStickyOffset - sectionTop);
      var progress := scrollProgress / (if scrollLength == 0 then 1 else scrollLength) as real;
      progress := Min(Max(progress, 0.0), 1.0);

      if !started {
        if cardPinned {
          started := true;
        } else {
          progress := 0.0;
        }
      }

      offset := progress * scrollLength as real;
    }
  }

  /** A frame's input: the section's top and the `cardPinned` prop. */
  datatype Sample = Sample(sectionTop: real, cardPinned: bool)

  /** The state after running the callback on each sample in turn. */
  function Run(s: TimelineState, samples: seq<Sample>, len: int): TimelineState
    decreases samples
  {
    if samples == [] then s
    else Run(Step(s, samples[0].sectionTop, samples[0].cardPinned, len), samples[1..], len)
  }

  /** Re-running the callback on unchanged geometry and props changes
      nothing: there is no drift from frame to frame. */
  lemma StepIdempotent(s: TimelineState, sectionTop: real, cardPinned: bool, len: int)
    ensures Step(Step(s, sectionTop, cardPinned, len), sectionTop, cardPinned, len)
         == Step(s, sectionTop, cardPinned, len)
  {
  }

  /** An unpinned frame resets the latch and the offset, whatever the
      state before. */
  lemma UnpinnedResets(s: TimelineState, sectionTop: real, cardPinned: bool, len: int)
    requires sectionTop > TopStickyOffset
    ensures Step(s, sectionTop, cardPinned, len) == TimelineState(false, 0.0)
  {
  }

  /** The gate: with the latch open, a pinned frame that does not see the
      card pinned keeps the timeline at rest and the latch open; one that
      does see it closes the latch. A closed latch stays closed on every
      pinned frame, whatever `cardPinned` says. */
  lemma Gate(s: TimelineState, sectionTop: real, cardPinned: bool, len: int)
    requires sectionTop <= TopStickyOffset
    ensures !s.started && !cardPinned ==> Step(s, sectionTop, cardPinned, len) == TimelineState(false, 0.0)
    ensures !s.started && cardPinned ==> Step(s, sectionTop, cardPinned, len).started
    ensures s.started ==> Step(s, sectionTop, cardPinned, len).started
  {
  }

  /** With the latch closed the offset follows the scroll: the further
      the section has scrolled up (the smaller its top), the larger the
      offset. */
  lemma OffsetMonotone(s: TimelineState, top1: real, top2: real, c1: bool, c2: bool, len: int)
    requires s.started
    requires top1 <= top2
    ensures Step(s, top2, c2, len).offset <= Step(s, top1, c1, len).offset
  {
    if top2 <= TopStickyOffset && len > 0 {
      var p1, p2 := Progress(top1, len), Progress(top2, len);
      assert p2 <= p1 by {
        var d1 := Max(0.0, TopStickyOffset - top1) / len as real;
        var d2 := Max(0.0, TopStickyOffset - top2) / len as real;
        DivideMonotone(Max(0.0, TopStickyOffset - top2), Max(0.0, TopStickyOffset - top1), len as real);
        Clamp01Monotone(d2, d1);
      }
      assert p2 * len as real <= p1 * len as real;
    }
  }

  /** Dividing by a positive length keeps the order. */
  lemma DivideMonotone(a: real, b: real, d: real)
    requires a <= b && d > 0.0
    ensures a / d <= b / d
  {
    assert b / d - a / d == (b - a) / d;
  }

  /** For the page's four entries the offset stays within [0, 660]. */
  lemma ShownItemsOffsetRange(s: TimelineState, sectionTop: real, cardPinned: bool)
    ensures 0.0 <= Step(s, sectionTop, cardPinned, ScrollLength(ShownItems)).offset <= 660.0
  {
  }

  /** Every reachable state satisfies the invariant. */
  lemma {:induction false} RunValid(s: TimelineState, samples: seq<Sample>, len: int)
    requires Valid(s, len)
    ensures Valid(Run(s, samples, len), len)
    decreases samples
  {
    if samples != [] {
      RunValid(Step(s, samples[0].sectionTop, samples[0].cardPinned, len), samples[1..], len);
    }
  }

  /** Once closed, the latch stays closed through any run of pinned
      frames, until an unpinned frame resets it. */
  lemma {:induction false} LatchHoldsWhilePinned(s: TimelineState, samples: seq<Sample>, len: int)
    requires s.started
    requires forall k :: 0 <= k < |samples| ==> samples[k].sectionTop <= TopStickyOffset
    ensures Run(s, samples, len).started
    decreases samples
  {
    if samples != [] {
      LatchHoldsWhilePinned(Step(s, samples[0].sectionTop, samples[0].cardPinned, len), samples[1..], len);
    }
  }

  /** While the card is never seen pinned, the timeline never leaves its
      rest position, however far the section scrolls. */
  lemma {:induction false} RestsUntilCardPinned(s: TimelineState, samples: seq<Sample>, len: int)
    requires !s.started && s.offset == 0.0
    requires forall k :: 0 <= k < |samples| ==> !samples[k].cardPinned
    ensures Run(s, samples, len) == TimelineState(false, 0.0)
    decreases samples
  {
    if samples != [] {
      RestsUntilCardPinned(Step(s, samples[0].sectionTop, samples[0].cardPinned, len), samples[1..], len);
    }
  }

  /** The latch only closes on a pinned frame that sees the card pinned:
      if a run starting with an open latch ends with it closed, some
      frame of the run had the section pinned and `cardPinned` true. */
  lemma {:induction false} LatchNeedsCardPinned(s: TimelineState, samples: seq<Sample>, len: int)
    requires !s.started
    requires Run(s, samples, len).started
    ensures exists k :: 0 <= k < |samples| &&
              samples[k].cardPinned && samples[k].sectionTop <= TopStickyOffset
    decreases samples
  {
    if samples == [] {
      assert false;
    } else {
      var next := Step(s, samples[0].sectionTop, samples[0].cardPinned, len);
      if next.started {
        assert samples[0].cardPinned && samples[0].sectionTop <= TopStickyOffset;
      } else {
        LatchNeedsCardPinned(next, samples[1..], len);
        var k :| 0 <= k < |samples[1..]|
          && samples[1..][k].cardPinned && samples[1..][k].sectionTop <= TopStickyOffset;
        assert samples[k + 1] == samples[1..][k];
      }
    }
  }
}
