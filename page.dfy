/** How `Home` wires the hero card's pinned flag into the experience
    timeline: the `cardPinned` state written by the tilt callback is the
    prop the timeline's frame callback reads. */
module Page {
  import HeroTilt
  import TimelineScrubber

  /** The timeline frames for a sequence of section tops, where the k-th
      frame sees the `cardPinned` the tilt callback derived from card top
      `cardTops[k]`. */
  function TimelineFrames(sectionTops: seq<real>, cardTops: seq<real>): (f: seq<TimelineScrubber.Sample>)
    requires |sectionTops| == |cardTops|
    ensures |f| == |sectionTops|
    ensures forall k :: 0 <= k < |f| ==>
      f[k].sectionTop == sectionTops[k] && (f[k].cardPinned <==> cardTops[k] <= 112.5)
  {
    seq(|sectionTops|, k requires 0 <= k < |sectionTops| =>
      TimelineScrubber.Sample(sectionTops[k], HeroTilt.CardPinned(cardTops[k])))
  }

  /** From mount, the timeline's offset can leave 0 only after a frame in
      which the section was pinned and the hero card's top had reached
      112.5 px. */
  lemma TimelineAdvancesOnlyAfterCardPinned(sectionTops: seq<real>, cardTops: seq<real>, len: int)
    requires |sectionTops| == |cardTops|
    requires TimelineScrubber.Run(TimelineScrubber.Initial, TimelineFrames(sectionTops, cardTops), len).offset != 0.0
    ensures exists k :: 0 <= k < |cardTops| &&
              cardTops[k] <= 112.5 && sectionTops[k] <= TimelineScrubber.TopStickyOffset
  {
    var frames := TimelineFrames(sectionTops, cardTops);
    TimelineScrubber.RunValid(TimelineScrubber.Initial, frames, len);
    TimelineScrubber.LatchNeedsCardPinned(TimelineScrubber.Initial, frames, len);
    var k :| 0 <= k < |frames| && frames[k].cardPinned
      && frames[k].sectionTop <= TimelineScrubber.TopStickyOffset;
    assert cardTops[k] <= 112.5 && sectionTops[k] <= TimelineScrubber.TopStickyOffset;
  }
}
