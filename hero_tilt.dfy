/** The hero card's scroll-driven tilt and the "card pinned" test
    (the frame callback of `Home`'s second effect).

    Each animation frame reads the live top of the hero copy block and
    of the sticky photo card. The hero top drives a rotation that goes
    linearly from -6 degrees (hero at or below the viewport top) to
    0 degrees once the hero has scrolled 280 px past the top; the card
    top decides whether the card has reached its sticky offset. A ref
    that is not attached leaves its half of the state as it was. */
module HeroTilt {
  import opened Common

  /** `STICKY_TOP`: the `top-28` offset (112 px) of the sticky elements. */
  const StickyTop: real := 112.0
  /** Sub-pixel tolerance added to the sticky offset in the pinned test. */
  const PinTolerance: real := 0.5
  /** Scroll distance (px) over which the tilt is removed. */
  const TiltDistance: real := 280.0
  /** The design's resting tilt, in degrees. */
  const RestTilt: real := -6.0

  /** The state the callback writes: `tiltDeg` and `cardPinned`. */
  datatype TiltState = TiltState(tiltDeg: real, cardPinned: bool)

  /** The values `useState` starts with: tilted, not pinned. */
  const Initial: TiltState := TiltState(RestTilt, false)

  /** The tilt always stays within the design range. */
  predicate Valid(s: TiltState) {
    RestTilt <= s.tiltDeg <= 0.0
  }

  /** The tilt for a hero block whose top is at `heroTop` (viewport px). */
  function Tilt(heroTop: real): (deg: real)
    ensures -6.0 <= deg <= 0.0
    ensures heroTop >= 0.0 ==> deg == -6.0
    ensures heroTop <= -280.0 ==> deg == 0.0
  {
    var raw := Clamp01(-heroTop / TiltDistance);
    RestTilt + 6.0 * raw
  }

  /** Whether the card sits at (or above) its sticky offset. */
  function CardPinned(cardTop: real): (pinned: bool)
    ensures pinned <==> cardTop <= 112.5
  {
    cardTop <= StickyTop + PinTolerance
  }

  /** A card that is pinned stays pinned at every higher position. */
  lemma CardPinnedMonotone(a: real, b: real)
    requires a <= b
    ensures CardPinned(b) ==> CardPinned(a)
  {
  }

  /** One run of the frame callback. `heroTop` and `cardTop` are the
      `getBoundingClientRect().top` of the two refs, `None` when a ref
      is not attached. */
  function Frame(s: TiltState, heroTop: Option<real>, cardTop: Option<real>): (r: TiltState)
    ensures Valid(s) ==> Valid(r)
    ensures heroTop.None? ==> r.tiltDeg == s.tiltDeg
    ensures cardTop.None? ==> r.cardPinned == s.cardPinned
    ensures heroTop.Some? ==> r.tiltDeg == Tilt(heroTop.value)
    ensures cardTop.Some? ==> (r.cardPinned <==> cardTop.value <= 112.5)
  {
    var tilt := if heroTop.Some? then Tilt(heroTop.value) else s.tiltDeg;
    var pinned := if cardTop.Some? then CardPinned(cardTop.value) else s.cardPinned;
    TiltState(tilt, pinned)
  }

  /** Between the two end points the tilt is the straight line from
      -6 degrees at top 0 to 0 degrees at top -280. */
  lemma TiltLinear(heroTop: real)
    requires -280.0 <= heroTop <= 0.0
    ensures Tilt(heroTop) == -6.0 - 6.0 * heroTop / 280.0
  {
  }

  /** Scrolling further down (a smaller hero top) never increases the
      rotation's magnitude: the tilt is non-increasing in the hero top. */
  lemma TiltMonotone(a: real, b: real)
    requires a <= b
    ensures Tilt(b) <= Tilt(a)
  {
    Clamp01Monotone(-b / TiltDistance, -a / TiltDistance);
  }

  /** The tilt is continuous: it changes by at most 6/280 degree per
      pixel of scroll, so it never jumps. */
  lemma TiltContinuous(a: real, b: real)
    requires a <= b
    ensures 0.0 <= Tilt(a) - Tilt(b) <= 6.0 * (b - a) / 280.0
  {
    Clamp01Contracts(-b / TiltDistance, -a / TiltDistance);
  }

  /** Running the callback twice on the same geometry changes nothing
      the second time: there is no drift. */
  lemma FrameIdempotent(s: TiltState, heroTop: Option<real>, cardTop: Option<real>)
    ensures Frame(Frame(s, heroTop, cardTop), heroTop, cardTop) == Frame(s, heroTop, cardTop)
  {
  }

  /** With both refs attached the result depends on the geometry only,
      never on the previous state. */
  lemma FrameForgetsHistory(s1: TiltState, s2: TiltState, heroTop: real, cardTop: real)
    ensures Frame(s1, Some(heroTop), Some(cardTop)) == Frame(s2, Some(heroTop), Some(cardTop))
  {
  }

  /** Once the hero is 280 px past the top and the card has reached its
      sticky offset, the card is upright and reported pinned. */
  lemma UprightWhenScrolledPast(s: TiltState, heroTop: real, cardTop: real)
    requires heroTop <= -280.0 && cardTop <= StickyTop
    ensures Frame(s, Some(heroTop), Some(cardTop)) == TiltState(0.0, true)
  {
  }

  /** The initial state is the one the tilt formula gives for an
      unscrolled page, and satisfies the invariant. */
  lemma InitialIsRest(heroTop: real)
    requires heroTop >= 0.0
    ensures Valid(Initial)
    ensures Frame(Initial, Some(heroTop), None) == Initial
  {
  }
}
