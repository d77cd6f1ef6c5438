/** The intro overlay's schedule (the first effect of `Home`) and the
    per-letter entrance of `AnimatedPhrase`.

    All durations are integer milliseconds: the page's constants
    (0.7 s, 0.06 s, 0.25 s, 0.9 s, 0.08 s, 100 ms) are all whole numbers
    of milliseconds. Two one-shot timers are derived from them: the
    curtain starts after the letters have risen plus a 250 ms pause,
    and the overlay is removed after the whole curtain has shrunk plus
    100 ms. The timer's letter count is JavaScript's `phrase.length`,
    which counts UTF-16 code units, while the letters on screen are the
    phrase's code points. */
module Intro {

  /** The phrase shown on the overlay: "Hey, there" + waving hand + "!". */
  const HomePhrase: string := "Hey, there \U{1F44B}!"
  /** The waving-hand glyph, which additionally runs the wave animation. */
  const Wave: char := '\U{1F44B}'
  /** U+00A0, rendered in place of an ordinary space. */
  const NoBreakSpace: char := '\U{00A0}'

  const LetterDurationMs: int := 700
  const StaggerMs: int := 60
  const CurtainPauseMs: int := 250
  const SegmentCount: int := 8
  const SegDurationMs: int := 900
  const SegDelayMs: int := 80
  const HideTailMs: int := 100

  /** UTF-16 code units needed for one code point. */
  function CodeUnits(c: char): (n: nat)
    ensures n == 1 || n == 2
    ensures n == 2 <==> c as int >= 0x1_0000
  {
    if c as int >= 0x1_0000 then 2 else 1
  }

  /** JavaScript's `s.length`: the number of UTF-16 code units of `s`. */
  function Utf16Length(s: string): (n: nat)
    ensures |s| <= n <= 2 * |s|
  {
    if s == [] then 0 else CodeUnits(s[0]) + Utf16Length(s[1..])
  }

  /** How many code points of `s` lie outside the Basic Multilingual
      Plane (and so take a surrogate pair in UTF-16). */
  function AstralCount(s: string): (k: nat)
    ensures k <= |s|
  {
    if s == [] then 0 else (if s[0] as int >= 0x1_0000 then 1 else 0) + AstralCount(s[1..])
  }

  /** `phrase.length` exceeds the number of code points by exactly the
      number of astral code points. */
  lemma {:induction false} Utf16LengthCounts(s: string)
    ensures Utf16Length(s) == |s| + AstralCount(s)
  {
    if s != [] {
      Utf16LengthCounts(s[1..]);
    }
  }

  /** The two timer delays the effect installs. */
  datatype Schedule = Schedule(curtainStartMs: int, hideMs: int)

  /** `totalLetters` in milliseconds: the last letter's rise, counted
      with `phrase.length`, so 60 ms extra per astral code point. */
  function TotalLettersMs(phrase: string): (ms: int)
    ensures ms == LetterDurationMs + StaggerMs * (Utf16Length(phrase) - 1)
    ensures ms == LetterDurationMs + StaggerMs * (|phrase| + AstralCount(phrase) - 1)
  {
    Utf16LengthCounts(phrase);
    LetterDurationMs + StaggerMs * (Utf16Length(phrase) - 1)
  }

  /** `curtainDurationMs`: the shrink of the last segment ends this long
      after the curtain starts. */
  function CurtainDurationMs(): (ms: int)
    ensures ms == 1460
  {
    SegDurationMs + SegDelayMs * (SegmentCount - 1)
  }

  /** The delays of the "start curtain" and "hide intro" timers. */
  function IntroSchedule(phrase: string): (sch: Schedule)
    ensures sch.curtainStartMs == TotalLettersMs(phrase) + CurtainPauseMs
    ensures sch.curtainStartMs >= LetterDurationMs + CurtainPauseMs - StaggerMs
    ensures sch.hideMs - sch.curtainStartMs
         == (SegDurationMs + SegDelayMs * (SegmentCount - 1)) + HideTailMs
    ensures 0 < sch.curtainStartMs < sch.hideMs
  {
    var start := TotalLettersMs(phrase) + CurtainPauseMs;
    Schedule(start, start + CurtainDurationMs() + HideTailMs)
  }

  /** The overlay's render state `{ curtainStarted, showIntro }`. */
  datatype IntroState = IntroState(curtainStarted: bool, introVisible: bool)

  /** The render state `t` ms after mount, both timers having fired at
      their delays when those are due. */
  function IntroStateAt(phrase: string, t: nat): (st: IntroState)
    ensures t == 0 ==> st == IntroState(false, true)
    ensures !st.introVisible ==> st.curtainStarted
    ensures t < IntroSchedule(phrase).curtainStartMs ==> st == IntroState(false, true)
    ensures IntroSchedule(phrase).curtainStartMs <= t < IntroSchedule(phrase).hideMs
         ==> st == IntroState(true, true)
    ensures t >= IntroSchedule(phrase).hideMs ==> st == IntroState(true, false)
  {
    var sch := IntroSchedule(phrase);
    IntroState(t >= sch.curtainStartMs, t < sch.hideMs)
  }

  /** Each flag flips once and never back: the curtain, once started,
      stays started, and the overlay, once hidden, stays hidden. */
  lemma IntroStateMonotone(phrase: string, t1: nat, t2: nat)
    requires t1 <= t2
    ensures IntroStateAt(phrase, t1).curtainStarted ==> IntroStateAt(phrase, t2).curtainStarted
    ensures !IntroStateAt(phrase, t1).introVisible ==> !IntroStateAt(phrase, t2).introVisible
  {
  }

  /** Segment `i` starts shrinking `i * 80` ms after the curtain starts
      and finishes 900 ms later. */
  function SegmentEndMs(i: nat): (end: int)
    requires i < SegmentCount
    ensures SegDurationMs <= end <= CurtainDurationMs()
    ensures i == SegmentCount - 1 ==> end == CurtainDurationMs()
  {
    i * SegDelayMs + SegDurationMs
  }

  /** Every segment has finished shrinking at least 100 ms before the
      overlay is removed. */
  lemma SegmentsFinishBeforeHide(phrase: string, i: nat)
    requires i < SegmentCount
    ensures IntroSchedule(phrase).curtainStartMs + SegmentEndMs(i)
         <= IntroSchedule(phrase).hideMs - HideTailMs
  {
  }

  /** One rendered letter: its glyph, its entrance delay, and whether it
      is the waving hand. */
  datatype Letter = Letter(glyph: char, delayMs: int, isWave: bool)

  /** The glyph put on screen for code point `c`. */
  function Glyph(c: char): (g: char)
    ensures g != ' '
    ensures c == ' ' ==> g == NoBreakSpace
    ensures c != ' ' ==> g == c
  {
    if c == ' ' then NoBreakSpace else c
  }

  /** `Array.from(phrase).map(...)`: one letter per code point, the
      `idx`-th delayed by `idx * stagger`. */
  function Letters(phrase: string): (r: seq<Letter>)
    ensures |r| == |phrase|
    ensures forall i :: 0 <= i < |r| ==> r[i].glyph == Glyph(phrase[i])
    ensures forall i :: 0 <= i < |r| ==> (r[i].isWave <==> phrase[i] == Wave)
    ensures forall i :: 0 <= i < |r| ==> r[i].delayMs == i * StaggerMs
  {
    seq(|phrase|, i requires 0 <= i < |phrase| =>
      Letter(Glyph(phrase[i]), i * StaggerMs, phrase[i] == Wave))
  }

  /** Entrance delays strictly increase along the phrase. */
  lemma LetterDelaysIncrease(phrase: string, i: nat, j: nat)
    requires i < j < |phrase|
    ensures Letters(phrase)[i].delayMs < Letters(phrase)[j].delayMs
  {
  }

  /** The glyphs of a letter sequence, in order. */
  function Glyphs(letters: seq<Letter>): (g: string)
    ensures |g| == |letters|
  {
    if letters == [] then [] else [letters[0].glyph] + Glyphs(letters[1..])
  }

  /** Turns every U+00A0 back into an ordinary space. */
  function Unrender(g: string): (s: string)
    ensures |s| == |g|
  {
    if g == [] then [] else [if g[0] == NoBreakSpace then ' ' else g[0]] + Unrender(g[1..])
  }

  /** `Glyphs` keeps each letter's glyph in its place. */
  lemma {:induction false} GlyphsAt(letters: seq<Letter>, k: nat)
    requires k < |letters|
    ensures Glyphs(letters)[k] == letters[k].glyph
  {
    if k > 0 {
      GlyphsAt(letters[1..], k - 1);
    }
  }

  /** `Unrender` maps each character in its place. */
  lemma {:induction false} UnrenderAt(g: string, k: nat)
    requires k < |g|
    ensures Unrender(g)[k] == if g[k] == NoBreakSpace then ' ' else g[k]
  {
    if k > 0 {
      UnrenderAt(g[1..], k - 1);
    }
  }

  /** The rendered text contains no breaking space at all. */
  lemma GlyphsHaveNoSpace(phrase: string)
    ensures ' ' !in Glyphs(Letters(phrase))
  {
    var g := Glyphs(Letters(phrase));
    forall k | 0 <= k < |g|
      ensures g[k] != ' '
    {
      GlyphsAt(Letters(phrase), k);
    }
  }

  /** Rendering only swaps spaces for no-break spaces: for a phrase that
      has no U+00A0 of its own, turning them back gives the phrase. */
  lemma RenderRoundTrip(phrase: string)
    requires NoBreakSpace !in phrase
    ensures Unrender(Glyphs(Letters(phrase))) == phrase
  {
    var g := Glyphs(Letters(phrase));
    forall k | 0 <= k < |phrase|
      ensures Unrender(g)[k] == phrase[k]
    {
      GlyphsAt(Letters(phrase), k);
      UnrenderAt(g, k);
    }
  }

  /** The last letter's entrance ends at this time after mount. */
  function LastLetterEndMs(phrase: string): int
    requires phrase != []
  {
    (|phrase| - 1) * StaggerMs + LetterDurationMs
  }

  /** The curtain starts once the last letter has risen, after the
      250 ms pause plus 60 ms per astral code point: the timer counts
      `phrase.length` while the letters are code points. */
  lemma {:induction false} CurtainAfterLastLetter(phrase: string)
    requires phrase != []
    ensures IntroSchedule(phrase).curtainStartMs
         == LastLetterEndMs(phrase) + CurtainPauseMs + StaggerMs * AstralCount(phrase)
    ensures IntroSchedule(phrase).curtainStartMs >= LastLetterEndMs(phrase) + CurtainPauseMs
  {
    Utf16LengthCounts(phrase);
  }

  /** The page's own phrase: 13 letters on screen, `length` 14, so the
      curtain starts at 1730 ms (310 ms after the last letter has risen
      at 1420 ms) and the overlay goes at 3290 ms. */
  lemma HomeSchedule()
    ensures |HomePhrase| == 13 && Utf16Length(HomePhrase) == 14
    ensures LastLetterEndMs(HomePhrase) == 1420
    ensures IntroSchedule(HomePhrase) == Schedule(1730, 3290)
  {
    assert AstralCount(HomePhrase) == 1;
    Utf16LengthCounts(HomePhrase);
  }
}
