/** Layout of the experience timeline (`ExperienceTimeline`): its scroll
    length and, for a given scroll offset, each entry's vertical
    position inside the 420 px sticky viewport and its opacity.

    Entries sit 200 px apart below a 60 px top padding and move up by
    the offset. An entry fades in over the top 40 px of the viewport and
    fades out over the 60 px above the point where its 120 px card
    would leave the bottom; an entry beyond one card height outside the
    viewport is hidden outright. */
module TimelineLayout {
  import opened Common

  const ContainerH: real := 420.0
  const ItemSpacing: int := 200
  const TopPadding: int := 60
  const CardHeight: real := 120.0
  const TopFadeZone: real := 40.0
  const BottomFadeZone: real := 60.0
  /** `containerH - bottomFadeZone - cardHeight`: 240 px. */
  const BottomFadeStart: real := ContainerH - BottomFadeZone - CardHeight

  /** The four entries the page shows. */
  const ShownItems: nat := 4

  /** `scrollLength`: how far the section scrolls while its viewport is
      stuck, `(items.length - 1) * itemSpacing + topPadding`. */
  function ScrollLength(itemCount: nat): (len: int)
    ensures len != 0
    ensures itemCount >= 1 ==> len >= TopPadding
    ensures itemCount >= 1 ==> len - TopPadding == ItemSpacing * (itemCount - 1)
  {
    (itemCount - 1) * ItemSpacing + TopPadding
  }

  /** The translation `y` of entry `idx` at scroll offset `offset`. */
  function ItemY(idx: nat, offset: real): (y: real)
    ensures y + offset == (TopPadding + ItemSpacing * idx) as real
  {
    TopPadding as real + (idx * ItemSpacing) as real - offset
  }

  /** The opacity of an entry translated by `y`: the three `if`s of the
      render loop, in order, on the local `opacity`. */
  function Opacity(y: real): (o: real)
    ensures 0.0 <= o <= 1.0
    ensures 40.0 <= y <= 240.0 ==> o == 1.0
    ensures y < -120.0 || y > 540.0 ==> o == 0.0
  {
    var opacity := 1.0;
    var opacity := if y < TopFadeZone then Max(0.0, y / TopFadeZone) else opacity;
    var opacity :=
      if y > BottomFadeStart then Max(0.0, (ContainerH - CardHeight - y) / BottomFadeZone)
      else opacity;
    if y < -CardHeight || y > ContainerH + CardHeight then 0.0 else opacity
  }

  /** The opacity in closed form: a ramp from 0 at y = 0 up to 1 at
      y = 40, full up to y = 240, and a ramp down to 0 at y = 300; zero
      everywhere else, so the off-screen cutoff never changes the value. */
  lemma OpacityShape(y: real)
    ensures y <= 0.0 ==> Opacity(y) == 0.0
    ensures 0.0 <= y <= 40.0 ==> Opacity(y) == y / 40.0
    ensures 240.0 <= y <= 300.0 ==> Opacity(y) == (300.0 - y) / 60.0
    ensures y >= 300.0 ==> Opacity(y) == 0.0
    ensures 0.0 < y < 300.0 <==> Opacity(y) > 0.0
  {
  }

  /** The top and bottom fades join the fully visible band without a
      step: at y = 40 and y = 240 the opacity is 1, and it is what the
      top fade formula gives at 40 and the bottom fade formula at 240. */
  lemma FadesMeetAtOne()
    ensures Opacity(TopFadeZone) == 1.0 == TopFadeZone / TopFadeZone
    ensures Opacity(BottomFadeStart) == 1.0
         == (ContainerH - CardHeight - BottomFadeStart) / BottomFadeZone
    ensures forall y :: 0.0 <= y < TopFadeZone ==> Opacity(y) == y / TopFadeZone
    ensures forall y :: BottomFadeStart < y <= 300.0 ==>
              Opacity(y) == (ContainerH - CardHeight - y) / BottomFadeZone
  {
  }

  /** Opacity is continuous in the position: moving an entry by `d` px
      changes its opacity by at most `d / 40`. */
  lemma OpacityContinuous(a: real, b: real)
    requires a <= b
    ensures -(b - a) / 40.0 <= Opacity(b) - Opacity(a) <= (b - a) / 40.0
  {
    OpacityShape(a);
    OpacityShape(b);
  }

  /** For a fixed offset, entries are in chronological order down the
      line, exactly 200 px apart. */
  lemma ItemsOrdered(i: nat, j: nat, offset: real)
    requires i < j
    ensures ItemY(i, offset) < ItemY(j, offset)
    ensures ItemY(j, offset) - ItemY(i, offset) == (ItemSpacing * (j - i)) as real
  {
  }

  /** The visible band (0, 300) is shorter than two spacings, so at any
      offset at most two entries, and only adjacent ones, are visible. */
  lemma AtMostTwoVisible(i: nat, j: nat, offset: real)
    requires i < j
    requires Opacity(ItemY(i, offset)) > 0.0 && Opacity(ItemY(j, offset)) > 0.0
    ensures j == i + 1
  {
    OpacityShape(ItemY(i, offset));
    OpacityShape(ItemY(j, offset));
    ItemsOrdered(i, j, offset);
  }

  /** Every entry is fully visible at some offset within the scroll
      range: at offset `200 * idx` it sits 60 px below the top. */
  lemma EachItemShownInFull(itemCount: nat, idx: nat)
    requires idx < itemCount
    ensures 0 <= ItemSpacing * idx <= ScrollLength(itemCount)
    ensures Opacity(ItemY(idx, (ItemSpacing * idx) as real)) == 1.0
  {
  }

  /** At the end of the scroll range (offset = scroll length) the last
      entry has risen to y = 0 and every entry has opacity 0: the sticky
      viewport is empty when it is released. */
  lemma FullProgressHidesAll(itemCount: nat, idx: nat)
    requires idx < itemCount
    ensures ItemY(itemCount - 1, ScrollLength(itemCount) as real) == 0.0
    ensures Opacity(ItemY(idx, ScrollLength(itemCount) as real)) == 0.0
  {
    if idx < itemCount - 1 {
      ItemsOrdered(idx, itemCount - 1, ScrollLength(itemCount) as real);
    }
  }

  /** The page's four entries scroll through 660 px. At rest the first
      entry is fully visible and the second two-thirds faded in. */
  lemma ShownItemsLayout()
    ensures ScrollLength(ShownItems) == 660
    ensures Opacity(ItemY(0, 0.0)) == 1.0
    ensures Opacity(ItemY(1, 0.0)) == 2.0 / 3.0
    ensures Opacity(ItemY(2, 0.0)) == 0.0 && Opacity(ItemY(3, 0.0)) == 0.0
  {
  }
}
