/**
 * The arithmetic of the carousel's layout callback: which sizing constants apply at a
 * given width, how far the strip is translated to bring the active item into view, and
 * the loop that accumulates the widths of the items before it. Widths are integers and
 * offsets exact reals.
 */
module Layout {

  /** The three responsive bands of the layout. */
  datatype Band = Mobile | Tablet | Desktop

  const MobileMax: int := 768
  const TabletMax: int := 1024

  /** Width at most 768 is mobile, at most 1024 tablet, anything wider desktop. */
  function BandOf(width: int): (b: Band)
    ensures b == Mobile <==> width <= MobileMax
    ensures b == Tablet <==> MobileMax < width <= TabletMax
    ensures b == Desktop <==> TabletMax < width
  {
    if width <= MobileMax then Mobile else if width <= TabletMax then Tablet else Desktop
  }

  /** Gap between items and the nominal widths of an inactive and of the active item. */
  datatype Sizing = Sizing(gap: int, nonActiveWidth: int, activeWidth: int)

  /** Mobile items fill the width less 40px of padding; tablet and desktop use fixed widths. */
  function SizingFor(width: int): (s: Sizing)
    ensures BandOf(width) == Mobile ==> s == Sizing(15, width - 40, width - 40)
    ensures BandOf(width) == Tablet ==> s == Sizing(20, 280, 500)
    ensures BandOf(width) == Desktop ==> s == Sizing(30, 300, 600)
  {
    match BandOf(width)
    case Mobile => Sizing(15, width - 40, width - 40)
    case Tablet => Sizing(20, 280, 500)
    case Desktop => Sizing(30, 300, 600)
  }

  /** The width the layout works with: the viewport's, or the container's when that reads 0. */
  function EffectiveWidth(viewportWidth: int, containerWidth: int): (w: int)
    ensures viewportWidth != 0 ==> w == viewportWidth
    ensures viewportWidth == 0 ==> w == containerWidth
  {
    if viewportWidth != 0 then viewportWidth else containerWidth
  }

  /** The active item's width: its measured width, or the nominal one when it measures 0. */
  function ActiveWidth(width: int, measuredActiveWidth: int): (a: int)
    ensures measuredActiveWidth != 0 ==> a == measuredActiveWidth
    ensures measuredActiveWidth == 0 ==> a == SizingFor(width).activeWidth
  {
    if measuredActiveWidth != 0 then measuredActiveWidth else SizingFor(width).activeWidth
  }

  /** Space taken by one inactive item and the gap after it. */
  function Pitch(width: int): int
  {
    SizingFor(width).nonActiveWidth + SizingFor(width).gap
  }

  /**
   * The translation before clamping. On mobile the active item's left edge (after 20px of
   * padding) is moved so that the margins left and right of the item are equal; on tablet
   * and desktop the strip starts at `width / 2 - 300` and the active item's centre is moved
   * to the viewport's centre.
   */
  function RawOffset(index: nat, width: int, measuredActiveWidth: int): (r: real)
    ensures var left := (index * Pitch(width)) as real + 20.0;
            var aw := ActiveWidth(width, measuredActiveWidth) as real;
            width <= MobileMax ==> left - r == width as real - (left - r + aw)
    ensures var left := (index * Pitch(width)) as real + width as real / 2.0 - 300.0;
            var aw := ActiveWidth(width, measuredActiveWidth) as real;
            width > MobileMax ==> left + aw / 2.0 - r == width as real / 2.0
  {
    var before := (index * Pitch(width)) as real;
    var aw := ActiveWidth(width, measuredActiveWidth) as real;
    if width <= MobileMax then
      before + 20.0 - (width as real - aw) / 2.0
    else
      var padding := width as real / 2.0 - 300.0;
      (before + padding + aw / 2.0) - width as real / 2.0
  }

  /** The applied translation: the raw offset clamped at zero, so the strip never moves right. */
  function Translation(index: nat, width: int, measuredActiveWidth: int): (r: real)
    ensures r >= 0.0 && r >= RawOffset(index, width, measuredActiveWidth)
    ensures r == 0.0 || r == RawOffset(index, width, measuredActiveWidth)
  {
    var raw := RawOffset(index, width, measuredActiveWidth);
    if raw > 0.0 then raw else 0.0
  }

  /**
   * The layout callback's arithmetic: the loop adds one pitch per item before the active
   * one, then the band decides the final translation.
   */
  method ComputeTranslation(index: nat, viewportWidth: int, containerWidth: int,
                            measuredActiveWidth: int) returns (t: real)
    ensures t == Translation(index, EffectiveWidth(viewportWidth, containerWidth), measuredActiveWidth)
  {
    var width := EffectiveWidth(viewportWidth, containerWidth);
    var sizing := SizingFor(width);
    var activeWidth := if measuredActiveWidth != 0 then measuredActiveWidth else sizing.activeWidth;
    var offset: real := 0.0;
    var i := 0;
    while i < index
      invariant 0 <= i <= index
      invariant offset == (i * (sizing.nonActiveWidth + sizing.gap)) as real
    {
      offset := offset + (sizing.nonActiveWidth + sizing.gap) as real;
      i := i + 1;
    }
    var finalOffset: real;
    if width <= 768 {
      var slidePadding := 20.0;
      offset := (index * (sizing.nonActiveWidth + sizing.gap)) as real + slidePadding;
      finalOffset := offset - (width as real - activeWidth as real) / 2.0;
    } else {
      var slidePadding := width as real / 2.0 - 300.0;
      offset := offset + slidePadding;
      var activeItemCenter := offset + activeWidth as real / 2.0;
      var viewportCenter := width as real / 2.0;
      finalOffset := activeItemCenter - viewportCenter;
    }
    t := if finalOffset > 0.0 then finalOffset else 0.0;
  }

  /**
   * On tablet and desktop the viewport width cancels out of the centring: within one band
   * the translation depends only on the index and the active item's width (the band still
   * decides the pitch and the nominal active width).
   */
  lemma WideTranslationIgnoresWidth(index: nat, width: int, measuredActiveWidth: int)
    requires width > MobileMax
    ensures var raw := (index * Pitch(width)) as real + ActiveWidth(width, measuredActiveWidth) as real / 2.0 - 300.0;
            Translation(index, width, measuredActiveWidth) == if raw > 0.0 then raw else 0.0
  {
  }

  /** `m * p <= n * p` for `m <= n` and a non-negative pitch `p`. */
  lemma {:induction false} ScaleMonotone(m: nat, n: nat, p: int)
    requires m <= n && p >= 0
    ensures m * p <= n * p
  {
    if m < n {
      ScaleMonotone(m, n - 1, p);
      assert n * p == (n - 1) * p + p;
    }
  }

  /**
   * Moving the active item further along never moves the strip back, as long as an item
   * and its gap take non-negative space (always on tablet and desktop, from 25px on mobile).
   */
  lemma TranslationMonotone(i: nat, j: nat, width: int, measuredActiveWidth: int)
    requires i <= j && Pitch(width) >= 0
    ensures Translation(i, width, measuredActiveWidth) <= Translation(j, width, measuredActiveWidth)
  {
    ScaleMonotone(i, j, Pitch(width));
  }
}
