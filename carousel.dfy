/**
 * The unified project carousel: the list of project items, its length, the index of the
 * active item, the "current / total" indicators, which item carries the active mark and
 * the strip's translation. Moves of one place wrap to the other end.
 */
module Carousel {
  import opened Wrappers
  import opened Cyclic
  import opened Layout
  import opened Gallery

  class UnifiedCarousel {
    /** Whether the page has the carousel container and its slide strip. */
    const hasElements: bool

    var projectItems: seq<Item>
    var totalProjects: nat
    var currentProjectIndex: int
    var totalIndicator: int
    var currentIndicator: int
    var activeItem: Option<int>
    var translation: real

    /** The count matches the items; the index addresses one of them, or is 0 when there are none. */
    ghost predicate Valid()
      reads this
    {
      totalProjects == |projectItems| &&
      (totalProjects == 0 ==> currentProjectIndex == 0) &&
      (totalProjects > 0 ==> hasElements && 0 <= currentProjectIndex < totalProjects)
    }

    constructor (hasElements: bool)
      ensures Valid() && this.hasElements == hasElements
      ensures projectItems == [] && totalProjects == 0 && currentProjectIndex == 0
      ensures activeItem == None && translation == 0.0
    {
      this.hasElements := hasElements;
      projectItems, totalProjects, currentProjectIndex := [], 0, 0;
      totalIndicator, currentIndicator := 0, 0;
      activeItem := None;
      translation := 0.0;
    }

    /**
     * Marks the current item active and shows its 1-based position; skipped while the
     * carousel is missing or empty.
     */
    method UpdatePosition()
      requires Valid()
      modifies this`activeItem, this`currentIndicator
      ensures hasElements && projectItems != [] ==>
                activeItem == Some(currentProjectIndex) && currentIndicator == currentProjectIndex + 1 &&
                1 <= currentIndicator <= totalProjects
      ensures !(hasElements && projectItems != []) ==> unchanged(this)
    {
      if !hasElements || |projectItems| == 0 {
        return;
      }
      activeItem := if 0 <= currentProjectIndex < |projectItems| then Some(currentProjectIndex) else None;
      currentIndicator := currentProjectIndex + 1;
    }

    /**
     * Collects the items, shows their count and starts at the middle item; nothing happens
     * without the carousel elements.
     */
    method Initialize(items: seq<Item>)
      requires Valid()
      modifies this
      ensures Valid()
      ensures !hasElements ==> unchanged(this)
      ensures hasElements ==>
                projectItems == items && totalProjects == |items| && totalIndicator == |items| &&
                currentProjectIndex == |items| / 2 && translation == old(translation)
      ensures hasElements && items == [] ==>
                activeItem == old(activeItem) && currentIndicator == old(currentIndicator)
      ensures hasElements && items != [] ==>
                0 <= currentProjectIndex < |items| &&
                activeItem == Some(currentProjectIndex) && currentIndicator == currentProjectIndex + 1
    {
      if !hasElements {
        return;
      }
      projectItems := items;
      totalProjects := |items|;
      totalIndicator := totalProjects;
      currentProjectIndex := totalProjects / 2;
      UpdatePosition();
    }

    /**
     * Moves `direction` places, wrapping past either end to the other one, and redraws;
     * does nothing on an empty carousel.
     */
    method Move(direction: int)
      requires Valid()
      modifies this`currentProjectIndex, this`activeItem, this`currentIndicator
      ensures Valid()
      ensures currentProjectIndex == WrapStep(old(currentProjectIndex), direction, totalProjects)
      ensures totalProjects == 0 ==> unchanged(this)
      ensures totalProjects > 0 ==>
                activeItem == Some(currentProjectIndex) && currentIndicator == currentProjectIndex + 1
    {
      if totalProjects == 0 {
        return;
      }
      currentProjectIndex := WrapStep(currentProjectIndex, direction, totalProjects);
      UpdatePosition();
    }

    /**
     * The layout callback: translates the strip to bring the active item into view, from
     * the viewport width (or the container's, when the viewport reads 0) and the active
     * item's measured width (or the nominal one, when it measures 0).
     */
    method ApplyLayout(viewportWidth: int, containerWidth: int, measuredActiveWidth: int)
      requires Valid()
      modifies this`translation
      ensures projectItems != [] ==>
                translation == Translation(currentProjectIndex, EffectiveWidth(viewportWidth, containerWidth),
                                           measuredActiveWidth) &&
                translation >= 0.0
      ensures projectItems == [] ==> unchanged(this)
    {
      if !hasElements || |projectItems| == 0 {
        return;
      }
      if !(0 <= currentProjectIndex < |projectItems|) {
        return;
      }
      translation := ComputeTranslation(currentProjectIndex, viewportWidth, containerWidth, measuredActiveWidth);
    }
  }

  /**
   * A client of the carousel: as many moves in one direction as there are items bring
   * the carousel back to the item it started on.
   */
  method MoveFullCycle(c: UnifiedCarousel, direction: int)
    requires c.Valid() && c.totalProjects > 0
    requires direction == 1 || direction == -1
    modifies c
    ensures c.Valid() && c.currentProjectIndex == old(c.currentProjectIndex)
  {
    ghost var start := c.currentProjectIndex;
    var k := 0;
    while k < c.totalProjects
      invariant c.Valid() && c.totalProjects == old(c.totalProjects)
      invariant 0 <= k <= c.totalProjects
      invariant c.currentProjectIndex == Walk(start, direction, c.totalProjects, k)
    {
      c.Move(direction);
      k := k + 1;
    }
    WalkFullCycle(start, direction, c.totalProjects);
  }
}
