/**
 * Highlighting of the navigation link for the section being read: on scroll the page
 * picks the last section whose top is at most 200px below the scroll position, then
 * marks exactly the links that point at it.
 */
module Navigation {
  import opened Wrappers

  /** A page section with an `id`, and its top offset in the document. */
  datatype Section = Section(id: string, top: int)

  /** The scroll position has reached the section, allowing 200px of lead. */
  predicate Reached(s: Section, pageY: real)
  {
    pageY >= (s.top - 200) as real
  }

  /** The id of the last reached section in document order, or "" when none is reached. */
  function LastReached(sections: seq<Section>, pageY: real): (r: string)
    ensures r != "" ==> exists i :: 0 <= i < |sections| && Reached(sections[i], pageY) && sections[i].id == r
  {
    if sections == [] then ""
    else if Reached(sections[|sections| - 1], pageY) then sections[|sections| - 1].id
    else LastReached(sections[..|sections| - 1], pageY)
  }

  /**
   * `LastReached` picks the section that is reached with no reached section after it,
   * and gives "" exactly when no section is reached.
   */
  lemma {:induction false} LastReachedChoice(sections: seq<Section>, pageY: real, i: int)
    requires 0 <= i < |sections| && Reached(sections[i], pageY)
    requires forall j :: i < j < |sections| ==> !Reached(sections[j], pageY)
    ensures LastReached(sections, pageY) == sections[i].id
  {
    if i < |sections| - 1 {
      var prefix := sections[..|sections| - 1];
      assert prefix[i] == sections[i];
      LastReachedChoice(prefix, pageY, i);
    }
  }

  lemma {:induction false} LastReachedNone(sections: seq<Section>, pageY: real)
    requires forall j :: 0 <= j < |sections| ==> !Reached(sections[j], pageY)
    ensures LastReached(sections, pageY) == ""
  {
    if sections != [] {
      LastReachedNone(sections[..|sections| - 1], pageY);
    }
  }

  /** The scroll handler's loop over the sections, keeping the id of the latest reached one. */
  method ActiveSection(sections: seq<Section>, pageY: real) returns (current: string)
    ensures current == LastReached(sections, pageY)
  {
    current := "";
    var i := 0;
    while i < |sections|
      invariant 0 <= i <= |sections|
      invariant current == LastReached(sections[..i], pageY)
    {
      assert sections[..i + 1][..i] == sections[..i];
      if Reached(sections[i], pageY) {
        current := sections[i].id;
      }
      i := i + 1;
    }
    assert sections[..|sections|] == sections;
  }

  /**
   * Marks the navigation links: a link (given by its `href`, `None` when absent) is active
   * exactly when its `href` is `#` followed by the current section's id.
   */
  method MarkLinks(hrefs: seq<Option<string>>, current: string) returns (active: seq<bool>)
    ensures |active| == |hrefs|
    ensures forall k :: 0 <= k < |hrefs| ==> (active[k] <==> hrefs[k] == Some("#" + current))
  {
    active := [];
    var i := 0;
    while i < |hrefs|
      invariant 0 <= i <= |hrefs| && |active| == i
      invariant forall k :: 0 <= k < i ==> (active[k] <==> hrefs[k] == Some("#" + current))
    {
      active := active + [hrefs[i] == Some("#" + current)];
      i := i + 1;
    }
  }
}
