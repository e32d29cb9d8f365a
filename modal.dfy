/**
 * The project modal as page state: the image list and index of the open gallery, whether
 * the modal is shown and the page scroll locked, and what its elements display. Opening,
 * navigating, closing and the keyboard and backdrop bindings update that state in place.
 */
module Modal {
  import opened Cyclic
  import opened Gallery

  class ProjectModal {
    /** Whether the page has the modal root, its image element and its category element. */
    const hasRoot: bool
    const hasImage: bool
    const hasCategory: bool

    var images: seq<Image>
    var index: int
    var shown: bool
    var scrollLocked: bool
    var picture: Picture
    var navVisible: bool
    var meta: MetaView

    /** The index addresses an image, or is 0 when there is none; only a present root is shown. */
    ghost predicate Valid()
      reads this
    {
      (images == [] ==> index == 0) &&
      (images != [] ==> 0 <= index < |images|) &&
      (shown ==> hasRoot)
    }

    constructor (hasRoot: bool, hasImage: bool, hasCategory: bool)
      ensures Valid()
      ensures this.hasRoot == hasRoot && this.hasImage == hasImage && this.hasCategory == hasCategory
      ensures images == [] && index == 0 && !shown && !scrollLocked && !navVisible
    {
      this.hasRoot, this.hasImage, this.hasCategory := hasRoot, hasImage, hasCategory;
      images, index := [], 0;
      shown, scrollLocked := false, false;
      picture := Picture("", "", 0, 0);
      navVisible := false;
      meta := MetaView("", false, "", false, "#", "", false, []);
    }

    /** Shows the current image and its position; skipped without an image element or images. */
    method UpdateImage()
      requires Valid()
      modifies this`picture
      ensures hasImage && images != [] ==> picture == PictureAt(images, index)
      ensures !(hasImage && images != []) ==> picture == old(picture)
    {
      if !hasImage || |images| == 0 {
        return;
      }
      picture := PictureAt(images, index);
    }

    /** The previous and next controls are visible exactly when there is more than one image. */
    method UpdateNavigation()
      modifies this`navVisible
      ensures navVisible <==> |images| > 1
    {
      navVisible := |images| > 1;
    }

    /**
     * Opens the modal on `item`; `parse` decodes the `data-images` payload. Without the root,
     * image or category element nothing happens. Otherwise the images are re-resolved (any
     * earlier gallery is replaced), the index restarts at 0, and the modal is shown.
     */
    method Open(item: Item, parse: string -> Decoded)
      requires Valid()
      modifies this
      ensures Valid()
      ensures !(hasRoot && hasImage && hasCategory) ==>
                images == old(images) && index == old(index) && shown == old(shown) &&
                scrollLocked == old(scrollLocked) && picture == old(picture) &&
                navVisible == old(navVisible) && meta == old(meta)
      ensures hasRoot && hasImage && hasCategory ==>
                images == ResolveImages(item, parse) && index == 0 && shown && scrollLocked &&
                (images != [] ==> picture == PictureAt(images, 0)) &&
                (images == [] ==> picture == old(picture)) &&
                (navVisible <==> |images| > 1) &&
                meta == NextMeta(old(meta), item)
    {
      if !hasRoot || !hasImage || !hasCategory {
        return;
      }
      meta := NextMeta(meta, item);
      images := ResolveImages(item, parse);
      index := 0;
      UpdateImage();
      UpdateNavigation();
      shown := true;
      scrollLocked := true;
    }

    /**
     * Moves `direction` places with wrap-around and redraws; does nothing on an empty list.
     */
    method Navigate(direction: int)
      requires Valid()
      modifies this`index, this`picture, this`navVisible
      ensures Valid()
      ensures index == WrapStep(old(index), direction, |images|)
      ensures images == [] ==> picture == old(picture) && navVisible == old(navVisible)
      ensures images != [] ==> (hasImage ==> picture == PictureAt(images, index)) &&
                               (!hasImage ==> picture == old(picture)) &&
                               (navVisible <==> |images| > 1)
    {
      if |images| == 0 {
        return;
      }
      index := WrapStep(index, direction, |images|);
      UpdateImage();
      UpdateNavigation();
    }

    /**
     * Hides the modal, unlocks the page scroll, empties the gallery and resets the index;
     * without the modal root nothing changes. The displayed picture and controls are left
     * as they were.
     */
    method Close()
      requires Valid()
      modifies this`shown, this`scrollLocked, this`images, this`index
      ensures Valid()
      ensures hasRoot ==> !shown && !scrollLocked && images == [] && index == 0
      ensures !hasRoot ==> unchanged(this)
    {
      if hasRoot {
        shown := false;
        scrollLocked := false;
        images := [];
        index := 0;
      }
    }

    /** Escape closes; ArrowLeft and ArrowRight step back and forth while the modal is shown. */
    method HandleKey(key: string)
      requires Valid()
      modifies this`shown, this`scrollLocked, this`images, this`index, this`picture, this`navVisible
      ensures Valid()
      ensures key == "Escape" && hasRoot ==> !shown && !scrollLocked && images == [] && index == 0
      ensures key == "Escape" ==> picture == old(picture) && navVisible == old(navVisible)
      ensures key == "ArrowLeft" && old(shown) ==>
                images == old(images) && index == WrapStep(old(index), -1, |images|)
      ensures key == "ArrowRight" && old(shown) ==>
                images == old(images) && index == WrapStep(old(index), 1, |images|)
      ensures (key == "ArrowLeft" || key == "ArrowRight") && old(shown) ==>
                (images == [] ==> picture == old(picture) && navVisible == old(navVisible)) &&
                (images != [] ==> (hasImage ==> picture == PictureAt(images, index)) &&
                                  (!hasImage ==> picture == old(picture)) &&
                                  (navVisible <==> |images| > 1))
      ensures key != "Escape" ==> shown == old(shown) && scrollLocked == old(scrollLocked) &&
                                  images == old(images)
      ensures key != "Escape" && key != "ArrowLeft" && key != "ArrowRight" ==> unchanged(this)
      ensures (key == "ArrowLeft" || key == "ArrowRight") && !old(shown) ==> unchanged(this)
      ensures key == "Escape" && !hasRoot ==> unchanged(this)
    {
      if key == "Escape" {
        Close();
      } else if key == "ArrowLeft" {
        if hasRoot && shown {
          Navigate(-1);
        }
      } else if key == "ArrowRight" {
        if hasRoot && shown {
          Navigate(1);
        }
      }
    }

    /** A click on the backdrop itself closes the modal; a click inside its content does not. */
    method ClickOverlay(onBackdrop: bool)
      requires Valid()
      modifies this`shown, this`scrollLocked, this`images, this`index
      ensures Valid()
      ensures onBackdrop && hasRoot ==> !shown && !scrollLocked && images == [] && index == 0
      ensures !(onBackdrop && hasRoot) ==> unchanged(this)
    {
      if onBackdrop {
        Close();
      }
    }
  }

  /**
   * A client of the modal: pressing ArrowRight once per image on an open gallery brings the
   * modal back to the first image.
   */
  method BrowseFullCycle(m: ProjectModal)
    requires m.Valid() && m.shown && m.images != [] && m.index == 0
    modifies m
    ensures m.Valid() && m.shown && m.images == old(m.images) && m.index == 0
  {
    var k := 0;
    while k < |m.images|
      invariant m.Valid() && m.shown && m.images == old(m.images)
      invariant 0 <= k <= |m.images|
      invariant m.index == Walk(0, 1, |m.images|, k)
    {
      m.HandleKey("ArrowRight");
      k := k + 1;
    }
    WalkFullCycle(0, 1, |m.images|);
  }
}
