# Portfolio page script: carousel index, project modal and link rules

A Dafny model of the stateful core of the portfolio site's `script.js`:

- **Unified carousel** (`Carousel.UnifiedCarousel`): the project items, their count, the
  active index (starting at the middle item), the "current / total" indicators, the
  active mark and the strip's translation. A move of one place wraps past either end to the
  other end (`Cyclic.WrapStep`: a clamp to the opposite end, not a general modulo). Moving
  as many times as there are items in one direction returns to the start (`Cyclic.WalkFullCycle`).
- **Layout arithmetic** (`Layout`): the three width bands (mobile up to 768px, tablet up to
  1024px, desktop beyond), their gap and item widths, and the translation that centres the
  active item. The translation is clamped at zero. The accumulation loop is proved equal to
  the closed form. Widths are integers and offsets are exact reals.
- **Project modal** (`Modal.ProjectModal`, `Gallery`): opening resolves the image list from
  the item's `data-images` attribute in a fixed order:
  1. the decoded JSON array;
  2. the comma split of the raw attribute;
  3. the thumbnail, with alt text defaulting to `Project`.

  Opening resets the index to 0 and sets up the metadata: the curated link list for the
  `websites` category, otherwise the single visit button. Navigation wraps like the
  carousel. Close empties the list. Escape closes the modal, and the arrow keys navigate
  only while it is shown.
- **Link rules** (`Urls`, `Text`): ECMAScript `trim`, `startsWith` and `split`. The URL rule
  trims, then prefixes `https://` unless the URL already has `http://` or `https://`. The
  rule is idempotent. It is applied to the curated list and to `data-link` alike.
- **Active navigation link** (`Navigation`): the last section whose top is at most 200px
  below the scroll position. Exactly the links whose `href` is `#` plus its id are active.

DOM reads become parameters or fields. `JSON.parse` becomes a parameter
`parse: string -> Decoded`, which returns an array of `{src, alt}` or a failure.
Whether the page has the needed elements is a constant field of each class. These are the
carousel container and strip, and the modal root, image element and category element.

In the `websites` link-list mode, script.js:463 hides the project name, and
script.js:579-585 shows it again when the item has a non-empty `data-name`. `Gallery.NextMeta`
states exactly that.

## Model

| member | source | states |
|---|---|---|
| `Text.LeadingEnd` | script.js:472 | the index where the leading whitespace ends: everything before it is whitespace and the character at it is not |
| `Text.TrailingStart` | script.js:472 | the index where the trailing whitespace starts: everything from it on is whitespace and the character before it is not |
| `Text.Trim` | script.js:511 | the result is the stretch of the input that starts where its leading whitespace ends; it has no whitespace at either end, and everything removed before and after it is whitespace |
| `Text.TrimOfTrimmed` | script.js:472 | a string with no whitespace at either end is left unchanged by trim |
| `Text.TrimIdempotent` | script.js:472 | trimming twice equals trimming once |
| `Text.TrimEmptyIff` | script.js:509 | `trim()` gives the empty string exactly when every character is whitespace |
| `Text.Split` | script.js:560 | `split(',')` yields at least one piece and no piece holds the separator |
| `Text.JoinSplit` | script.js:560 | joining the pieces with the separator gives back the original string |
| `Text.SplitWithoutSeparator` | script.js:559-562 | a string without a comma splits into exactly itself |
| `Urls.NormalizeUrl` | script.js:472-475 | the result has an `http://`/`https://` scheme and no surrounding whitespace; `https://` is prepended to the trimmed URL iff it has neither prefix |
| `Urls.NormalizeIdempotent` | script.js:511-514 | normalising a normalised URL changes nothing |
| `Urls.NormalizeFixedPoint` | script.js:472-475 | a URL is left unchanged iff it is already trimmed and has a scheme |
| `Urls.CuratedLinks` | script.js:448-475 | the rendered list has one entry per curated website, with its name, caption and normalised URL |
| `Urls.CuratedLinksVerbatim` | script.js:448-459 | the two curated URLs are already normalised, so the list links to them unchanged |
| `Urls.VisitTarget` | script.js:509-541 | the visit button is hidden iff `data-link` is absent or blank; otherwise it points at the normalised URL |
| `Cyclic.WrapStep` | script.js:122-136 | no-op for an empty list; otherwise the result is always a valid index, and equals `index + direction` when that is in range |
| `Cyclic.WrapAtEnds` | script.js:128-134 | +1 from the last index gives 0 and -1 from 0 gives the last index |
| `Cyclic.WrapStepIsMod` | script.js:616-623 | for a ±1 step from a valid index the rule is addition modulo the length |
| `Cyclic.WalkIsMod` | script.js:122-139 | k successive ±1 steps from a valid index move it by `k * direction` modulo the length |
| `Cyclic.WalkFullCycle` | script.js:122-139 | as many ±1 steps as there are entries return to the starting index |
| `Layout.BandOf` | script.js:53-68 | widths up to 768 are mobile, up to 1024 tablet, wider desktop |
| `Layout.SizingFor` | script.js:53-68 | each band's gap, inactive width and active width constants |
| `Layout.EffectiveWidth` | script.js:47 | the viewport width is used unless it reads 0, then the container's |
| `Layout.ActiveWidth` | script.js:71 | the measured active width is used unless it reads 0, then the band's nominal width |
| `Layout.Translation` | script.js:85-93 | the applied translation is the raw centring offset clamped at 0: never negative, and equal to the raw offset when that is positive |
| `Layout.ComputeTranslation` | script.js:47-94 | the loop over the items before the active one, with the band branches, computes exactly `Translation` |
| `Layout.RawOffset` | script.js:80-92 | before clamping, on mobile the shifted active item has equal margins on both sides; on tablet and desktop its centre lands on the viewport's centre |
| `Layout.WideTranslationIgnoresWidth` | script.js:86-93 | on tablet and desktop the result is `max(0, index * (itemWidth + gap) + activeWidth / 2 - 300)`; within one band the viewport width cancels out, though the band still picks the pitch and nominal width |
| `Layout.TranslationMonotone` | script.js:76-93 | a later active item never gives a smaller translation, as long as item width plus gap is non-negative |
| `Gallery.OrProject` | script.js:602 | a non-empty alt is kept and an empty one becomes `'Project'` |
| `Gallery.ThumbnailImages` | script.js:555 | one entry with the thumbnail's source and the image's alt, or `'Project'` when that is empty, when there is a thumbnail, none otherwise |
| `Gallery.Payload` | script.js:546 | the payload is empty exactly when `data-images` is absent or empty, otherwise it is the attribute's value |
| `Gallery.FallbackAlt` | script.js:561 | the comma-split entries' alt is the category label's text, or `'Project'` without a label |
| `Gallery.CommaSplitImages` | script.js:560-561 | one entry per comma-separated piece, its source the trimmed piece, all with the same alt |
| `Gallery.ResolveImages` | script.js:545-567 | the resolved list is non-empty iff the item has a non-empty `data-images` or a thumbnail |
| `Gallery.ResolvePrecedence` | script.js:546-567 | without a payload the thumbnail entry; a decoded non-empty array as is; a failed or empty decode falls to the comma split |
| `Gallery.EmptyArrayPayload` | script.js:559-562 | a payload decoding to `[]` with no comma yields one entry holding the trimmed raw payload |
| `Gallery.MalformedPayloadSources` | script.js:548-562 | a plain URL payload that fails to decode becomes the single image with that URL as source |
| `Gallery.PictureAt` | script.js:600-610 | the picture shows the entry's source and its alt, or `'Project'` when that is empty; the indicator is `index + 1` of the list length |
| `Gallery.VisitCaption` | script.js:442 | the visit caption is a non-empty `data-link-label`, else `'Visit Site'` |
| `Gallery.NextMeta` | script.js:441-586 | link-list category: curated links shown, visit hidden. Otherwise: list hidden, visit shown iff the link is non-blank, pointing at the normalised URL with its caption, else `#`. Name shown iff `data-name` is non-empty; category text updated when the label exists |
| `Modal.ProjectModal.constructor` | script.js:421-422 | the gallery starts empty at index 0 and hidden |
| `Modal.ProjectModal.UpdateImage` | script.js:593-611 | the current picture is redrawn from the list, and left as it was on an empty list or without the image element |
| `Modal.ProjectModal.UpdateNavigation` | script.js:629-641 | the previous/next controls are visible iff there is more than one image |
| `Modal.ProjectModal.Open` | script.js:424-591 | with the modal elements present: images resolved afresh, index 0, modal shown and scroll locked, picture and controls redrawn, metadata by `NextMeta`; otherwise nothing changes |
| `Modal.ProjectModal.Navigate` | script.js:613-627 | the index moves by the wrap rule and stays valid; on an empty list nothing changes |
| `Modal.ProjectModal.Close` | script.js:643-651 | with the modal root: hidden, scroll unlocked, images emptied and index 0; without it nothing changes |
| `Modal.ProjectModal.HandleKey` | script.js:676-690 | Escape closes and leaves the picture and controls as they were; ArrowLeft/ArrowRight move -1/+1 and redraw picture and controls, only while shown; any other key changes nothing |
| `Modal.ProjectModal.ClickOverlay` | script.js:660-666 | a click on the backdrop itself closes the modal (hidden, scroll unlocked, emptied, index 0); a click inside the content changes nothing |
| `Modal.BrowseFullCycle` | script.js:684-688 | pressing ArrowRight once per image on an open gallery returns to the first image |
| `Carousel.UnifiedCarousel.constructor` | script.js:2-4 | the carousel starts with no items, count 0 and index 0 |
| `Carousel.UnifiedCarousel.UpdatePosition` | script.js:32-102 | the current item is marked active and the indicator reads `index + 1` (between 1 and the count); skipped when missing or empty |
| `Carousel.UnifiedCarousel.Initialize` | script.js:13-30 | the items and their count are recorded, the total indicator shows the count, and the index starts at `floor(n/2)`, a valid index when `n > 0`; with no items the active mark and current indicator stay as they were |
| `Carousel.UnifiedCarousel.Move` | script.js:122-139 | the index moves by the wrap rule and stays valid; nothing changes when there are no items |
| `Carousel.UnifiedCarousel.ApplyLayout` | script.js:45-96 | the strip's translation becomes `Translation` of the current index, never negative |
| `Carousel.MoveFullCycle` | script.js:122-139 | as many ±1 moves as there are items return the carousel to its starting item |
| `Navigation.LastReached` | script.js:724-731 | a non-empty result is the id of a reached section |
| `Navigation.LastReachedChoice` | script.js:724-731 | the chosen id is that of a reached section with no reached section after it |
| `Navigation.LastReachedNone` | script.js:724-731 | when no section is reached the chosen id is `''` |
| `Navigation.ActiveSection` | script.js:724-731 | the scroll loop returns the id of the last reached section, `''` if none |
| `Navigation.MarkLinks` | script.js:733-738 | a link is active iff its `href` equals `#` followed by the chosen id |

## Left out

- `updateCarouselButtons` (script.js:105-120) only re-enables the carousel buttons, which are never disabled. It is not modelled.
- The two `requestAnimationFrame` hops, the debounced resize handler and `debounce` are scheduling. `Carousel.UnifiedCarousel.ApplyLayout` is the callback's body, invoked whenever the caller chooses.
- `JSON.parse` is a parameter. A payload that decodes to JSON other than an array of `{src, alt}` (a number, an object) is not modelled.
- Only the modal root, modal image, modal category, carousel container and strip may be missing. The other elements are assumed present: indicators, buttons, name element, link list, visit caption.
- Without the link-list element, the source would fail on a null element (script.js:506). This is not modelled.
- HTML building with `innerHTML`, `window.open` and event-propagation stopping for links are browser effects. They are not modelled.
- Offsets are exact reals rather than IEEE doubles. Strings are sequences of Unicode scalar values, not UTF-16 code units.
- `Modal.ProjectModal.HandleKey` is stated with the modal root present whenever the modal is shown. Only `Open` shows the modal, and it requires the root, so the source's extra root check adds nothing.
- Reveal animations, hero roles, skill icons, the intro page, smooth scrolling, the contact form, mouse tracking, the burger menu and the expandable boxes are browser effects and timers. They are outside this model.
