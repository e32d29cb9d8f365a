/**
 * What the project modal shows for a clicked carousel item: the image list it resolves
 * from the item's attributes, the picture and position indicator for one image, and the
 * project metadata (category, name, the visit button or the curated list of links).
 */
module Gallery {
  import opened Wrappers
  import opened Text
  import opened Urls

  /** One gallery image; an empty `alt` stands for a missing one. */
  datatype Image = Image(src: string, alt: string)

  /** The item's thumbnail `<img>`: its `src` and its `alt` (empty when absent). */
  datatype Thumbnail = Thumbnail(src: string, alt: string)

  /** The attributes and parts of a carousel item the modal reads; `None` is an absent one. */
  datatype Item = Item(
    thumbnail: Option<Thumbnail>,   // the item's <img>
    categoryLabel: Option<string>,  // text of its .project-category-label
    name: Option<string>,           // data-name
    category: Option<string>,       // data-category
    link: Option<string>,           // data-link
    linkLabel: Option<string>,      // data-link-label
    imagesData: Option<string>)     // data-images

  /** The outcome of decoding a `data-images` payload as a JSON array of `{src, alt}`. */
  datatype Decoded = Parsed(images: seq<Image>) | Malformed

  /** `text || 'Project'`: the default alt text for an empty one. */
  function OrProject(text: string): (r: string)
    ensures r != ""
    ensures text != "" ==> r == text
    ensures text == "" ==> r == "Project"
  {
    if text != "" then text else "Project"
  }

  /** The `data-images` payload, with an absent attribute read as the (falsy) empty string. */
  function Payload(item: Item): (r: string)
    ensures r == "" <==> item.imagesData.None? || item.imagesData.value == ""
    ensures item.imagesData.Some? ==> r == item.imagesData.value
  {
    item.imagesData.GetOr("")
  }

  /** The single entry built from the thumbnail, or nothing without one. */
  function ThumbnailImages(thumbnail: Option<Thumbnail>): (r: seq<Image>)
    ensures |r| <= 1
    ensures r != [] <==> thumbnail.Some?
    ensures r != [] ==> r[0].src == thumbnail.value.src && r[0].alt == OrProject(thumbnail.value.alt)
  {
    match thumbnail
    case None => []
    case Some(t) => [Image(t.src, OrProject(t.alt))]
  }

  /** The comma-separated fallback: one entry per piece, trimmed, all sharing `alt`. */
  function CommaSplitImages(data: string, alt: string): (r: seq<Image>)
    ensures |r| == |Split(data, ',')| >= 1
    ensures forall i :: 0 <= i < |r| ==> r[i] == Image(Trim(Split(data, ',')[i]), alt)
  {
    var urls := Split(data, ',');
    seq(|urls|, i requires 0 <= i < |urls| => Image(Trim(urls[i]), alt))
  }

  /** Alt text shared by the comma-separated entries: the category label, else 'Project'. */
  function FallbackAlt(item: Item): (r: string)
    ensures item.categoryLabel.Some? ==> r == item.categoryLabel.value
    ensures item.categoryLabel.None? ==> r == "Project"
  {
    item.categoryLabel.GetOr("Project")
  }

  /**
   * The image list for the modal: the decoded payload; when decoding fails or yields no
   * image, the comma-split payload; with no payload at all, the thumbnail entry. The source's
   * last resort for an empty list, the thumbnail entry again, never changes the result:
   * without a payload the thumbnail tier already applied, and the comma split always
   * yields at least one entry.
   */
  function ResolveImages(item: Item, parse: string -> Decoded): (r: seq<Image>)
    ensures r != [] <==> Payload(item) != "" || item.thumbnail.Some?
  {
    var data := Payload(item);
    var first :=
      if data != "" then
        (match parse(data)
         case Parsed(images) => images
         case Malformed => [])
      else ThumbnailImages(item.thumbnail);
    var second := if |first| == 0 && data != "" then CommaSplitImages(data, FallbackAlt(item)) else first;
    if |second| == 0 && item.thumbnail.Some? then ThumbnailImages(item.thumbnail) else second
  }

  /** The precedence of the three sources of images, one case per tier. */
  lemma ResolvePrecedence(item: Item, parse: string -> Decoded)
    ensures Payload(item) == "" ==> ResolveImages(item, parse) == ThumbnailImages(item.thumbnail)
    ensures Payload(item) != "" && parse(Payload(item)).Parsed? && parse(Payload(item)).images != [] ==>
              ResolveImages(item, parse) == parse(Payload(item)).images
    ensures Payload(item) != "" && (parse(Payload(item)).Malformed? || parse(Payload(item)) == Parsed([])) ==>
              ResolveImages(item, parse) == CommaSplitImages(Payload(item), FallbackAlt(item))
  {
  }

  /**
   * A payload that decodes to an empty array falls to the comma split; without a comma
   * that is one entry whose source is the whole payload, trimmed.
   */
  lemma EmptyArrayPayload(item: Item, parse: string -> Decoded)
    requires Payload(item) != "" && parse(Payload(item)) == Parsed([])
    requires ',' !in Payload(item)
    ensures ResolveImages(item, parse) == [Image(Trim(Payload(item)), FallbackAlt(item))]
  {
    SplitWithoutSeparator(Payload(item), ',');
  }

  /**
   * A plain URL in `data-images` (no JSON, no comma, no surrounding whitespace) fails to
   * decode and becomes the only image, with that URL as its source.
   */
  lemma MalformedPayloadSources(item: Item, parse: string -> Decoded)
    requires Payload(item) != "" && parse(Payload(item)).Malformed?
    requires ',' !in Payload(item) && Trimmed(Payload(item))
    ensures |ResolveImages(item, parse)| == 1
    ensures ResolveImages(item, parse)[0].src == Payload(item)
  {
    var data := Payload(item);
    ResolvePrecedence(item, parse);
    SplitWithoutSeparator(data, ',');
    TrimOfTrimmed(data);
    assert CommaSplitImages(data, FallbackAlt(item))[0].src == Trim(data);
  }

  /** What the modal shows for one image: source, alt text, 1-based position and total. */
  datatype Picture = Picture(src: string, alt: string, position: int, total: int)

  /** The picture for entry `index`; the indicator reads `index + 1` of the list length. */
  function PictureAt(images: seq<Image>, index: int): (p: Picture)
    requires 0 <= index < |images|
    ensures 1 <= p.position <= p.total == |images|
    ensures p.position == index + 1
    ensures p.src == images[index].src
    ensures p.alt == OrProject(images[index].alt)
  {
    Picture(images[index].src, OrProject(images[index].alt), index + 1, |images|)
  }

  /** The modal's metadata elements as the page shows them. */
  datatype MetaView = MetaView(
    categoryText: string,
    nameShown: bool,
    nameText: string,
    visitShown: bool,
    visitHref: string,
    visitText: string,
    linksShown: bool,
    links: seq<LinkEntry>)

  /** The visit button's caption: the `data-link-label` attribute, else 'Visit Site'. */
  function VisitCaption(item: Item): (r: string)
    ensures r != ""
    ensures item.linkLabel.Some? && item.linkLabel.value != "" ==> r == item.linkLabel.value
    ensures item.linkLabel.None? || item.linkLabel.value == "" ==> r == "Visit Site"
  {
    match item.linkLabel
    case Some(l) => if l != "" then l else "Visit Site"
    case None => "Visit Site"
  }

  /** True when the item carries a non-empty `data-name`. */
  predicate HasName(item: Item)
  {
    item.name.Some? && item.name.value != ""
  }

  /**
   * The metadata after opening the modal on `item`, starting from what was shown before.
   * The link-list category shows the curated links and hides the visit button; any other
   * category hides the list and shows the visit button exactly when the item has a
   * non-blank link, pointing at the normalised URL. The name is shown whenever the item
   * has one, in both cases.
   */
  function NextMeta(m: MetaView, item: Item): (r: MetaView)
    ensures item.category == Some(LinkListCategory) ==>
              r.linksShown && r.links == CuratedLinks() && !r.visitShown
    ensures item.category != Some(LinkListCategory) ==>
              !r.linksShown && r.links == m.links &&
              (r.visitShown <==> item.link.Some? && !AllWhitespace(item.link.value)) &&
              (r.visitShown ==> r.visitHref == NormalizeUrl(item.link.value) && HasScheme(r.visitHref)
                                && r.visitText == VisitCaption(item)) &&
              (!r.visitShown ==> r.visitHref == "#")
    ensures r.nameShown <==> HasName(item)
    ensures HasName(item) ==> r.nameText == item.name.value
    ensures r.categoryText == item.categoryLabel.GetOr(m.categoryText)
  {
    var withLinks :=
      if item.category == Some(LinkListCategory) then
        if |Websites| > 0 then
          m.(nameShown := false, visitShown := false, linksShown := true, links := CuratedLinks())
        else
          m.(linksShown := false)
      else
        var hidden := m.(linksShown := false);
        match VisitTarget(item.link)
        case Some(url) => hidden.(visitHref := url, visitShown := true, visitText := VisitCaption(item))
        case None => hidden.(visitShown := false, visitHref := "#");
    var withCategory :=
      match item.categoryLabel
      case Some(text) => withLinks.(categoryText := text)
      case None => withLinks;
    if HasName(item) then withCategory.(nameText := item.name.value, nameShown := true)
    else withCategory.(nameShown := false)
  }
}
