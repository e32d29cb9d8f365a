/**
 * External links shown by the project modal: the protocol rule applied to every URL,
 * the curated list of the "websites" category and the rule for the single visit button.
 */
module Urls {
  import opened Wrappers
  import opened Text

  const Http: string := "http://"
  const Https: string := "https://"

  predicate HasScheme(u: string)
  {
    StartsWith(u, Http) || StartsWith(u, Https)
  }

  /**
   * Trims the URL, then prefixes `https://` unless it already starts with
   * `http://` or `https://`.
   */
  function NormalizeUrl(url: string): (r: string)
    ensures HasScheme(r) && Trimmed(r)
    ensures HasScheme(Trim(url)) ==> r == Trim(url)
    ensures !HasScheme(Trim(url)) ==> r == Https + Trim(url)
  {
    var u := Trim(url);
    if StartsWith(u, Http) || StartsWith(u, Https) then u else Https + u
  }

  /** Normalising twice is the same as normalising once. */
  lemma NormalizeIdempotent(url: string)
    ensures NormalizeUrl(NormalizeUrl(url)) == NormalizeUrl(url)
  {
    TrimOfTrimmed(NormalizeUrl(url));
  }

  /** The URLs left unchanged are exactly the trimmed ones that already carry a scheme. */
  lemma NormalizeFixedPoint(url: string)
    ensures NormalizeUrl(url) == url <==> Trimmed(url) && HasScheme(url)
  {
    if Trimmed(url) {
      TrimOfTrimmed(url);
    }
  }

  /** One entry of the curated list shown for the link-list category. */
  datatype Website = Website(name: string, url: string, caption: string)

  /** A rendered link: display name, the normalised target and the anchor text. */
  datatype LinkEntry = LinkEntry(name: string, href: string, caption: string)

  /** The category whose modal shows the curated list instead of a single link. */
  const LinkListCategory: string := "websites"

  const Websites: seq<Website> := [
    Website("ASC Maestra - Salon Website", Https + "asc-maestra.ct.ws", "Visit Website"),
    Website("Puppy Path - Adoption Website",
            Https + "jennilynpataueg.github.io/PuppyPath_Website_Final/", "Visit Website")
  ]

  /** The curated list as rendered: each URL goes through the same rule as a per-item link. */
  function CuratedLinks(): (r: seq<LinkEntry>)
    ensures |r| == |Websites|
    ensures forall i :: 0 <= i < |r| ==>
      r[i] == LinkEntry(Websites[i].name, NormalizeUrl(Websites[i].url), Websites[i].caption)
  {
    seq(|Websites|, i requires 0 <= i < |Websites| =>
      LinkEntry(Websites[i].name, NormalizeUrl(Websites[i].url), Websites[i].caption))
  }

  /** An `https://` URL with no trailing whitespace is already normalised. */
  lemma HttpsUrlFixed(path: string)
    requires path == [] || !IsWhitespace(path[|path| - 1])
    ensures NormalizeUrl(Https + path) == Https + path
  {
    var u := Https + path;
    assert StartsWith(u, Https) by { assert u[..|Https|] == Https; }
    assert Trimmed(u) by {
      assert u[0] == 'h';
      assert u[|u| - 1] == if path == [] then '/' else path[|path| - 1];
    }
    TrimOfTrimmed(u);
  }

  /** The curated URLs are already normalised, so the rendered list links to them verbatim. */
  lemma CuratedLinksVerbatim()
    ensures |CuratedLinks()| == 2
    ensures forall i :: 0 <= i < 2 ==> CuratedLinks()[i].href == Websites[i].url
  {
    var a := "asc-maestra.ct.ws";
    var b := "jennilynpataueg.github.io/PuppyPath_Website_Final/";
    assert a[|a| - 1] == 's' && b[|b| - 1] == '/';
    HttpsUrlFixed(a);
    HttpsUrlFixed(b);
    assert Websites[0].url == Https + a;
    assert Websites[1].url == Https + b;
    var r := CuratedLinks();
    assert r[0].href == NormalizeUrl(Websites[0].url);
    assert r[1].href == NormalizeUrl(Websites[1].url);
  }

  /**
   * The target of the single "visit" button for a `data-link` attribute: hidden (`None`)
   * when the attribute is absent or blank, otherwise the normalised URL.
   */
  function VisitTarget(link: Option<string>): (r: Option<string>)
    ensures r.None? <==> link.None? || AllWhitespace(link.value)
    ensures r.Some? ==> r.value == NormalizeUrl(link.value)
  {
    match link
    case None => None
    case Some(l) =>
      TrimEmptyIff(l);
      if l != [] && Trim(l) != [] then Some(NormalizeUrl(l)) else None
  }
}
