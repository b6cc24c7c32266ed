/** `isValidLink` and `getTrackURL`: which link of a track's container names
    the track, and how its URL is normalised. */
module Links {
  import opened Wrappers
  import opened Text
  import opened Api

  /** An `<a>` element as the pipeline reads it. */
  datatype Link = Link(href: string, className: string)

  const ValidClassNames: seq<string> :=
    ["trackItem__trackTitle", "soundTitle__title", "chartTrack__title", "playableTile__mainHeading"]

  const IgnoredPaths: seq<string> := ["/stream", "/comments"]

  /** `isValidLink(link)`: a non-empty `href`, a class name containing one of
      the track-title classes, and none of the ignored paths in the `href`. */
  predicate IsValidLink(link: Link)
  {
    link.href != ""
    && (exists c | c in ValidClassNames :: Includes(link.className, c))
    && !(exists p | p in IgnoredPaths :: Includes(link.href, p))
  }

  /** The `reduce` of `getTrackURL` from the accumulator's `href`: a valid
      link replaces the accumulator only when its `href` is strictly longer. */
  function LongestFrom(links: seq<Link>, acc: string): string
  {
    if links == [] then acc
    else
      var next := if IsValidLink(links[0]) && |links[0].href| > |acc| then links[0].href else acc;
      LongestFrom(links[1..], next)
  }

  /** The `href` the `reduce` keeps, starting from `{ href: "" }`. */
  function LongestValidHref(links: seq<Link>): string
  {
    LongestFrom(links, "")
  }

  /** The fold keeps a longest valid `href`, never shorter than the
      accumulator, and when it takes one from the list, that link is the
      first valid one of its length. */
  lemma {:induction false} LongestFromSpec(links: seq<Link>, acc: string)
    ensures |acc| <= |LongestFrom(links, acc)|
    ensures forall j :: 0 <= j < |links| && IsValidLink(links[j]) ==> |links[j].href| <= |LongestFrom(links, acc)|
    ensures var r := LongestFrom(links, acc);
      r == acc || exists i :: (0 <= i < |links| && IsValidLink(links[i]) && links[i].href == r && |acc| < |r|
                               && forall j :: 0 <= j < i && IsValidLink(links[j]) ==> |links[j].href| < |r|)
  {
    if links != [] {
      var l := links[0];
      var next := if IsValidLink(l) && |l.href| > |acc| then l.href else acc;
      var r := LongestFrom(links, acc);
      assert r == LongestFrom(links[1..], next);
      LongestFromSpec(links[1..], next);
      forall j | 0 <= j < |links| && IsValidLink(links[j])
        ensures |links[j].href| <= |r|
      {
        if j > 0 {
          assert links[j] == links[1..][j - 1];
        }
      }
      if r != next {
        var i' :| 0 <= i' < |links[1..]| && IsValidLink(links[1..][i']) && links[1..][i'].href == r
          && |next| < |r| && forall j :: 0 <= j < i' && IsValidLink(links[1..][j]) ==> |links[1..][j].href| < |r|;
        var i := i' + 1;
        assert links[i] == links[1..][i'];
        forall j | 0 <= j < i && IsValidLink(links[j])
          ensures |links[j].href| < |r|
        {
          if j > 0 {
            assert links[j] == links[1..][j - 1];
          }
        }
      } else if next != acc {
        assert links[0].href == r;
      }
    }
  }

  /** The chosen `href` is empty exactly when no link is valid; otherwise it
      is the `href` of the first valid link among those of greatest length. */
  lemma LongestValidHrefSpec(links: seq<Link>)
    ensures var r := LongestValidHref(links);
      (r == "" <==> forall j :: 0 <= j < |links| ==> !IsValidLink(links[j]))
      && (r != "" ==> exists i :: (0 <= i < |links| && IsValidLink(links[i]) && links[i].href == r
                                   && (forall j :: 0 <= j < |links| && IsValidLink(links[j]) ==> |links[j].href| <= |r|)
                                   && (forall j :: 0 <= j < i && IsValidLink(links[j]) ==> |links[j].href| < |r|)))
  {
    LongestFromSpec(links, "");
  }

  /** The site origin `getTrackURL` puts in front of relative URLs. */
  const SiteOrigin := "https://soundcloud.com"

  /** The end of `getTrackURL`: drop the query string, then prefix the
      origin unless the URL already starts with it. */
  function NormalizeTrackUrl(href: string): string
  {
    var trackUrl := Split(href, '?')[0];
    if StartsWith(trackUrl, SiteOrigin) then trackUrl else SiteOrigin + trackUrl
  }

  /** The normalised URL starts with the origin, has no query string, and
      ends with the part of the `href` before its first `?`. */
  lemma NormalizeTrackUrlShape(href: string)
    ensures var r := NormalizeTrackUrl(href);
      StartsWith(r, SiteOrigin) && '?' !in r && EndsWith(r, Split(href, '?')[0])
      && StartsWith(href, Split(href, '?')[0])
  {
    SplitFirst(href, '?');
    var trackUrl := Split(href, '?')[0];
    assert '?' !in SiteOrigin;
    if !StartsWith(trackUrl, SiteOrigin) {
      var r := SiteOrigin + trackUrl;
      assert r[..|SiteOrigin|] == SiteOrigin;
      assert r[|r| - |trackUrl|..] == trackUrl;
    } else {
      assert trackUrl[|trackUrl| - |trackUrl|..] == trackUrl;
    }
  }

  /** Normalising a normalised URL changes nothing. */
  lemma NormalizeTrackUrlIdempotent(href: string)
    ensures NormalizeTrackUrl(NormalizeTrackUrl(href)) == NormalizeTrackUrl(href)
  {
    var r := NormalizeTrackUrl(href);
    NormalizeTrackUrlShape(href);
    SplitFirst(r, '?');
  }

  /** `getTrackURL(buttonElement)`, given the links of the first enclosing
      track container (`None` when there is none): the page's own URL, or
      the normalised longest valid link, or the "Failed to find track URL"
      error. */
  function GetTrackUrl(container: Option<seq<Link>>, documentUrl: string): Result<string, Error>
  {
    match container
    case None => Success(documentUrl)
    case Some(links) =>
      var best := LongestValidHref(links);
      if best == "" then Failure(TrackUrlNotFound) else Success(NormalizeTrackUrl(best))
  }

  /** Inside a container, the URL is that of the chosen link, normalised, and
      it fails exactly when no link is valid. */
  lemma GetTrackUrlSpec(links: seq<Link>, documentUrl: string)
    ensures var r := GetTrackUrl(Some(links), documentUrl);
      (r.Failure? <==> forall j :: 0 <= j < |links| ==> !IsValidLink(links[j]))
      && (r.Success? ==> StartsWith(r.value, SiteOrigin) && '?' !in r.value)
      && (r.Success? ==> exists i :: 0 <= i < |links| && IsValidLink(links[i]) && r.value == NormalizeTrackUrl(links[i].href))
  {
    LongestValidHrefSpec(links);
    NormalizeTrackUrlShape(LongestValidHref(links));
  }
}
