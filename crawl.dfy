/** The string rules of the crawler: choosing a page's feed link, resolving
    root-relative hrefs against the base URL, and the trailing-slash rule of
    URL normalisation. HTML parsing and URL parsing are done by libraries
    outside this model: their results (href strings, link records, a
    hostname and a pathname) are the inputs here. */
module Crawl {
  import opened JsValues

  /** A `<link>` element of a page: its `type` and `href` attributes. */
  datatype Link = Link(mediaType: string, href: string)

  /** The link types that announce a feed. */
  const FeedTypes: seq<string> := ["application/rss+xml", "application/atom+xml"]

  predicate IsFeedType(t: string)
  {
    t in FeedTypes
  }

  /** `href[0] == '/'`; on an empty string JavaScript reads `undefined`, which is not `'/'`. */
  predicate StartsWithSlash(s: string)
  {
    |s| > 0 && s[0] == '/'
  }

  predicate EndsWithSlash(s: string)
  {
    |s| > 0 && s[|s| - 1] == '/'
  }

  /** A root-relative href is appended to the base URL; any other href is
      kept as it is. Either way the href is what the result ends with. */
  function Resolve(baseURL: string, href: string): (r: string)
    ensures |href| <= |r| && r[|r| - |href|..] == href
    ensures StartsWithSlash(href) ==> r == baseURL + href
    ensures !StartsWithSlash(href) ==> r == href
  {
    if StartsWithSlash(href) then baseURL + href else href
  }

  /** `links[k]` is the first link, in list order, whose type announces a feed. */
  predicate IsFirstFeedLink(links: seq<Link>, k: int)
  {
    0 <= k < |links| && IsFeedType(links[k].mediaType)
    && forall j | 0 <= j < k :: !IsFeedType(links[j].mediaType)
  }

  /** `getRSSLink(links, baseURL)`; `None` is its `null`. */
  function GetRssLink(links: seq<Link>, baseURL: string): (r: Option<string>)
    ensures r.None? <==> forall i | 0 <= i < |links| :: !IsFeedType(links[i].mediaType)
    ensures forall k | IsFirstFeedLink(links, k) :: r == Some(Resolve(baseURL, links[k].href))
    decreases |links|
  {
    if links == [] then None
    else if IsFeedType(links[0].mediaType) then Some(Resolve(baseURL, links[0].href))
    else
      var r := GetRssLink(links[1..], baseURL);
      assert forall k | IsFirstFeedLink(links, k) :: IsFirstFeedLink(links[1..], k - 1);
      assert forall i | 1 <= i < |links| :: links[1..][i - 1] == links[i];
      r
  }

  /** A found feed link comes from the first feed-typed link. */
  lemma {:induction false} FirstFeedLinkExists(links: seq<Link>)
    requires exists i | 0 <= i < |links| :: IsFeedType(links[i].mediaType)
    ensures exists k :: IsFirstFeedLink(links, k)
    decreases |links|
  {
    if IsFeedType(links[0].mediaType) {
      assert IsFirstFeedLink(links, 0);
    } else {
      var i :| 0 <= i < |links| && IsFeedType(links[i].mediaType);
      assert links[1..][i - 1] == links[i];
      FirstFeedLinkExists(links[1..]);
      var k :| IsFirstFeedLink(links[1..], k);
      assert IsFirstFeedLink(links, k + 1);
    }
  }

  /** Links after the first feed-typed one are ignored. */
  lemma GetRssLinkIgnoresLaterLinks(links: seq<Link>, later: seq<Link>, baseURL: string)
    requires exists i | 0 <= i < |links| :: IsFeedType(links[i].mediaType)
    ensures GetRssLink(links + later, baseURL) == GetRssLink(links, baseURL)
  {
    FirstFeedLinkExists(links);
    var k :| IsFirstFeedLink(links, k);
    assert forall j | 0 <= j <= k :: (links + later)[j] == links[j];
    assert IsFirstFeedLink(links + later, k);
  }

  /** The href loop of `getURLsFromHTML(htmlBody, baseURL)`, over the hrefs
      of the page's anchors. */
  method GetUrlsFromHtml(hrefs: seq<string>, baseURL: string) returns (links: seq<string>)
    ensures |links| == |hrefs|
    ensures forall i | 0 <= i < |hrefs| :: links[i] == Resolve(baseURL, hrefs[i])
  {
    links := [];
    for i := 0 to |hrefs|
      invariant |links| == i
      invariant forall j | 0 <= j < i :: links[j] == Resolve(baseURL, hrefs[j])
    {
      if StartsWithSlash(hrefs[i]) {
        links := links + [baseURL + hrefs[i]];
      } else {
        links := links + [hrefs[i]];
      }
    }
  }

  /** `getLinksFromHTML(htmlBody)`. `selectLinks` stands for parsing the body
      and selecting its `<link>` elements, which a library does. */
  method GetLinksFromHtml(htmlBody: Option<string>, selectLinks: string -> seq<Link>) returns (links: seq<Link>)
    ensures !Truthy(htmlBody) ==> links == []
    ensures Truthy(htmlBody) ==> links == selectLinks(htmlBody.value)
  {
    if !Truthy(htmlBody) {
      return [];
    }
    var anchors := selectLinks(htmlBody.value);
    links := [];
    for i := 0 to |anchors|
      invariant links == anchors[..i]
    {
      links := links + [anchors[i]];
    }
    assert anchors[..|anchors|] == anchors;
  }

  /** The pathname with one trailing slash removed, if it has one. */
  function TrimTrailingSlash(path: string): (r: string)
    ensures EndsWithSlash(path) ==> r + "/" == path
    ensures !EndsWithSlash(path) ==> r == path
  {
    if EndsWithSlash(path) then path[..|path| - 1] else path
  }

  /** `normalizeURL(url)`, given the hostname and pathname its URL parses to:
      the hostname followed, with no separator, by the pathname less at most
      one trailing slash. */
  method NormalizeUrl(hostname: string, pathname: string) returns (r: string)
    ensures EndsWithSlash(pathname) ==> r + "/" == hostname + pathname
    ensures !EndsWithSlash(pathname) ==> r == hostname + pathname
    ensures r == hostname + TrimTrailingSlash(pathname)
  {
    var path := pathname;
    if EndsWithSlash(path) {
      path := path[..|path| - 1];
    }
    r := hostname + path;
  }

  /** A pathname and the same pathname with a slash appended normalise alike. */
  lemma {:induction false} TrailingSlashIgnored(path: string)
    requires !EndsWithSlash(path)
    ensures TrimTrailingSlash(path + "/") == TrimTrailingSlash(path)
  {
    assert (path + "/")[..|path|] == path;
  }
}
