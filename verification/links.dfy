/** `constructShortUrl` (src/ElnkProShortener.js:491-507) and the lookup of
    `findLinkByUrl` (src/ElnkProShortener.js:731-768): the slug is the parsed
    pathname without its leading `/`, a search is issued for it, and the
    first returned link that matches exactly is the answer.

    The URL parser and the search request are not part of this model: the
    parsed pathname (or the parser's error message) and the list of links
    the search returned (`None` when the search failed) are inputs. */
module Links {
  import opened Wrappers
  import opened Text
  import opened Http
  import Query

  /** The fields of a link record the helpers look at. */
  datatype LinkData = LinkData(url: Option<string>, domainId: Option<int>)

  const ShortDomain := "https://elnk.pro/"

  /** `constructShortUrl(linkData)`: `None` stands for the `false` it returns
      without a slug. Custom domains are not resolved, so every branch builds
      the URL on the default domain. */
  function ConstructShortUrl(link: LinkData): (r: Option<string>)
    ensures r.Some? <==> Truthy(link.url)
    ensures r.Some? ==> |r.value| > |ShortDomain| && r.value[..|ShortDomain|] == ShortDomain
    ensures r.Some? ==> r.value[|ShortDomain|..] == link.url.value
  {
    var urlSlug := link.url;
    var domainId := link.domainId;
    if !Truthy(urlSlug) then None
    else if domainId.None? || domainId.value == 0 then Some(ShortDomain + urlSlug.value)
    else Some(ShortDomain + urlSlug.value)
  }

  /** The domain never changes the constructed URL. */
  lemma ShortUrlIgnoresDomain(slug: Option<string>, d1: Option<int>, d2: Option<int>)
    ensures ConstructShortUrl(LinkData(slug, d1)) == ConstructShortUrl(LinkData(slug, d2))
  {
  }

  /** Distinct slugs give distinct short URLs. */
  lemma ShortUrlInjective(a: LinkData, b: LinkData)
    requires ConstructShortUrl(a).Some? && ConstructShortUrl(a) == ConstructShortUrl(b)
    ensures a.url == b.url
  {
  }

  /** `pathname.substring(1)`. */
  function ExtractSlug(pathname: string): (slug: string)
    ensures pathname != [] ==> [pathname[0]] + slug == pathname
    ensures pathname == [] ==> slug == []
  {
    if |pathname| >= 1 then pathname[1..] else ""
  }

  /** The slug of the pathname `/slug` that a constructed short URL parses to
      is the link's own slug. */
  lemma SlugRoundTrip(link: LinkData)
    requires ConstructShortUrl(link).Some?
    ensures ExtractSlug("/" + ConstructShortUrl(link).value[|ShortDomain|..]) == link.url.value
  {
  }

  /** The `find` callback: the link's slug is the one searched for, or its
      constructed URL is the given short URL. */
  predicate IsExactMatch(link: LinkData, slug: string, shortUrl: string) {
    link.url == Some(slug) || ConstructShortUrl(link) == Some(shortUrl)
  }

  /** `Array.prototype.find` as an index: the first position whose element
      satisfies the callback. */
  function FindFirst(links: seq<LinkData>, slug: string, shortUrl: string): (r: Option<nat>)
    ensures r.Some? ==> r.value < |links| && IsExactMatch(links[r.value], slug, shortUrl)
    ensures r.Some? ==> forall j :: 0 <= j < r.value ==> !IsExactMatch(links[j], slug, shortUrl)
    ensures r.None? ==> forall j :: 0 <= j < |links| ==> !IsExactMatch(links[j], slug, shortUrl)
  {
    if links == [] then None
    else if IsExactMatch(links[0], slug, shortUrl) then Some(0)
    else
      var rest := FindFirst(links[1..], slug, shortUrl);
      if rest.None? then None else Some(rest.value + 1)
  }

  const InvalidFormatMessage := "Invalid short URL format"
  const NotFoundMessage := "Link not found"

  /** The search `findLinkByUrl` issues for a slug. */
  function LookupQuery(slug: string): Query.SearchOptions {
    Query.SearchOptions(Some(slug), None, None, None, None, None, None)
  }

  /** The search asks for the slug alone, on the first page of 25. */
  lemma LookupQueryParams(slug: string)
    requires slug != ""
    ensures Query.SearchParams(LookupQuery(slug))
      == [Query.Param("q", slug), Query.Param("page", "1"), Query.Param("limit", "25")]
  {
    assert IntToString(1) == "1" && IntToString(25) == "25";
  }

  /** `findLinkByUrl(shortUrl)`. A parser error goes through `handleError`
      like any other thrown error. */
  function FindLinkByUrl(shortUrl: string, parsed: Result<string, string>,
                         found: Option<seq<LinkData>>): (r: Result<LinkData, Envelope>)
    ensures r.Failure? ==> r.error.Failed? && r.error.statusCode.None?
    ensures parsed.Failure? ==> r.Failure? && r.error.message == StringOr(Some(parsed.error), UnknownErrorMessage)
    ensures parsed.Success? && |parsed.value| <= 1 ==> r == Failure(Failed(InvalidFormatMessage, None))
    ensures parsed.Success? && |parsed.value| > 1 && r.Failure? ==> r.error == Failed(NotFoundMessage, None)
    ensures r.Success? <==>
      && parsed.Success? && |parsed.value| > 1 && found.Some?
      && exists j :: 0 <= j < |found.value| && IsExactMatch(found.value[j], parsed.value[1..], shortUrl)
    ensures r.Success? ==> exists j ::
      && 0 <= j < |found.value| && r.value == found.value[j]
      && IsExactMatch(found.value[j], parsed.value[1..], shortUrl)
      && forall i :: 0 <= i < j ==> !IsExactMatch(found.value[i], parsed.value[1..], shortUrl)
  {
    match parsed
    case Failure(message) => Failure(HandleError(SetupError(Some(message))))
    case Success(pathname) =>
      var slug := ExtractSlug(pathname);
      if slug == "" then Failure(Failed(InvalidFormatMessage, None))
      else if found.Some? && |found.value| > 0 then
        var exactMatch := FindFirst(found.value, slug, shortUrl);
        if exactMatch.Some? then Success(found.value[exactMatch.value])
        else Failure(Failed(NotFoundMessage, None))
      else Failure(Failed(NotFoundMessage, None))
  }

  /** A link whose slug is searched for is found, even when it lives on a
      custom domain. */
  lemma FindsOwnSlug(link: LinkData, others: seq<LinkData>, shortUrl: string, pathname: string)
    requires Truthy(link.url) && pathname == "/" + link.url.value
    requires forall i :: 0 <= i < |others| ==> !IsExactMatch(others[i], link.url.value, shortUrl)
    ensures FindLinkByUrl(shortUrl, Success(pathname), Some(others + [link])) == Success(link)
  {
    var all := others + [link];
    assert IsExactMatch(all[|others|], link.url.value, shortUrl);
    var slug := ExtractSlug(pathname);
    assert slug == link.url.value;
    forall j | 0 <= j < |others|
      ensures !IsExactMatch(all[j], slug, shortUrl)
    {
      assert all[j] == others[j];
    }
  }
}
