/**
 * The search engine (internal/search/search.go): one people search, walked page by
 * page, collecting profile URLs without duplicates until the requested count is met.
 * The browser is an oracle: the pages a query reaches are given as a `Surface`.
 */
module Search {
  import opened Results
  import Strings

  datatype Criteria = Criteria(keywords: string, kind: string, count: int)

  /** What scraping one result page yields: the lookup of the result links failed, or
      each link's `href` attribute (None when it is unreadable or absent). */
  datatype Scrape = ScrapeFailed | Links(hrefs: seq<Option<string>>)

  /** The Next button as `nextPage` meets it. */
  datatype NextControl = NoNext | NextDisabled | NextClickFails | NextClicks

  datatype ResultPage = ResultPage(scrape: Scrape, next: NextControl)

  /** The result pages of one query, first to last. A listing ends: its last page
      offers no Next button that can be clicked. */
  type Pages = s: seq<ResultPage> | s != [] && s[|s| - 1].next != NextClicks
    witness [ResultPage(ScrapeFailed, NoNext)]

  /** Whether the first navigation to the query succeeds, and the pages it leads to. */
  datatype Surface = Surface(navOk: bool, pages: Pages)

  datatype SearchError = NavigationFailed

  /** Why a page's profiles could not be scraped: its result links could not be listed. */
  datatype ScrapeError = LinksUnavailable

  const SearchPrefix: string := "https://www.linkedin.com/search/results/people/?keywords="
  const SearchSuffix: string := "&origin=GLOBAL_SEARCH_HEADER"

  /** The query URL: the keywords with every space written as `%20`, between the
      people-search address and the origin parameter. */
  function SearchUrl(keywords: string): (r: string)
    ensures |r| == |SearchPrefix| + |Strings.EscapeSpaces(keywords)| + |SearchSuffix|
    ensures r[..|SearchPrefix|] == SearchPrefix
    ensures r[|SearchPrefix|..|r| - |SearchSuffix|] == Strings.EscapeSpaces(keywords)
    ensures r[|r| - |SearchSuffix|..] == SearchSuffix
  {
    var escaped := Strings.EscapeSpaces(keywords);
    var r := SearchPrefix + escaped + SearchSuffix;
    assert r[..|SearchPrefix|] == SearchPrefix;
    assert r[|SearchPrefix|..|r| - |SearchSuffix|] == escaped;
    assert r[|r| - |SearchSuffix|..] == SearchSuffix;
    r
  }

  /** The keywords a people-search URL carries, with `%20` read back as a space; None
      for a URL of another shape. */
  function QueryKeywords(url: string): Option<string>
  {
    if |url| >= |SearchPrefix| + |SearchSuffix|
       && url[..|SearchPrefix|] == SearchPrefix
       && url[|url| - |SearchSuffix|..] == SearchSuffix
    then Some(Strings.UnescapeSpaces(url[|SearchPrefix|..|url| - |SearchSuffix|]))
    else None
  }

  /** The search URL carries the keywords, whenever they hold no `%` of their own. */
  lemma SearchUrlCarriesKeywords(keywords: string)
    requires '%' !in keywords
    ensures QueryKeywords(SearchUrl(keywords)) == Some(keywords)
  {
    Strings.EscapeRoundTrip(keywords);
  }

  // ---------------------------------------------------------------- scraping

  /** A cleaned link is kept when it points at a member profile. */
  predicate IsProfileLink(clean: string)
  {
    Strings.Contains(clean, "/in/")
  }

  /** The profile URLs of a page's hrefs, in page order: unreadable hrefs are skipped,
      each href is cut at its first `?`, and only profile links are kept. */
  function ProfileLinks(hrefs: seq<Option<string>>): seq<string>
  {
    if hrefs == [] then []
    else
      var rest := ProfileLinks(hrefs[..|hrefs| - 1]);
      match hrefs[|hrefs| - 1]
      case None => rest
      case Some(h) =>
        var clean := Strings.BeforeFirst(h, '?');
        if IsProfileLink(clean) then rest + [clean] else rest
  }

  /** `scrapeProfiles`: the loop over the page's result links. */
  method ScrapeProfiles(s: Scrape) returns (r: Result<seq<string>, ScrapeError>)
    ensures s.ScrapeFailed? <==> r.Err?
    ensures r.Ok? ==> r.value == ProfileLinks(s.hrefs)
    ensures r.Ok? ==> forall u :: u in r.value ==> '?' !in u && IsProfileLink(u)
  {
    if s.ScrapeFailed? {
      return Err(LinksUnavailable);
    }
    var hrefs := s.hrefs;
    var urls: seq<string> := [];
    var i := 0;
    while i < |hrefs|
      invariant 0 <= i <= |hrefs|
      invariant urls == ProfileLinks(hrefs[..i])
      invariant forall u :: u in urls ==> '?' !in u && IsProfileLink(u)
    {
      assert hrefs[..i + 1][..i] == hrefs[..i];
      var link := hrefs[i];
      i := i + 1;
      if link.None? {
        continue;
      }
      var clean := Strings.BeforeFirst(link.value, '?');
      if !Strings.Contains(clean, "/in/") {
        continue;
      }
      urls := urls + [clean];
    }
    assert hrefs[..i] == hrefs;
    return Ok(urls);
  }

  /** Every scraped URL is the `?`-free head of some readable href on the page and
      names a profile. */
  lemma {:induction false} ProfileLinksProvenance(hrefs: seq<Option<string>>, u: string)
    requires u in ProfileLinks(hrefs)
    ensures '?' !in u && IsProfileLink(u)
    ensures exists i :: 0 <= i < |hrefs| && hrefs[i].Some? && u == Strings.BeforeFirst(hrefs[i].value, '?')
  {
    var n := |hrefs|;
    var init := hrefs[..n - 1];
    if u in ProfileLinks(init) {
      ProfileLinksProvenance(init, u);
      var i :| 0 <= i < |init| && init[i].Some? && u == Strings.BeforeFirst(init[i].value, '?');
      assert hrefs[i] == init[i];
    } else {
      assert hrefs[n - 1].Some? && u == Strings.BeforeFirst(hrefs[n - 1].value, '?');
    }
  }

  /** Scraping keeps page order: the links of two stretches of a page are the links
      of the first followed by those of the second. */
  lemma {:induction false} ProfileLinksConcat(a: seq<Option<string>>, b: seq<Option<string>>)
    ensures ProfileLinks(a + b) == ProfileLinks(a) + ProfileLinks(b)
    decreases |b|
  {
    if b == [] {
      assert a + b == a;
    } else {
      var b0 := b[..|b| - 1];
      assert (a + b)[..|a + b| - 1] == a + b0;
      ProfileLinksConcat(a, b0);
    }
  }

  // ------------------------------------------------------------- accumulation

  /** What one page contributes: nothing when scraping it failed. */
  function Scraped(p: ResultPage): seq<string>
  {
    match p.scrape
    case ScrapeFailed => []
    case Links(hrefs) => ProfileLinks(hrefs)
  }

  /** All URLs scraped from `ps`, page after page. */
  function Flatten(ps: seq<ResultPage>): seq<string>
  {
    if ps == [] then [] else Flatten(ps[..|ps| - 1]) + Scraped(ps[|ps| - 1])
  }

  /** How many pages the walk can reach: it moves on only through a Next click that
      succeeds, so it reaches the pages up to the first one without such a click. */
  function ReachCount(pages: Pages): (n: nat)
    ensures 1 <= n <= |pages|
    ensures forall j :: 0 <= j < n - 1 ==> pages[j].next == NextClicks
    ensures pages[n - 1].next != NextClicks
    decreases |pages|
  {
    if pages[0].next != NextClicks then 1
    else
      var rest: Pages := pages[1..];
      1 + ReachCount(rest)
  }

  function Reachable(pages: Pages): seq<ResultPage>
  {
    pages[..ReachCount(pages)]
  }

  /** The distinct elements of `s` in order of first appearance. */
  function Distinct(s: seq<string>): seq<string>
  {
    if s == [] then []
    else
      var d := Distinct(s[..|s| - 1]);
      if s[|s| - 1] in d then d else d + [s[|s| - 1]]
  }

  /** The first `count` elements of `d` (none when `count` is not positive). */
  function Truncate(d: seq<string>, count: int): (r: seq<string>)
    ensures r <= d
    ensures count <= 0 ==> r == []
    ensures count > 0 ==> |r| == if |d| < count then |d| else count
  {
    if count <= 0 then [] else if |d| <= count then d else d[..count]
  }

  /** The profiles a search for `count` profiles returns from a listing. */
  function Expected(pages: Pages, count: int): seq<string>
  {
    Truncate(Distinct(Flatten(Reachable(pages))), count)
  }

  predicate NoDuplicates(s: seq<string>)
  {
    forall i, j :: 0 <= i < j < |s| ==> s[i] != s[j]
  }

  /** The index of the first occurrence of `x` in `s`. */
  function FirstIndex(s: seq<string>, x: string): (i: nat)
    requires x in s
    ensures i < |s| && s[i] == x && x !in s[..i]
  {
    if s[0] == x then 0 else 1 + FirstIndex(s[1..], x)
  }

  lemma {:induction false} DistinctHasNoDuplicates(s: seq<string>)
    ensures NoDuplicates(Distinct(s))
  {
    if s != [] {
      DistinctHasNoDuplicates(s[..|s| - 1]);
    }
  }

  /** Deduplication loses nothing and invents nothing. */
  lemma {:induction false} DistinctElements(s: seq<string>, x: string)
    ensures x in Distinct(s) <==> x in s
  {
    if s != [] {
      var init := s[..|s| - 1];
      DistinctElements(init, x);
      assert s == init + [s[|s| - 1]];
    }
  }

  /** Seeing more URLs only appends to what was kept so far. */
  lemma {:induction false} DistinctPrefix(a: seq<string>, b: seq<string>)
    ensures Distinct(a) <= Distinct(a + b)
    decreases |b|
  {
    if b == [] {
      assert a + b == a;
    } else {
      var b0 := b[..|b| - 1];
      assert (a + b)[..|a + b| - 1] == a + b0;
      DistinctPrefix(a, b0);
    }
  }

  /** Kept URLs appear in the order in which each was first seen. */
  lemma {:induction false} DistinctFirstSeenOrder(s: seq<string>, i: nat, j: nat)
    requires i < j < |Distinct(s)|
    ensures Distinct(s)[i] in s && Distinct(s)[j] in s
    ensures FirstIndex(s, Distinct(s)[i]) < FirstIndex(s, Distinct(s)[j])
  {
    var d := Distinct(s);
    DistinctElements(s, d[i]);
    DistinctElements(s, d[j]);
    var init := s[..|s| - 1];
    var last := s[|s| - 1];
    var d0 := Distinct(init);
    DistinctElements(init, d[i]);
    DistinctElements(init, d[j]);
    if j < |d0| {
      assert d[i] == d0[i] && d[j] == d0[j];
      DistinctFirstSeenOrder(init, i, j);
      FirstIndexInPrefix(s, init, d[i]);
      FirstIndexInPrefix(s, init, d[j]);
    } else {
      // d[j] is `last`, seen for the first time at the end of `s`
      assert d == d0 + [last] && d[j] == last && last !in init;
      assert d[i] == d0[i] && d[i] in init;
      FirstIndexInPrefix(s, init, d[i]);
      FirstIndexUnique(s, last, |s| - 1);
    }
  }

  /** `FirstIndex` is the one index holding `x` with no `x` before it. */
  lemma FirstIndexUnique(s: seq<string>, x: string, i: nat)
    requires i < |s| && s[i] == x && x !in s[..i]
    ensures FirstIndex(s, x) == i
  {
    var k := FirstIndex(s, x);
    assert forall j :: 0 <= j < i ==> s[..i][j] == s[j];
    assert forall j :: 0 <= j < k ==> s[..k][j] == s[j];
  }

  /** The first occurrence of an element of a prefix lies in the prefix. */
  lemma FirstIndexInPrefix(s: seq<string>, p: seq<string>, x: string)
    requires p <= s && x in p
    ensures FirstIndex(s, x) == FirstIndex(p, x)
  {
    var k := FirstIndex(p, x);
    assert s[..k] == p[..k];
    FirstIndexUnique(s, x, k);
  }

  /** Once the quota is met, whatever is seen later no longer matters. */
  lemma TruncateFilled(a: seq<string>, b: seq<string>, count: int)
    requires a <= b && |a| >= count
    ensures Truncate(a, count) == Truncate(b, count)
  {
  }

  lemma FlattenSnoc(ps: seq<ResultPage>, i: nat)
    requires i < |ps|
    ensures Flatten(ps[..i + 1]) == Flatten(ps[..i]) + Scraped(ps[i])
  {
    assert ps[..i + 1][..i] == ps[..i];
  }

  /** The URLs of a prefix of the pages come first among the URLs of all pages. */
  lemma {:induction false} FlattenPrefix(ps: seq<ResultPage>, k: nat)
    requires k <= |ps|
    ensures Flatten(ps[..k]) <= Flatten(ps)
    decreases |ps| - k
  {
    if k < |ps| {
      FlattenPrefix(ps, k + 1);
      FlattenSnoc(ps, k);
      assert ps[..|ps|] == ps;
    } else {
      assert ps[..k] == ps;
    }
  }

  /** Every URL of the flattened list came from one of the pages. */
  lemma {:induction false} FlattenProvenance(ps: seq<ResultPage>, u: string)
    requires u in Flatten(ps)
    ensures exists j :: 0 <= j < |ps| && u in Scraped(ps[j])
  {
    var init := ps[..|ps| - 1];
    if u in Flatten(init) {
      FlattenProvenance(init, u);
      var j :| 0 <= j < |init| && u in Scraped(init[j]);
      assert ps[j] == init[j];
    }
  }

  // ------------------------------------------------ what a search promises

  /** The search returns at most `count` URLs, and exactly `count` when the reachable
      pages hold that many distinct profiles. */
  lemma ExpectedSize(pages: Pages, count: int)
    ensures |Expected(pages, count)| <= if count > 0 then count else 0
    ensures |Distinct(Flatten(Reachable(pages)))| >= count ==> |Expected(pages, count)| == if count > 0 then count else 0
  {
  }

  /** No URL is returned twice, even when several pages list it. */
  lemma ExpectedNoDuplicates(pages: Pages, count: int)
    ensures NoDuplicates(Expected(pages, count))
  {
    var d := Distinct(Flatten(Reachable(pages)));
    DistinctHasNoDuplicates(Flatten(Reachable(pages)));
    var r := Expected(pages, count);
    assert forall i :: 0 <= i < |r| ==> r[i] == d[i];
  }

  /** Every returned URL was scraped from a reachable page, as the `?`-free head of one
      of its profile links. */
  lemma ExpectedProvenance(pages: Pages, count: int, u: string)
    requires u in Expected(pages, count)
    ensures '?' !in u && IsProfileLink(u)
    ensures exists j :: 0 <= j < ReachCount(pages) && u in Scraped(pages[j])
  {
    var reach := Reachable(pages);
    DistinctElements(Flatten(reach), u);
    FlattenProvenance(reach, u);
    var j :| 0 <= j < |reach| && u in Scraped(reach[j]);
    assert reach[j] == pages[j];
    ProfileLinksProvenance(pages[j].scrape.hrefs, u);
  }

  /** Every reachable profile is returned unless the quota was filled first. */
  lemma ExpectedComplete(pages: Pages, count: int, u: string)
    requires u in Flatten(Reachable(pages))
    requires |Distinct(Flatten(Reachable(pages)))| < count
    ensures u in Expected(pages, count)
  {
    DistinctElements(Flatten(Reachable(pages)), u);
  }

  /** The returned URLs keep the order in which they were first seen. */
  lemma ExpectedFirstSeenOrder(pages: Pages, count: int, i: nat, j: nat)
    requires i < j < |Expected(pages, count)|
    ensures Expected(pages, count)[i] in Flatten(Reachable(pages))
    ensures Expected(pages, count)[j] in Flatten(Reachable(pages))
    ensures FirstIndex(Flatten(Reachable(pages)), Expected(pages, count)[i])
          < FirstIndex(Flatten(Reachable(pages)), Expected(pages, count)[j])
  {
    var all := Flatten(Reachable(pages));
    var r := Expected(pages, count);
    assert r[i] == Distinct(all)[i] && r[j] == Distinct(all)[j];
    DistinctFirstSeenOrder(all, i, j);
  }

  /** A page whose scrape fails adds nothing but does not end the walk: which pages
      are reachable depends on the Next buttons alone. */
  lemma {:induction false} ScrapeFailureKeepsPaging(pages: Pages, k: nat)
    requires k < |pages|
    ensures ReachCount(pages[k := pages[k].(scrape := ScrapeFailed)]) == ReachCount(pages)
    decreases |pages|
  {
    var failed: Pages := pages[k := pages[k].(scrape := ScrapeFailed)];
    if pages[0].next == NextClicks && k > 0 {
      var rest: Pages := pages[1..];
      ScrapeFailureKeepsPaging(rest, k - 1);
      assert failed[1..] == rest[k - 1 := rest[k - 1].(scrape := ScrapeFailed)];
    } else if pages[0].next == NextClicks {
      var rest: Pages := pages[1..];
      assert failed[1..] == rest;
    }
  }

  /**
   * `Run`: navigate to the query, then page by page scrape the profile links, keep
   * the ones not collected yet while under the quota, and stop on the quota, on a
   * page without a usable Next button, or on a failed Next click. Only the first
   * navigation can fail the search. `scraped` counts the pages processed.
   */
  method Run(criteria: Criteria, surface: Surface)
    returns (res: Result<seq<string>, SearchError>, scraped: nat, visited: string)
    ensures visited == SearchUrl(criteria.keywords)
    ensures !surface.navOk ==> res == Err(NavigationFailed) && scraped == 0
    ensures surface.navOk ==> res == Ok(Expected(surface.pages, criteria.count))
    ensures scraped <= ReachCount(surface.pages)
    ensures criteria.count <= 0 ==> scraped == 0
    ensures surface.navOk && criteria.count > 0 ==> 1 <= scraped
    ensures surface.navOk && scraped < ReachCount(surface.pages) ==> |res.value| >= criteria.count
    ensures surface.navOk && scraped > 0 ==> QuotaUnmet(surface.pages, scraped - 1, criteria.count)
  {
    visited := SearchUrl(criteria.keywords);
    if !surface.navOk {
      return Err(NavigationFailed), 0, visited;
    }
    var collected;
    collected, scraped := Walk(surface.pages, criteria.count);
    return Ok(collected), scraped, visited;
  }

  /** The first `n` pages hold fewer than `count` distinct profiles, so the search has to
      go on past them. */
  predicate QuotaUnmet(pages: Pages, n: nat, count: int)
    requires n <= |pages|
  {
    |Truncate(Distinct(Flatten(pages[..n])), count)| < count
  }

  /** The page loop of `Run`: scrape each page and collect its profiles until the quota
      is met or no further page can be reached. */
  method Walk(pages: Pages, count: int) returns (collected: seq<string>, scraped: nat)
    ensures collected == Expected(pages, count)
    ensures scraped <= ReachCount(pages)
    ensures count <= 0 ==> scraped == 0
    ensures count > 0 ==> 1 <= scraped
    ensures scraped < ReachCount(pages) ==> |collected| >= count
    ensures scraped > 0 ==> QuotaUnmet(pages, scraped - 1, count)
  {
    collected := [];
    var page := 0;
    scraped := 0;
    ghost var reach := ReachCount(pages);
    while |collected| < count
      invariant 0 <= page < reach
      invariant scraped == page
      invariant page > 0 ==> |collected| < count
      invariant collected == Truncate(Distinct(Flatten(pages[..page])), count)
      invariant scraped > 0 ==> QuotaUnmet(pages, scraped - 1, count)
      decreases reach - page
    {
      assert QuotaUnmet(pages, page, count);
      var stop;
      collected, stop := PageStep(collected, pages, page, count);
      scraped := scraped + 1;
      if stop {
        break;
      }
      page := page + 1;
    }
    StopReason(pages, scraped, count);
  }

  /** One pass of the page loop: scrape and collect page `page`, then stop on a met quota
      or when no Next click leads further, as the listing's pages say. */
  method PageStep(collected: seq<string>, pages: Pages, page: nat, count: int)
    returns (result: seq<string>, stop: bool)
    requires page < ReachCount(pages)
    requires collected == Truncate(Distinct(Flatten(pages[..page])), count)
    ensures result == Truncate(Distinct(Flatten(pages[..page + 1])), count)
    ensures stop <==> |result| >= count || page == ReachCount(pages) - 1
  {
    result := ScrapePage(collected, pages, page, count);
    if |result| >= count {
      return result, true;
    }
    var hasNext, clickFailed := NextPage(pages[page].next);
    if clickFailed || !hasNext {
      return result, true;
    }
    return result, false;
  }

  /** One pass of `Run`'s loop: scrape page `page` and collect what it yields; a page
      whose scrape fails adds nothing. */
  method ScrapePage(collected: seq<string>, pages: Pages, page: nat, count: int) returns (result: seq<string>)
    requires page < |pages|
    requires collected == Truncate(Distinct(Flatten(pages[..page])), count)
    ensures result == Truncate(Distinct(Flatten(pages[..page + 1])), count)
  {
    var profiles := ScrapeProfiles(pages[page].scrape);
    FlattenSnoc(pages, page);
    if profiles.Err? {
      assert Scraped(pages[page]) == [];
      assert Flatten(pages[..page]) + [] == Flatten(pages[..page]);
      return collected;
    }
    result := CollectPage(collected, Flatten(pages[..page]), profiles.value, count);
  }

  /** The loop over one page's profiles: keep each URL not collected yet, as long as
      the quota is not met. */
  method CollectPage(collected: seq<string>, ghost seen: seq<string>, ps: seq<string>, count: int)
    returns (result: seq<string>)
    requires collected == Truncate(Distinct(seen), count)
    ensures result == Truncate(Distinct(seen + ps), count)
  {
    result := collected;
    var k := 0;
    assert seen + ps[..0] == seen;
    while k < |ps|
      invariant 0 <= k <= |ps|
      invariant result == Truncate(Distinct(seen + ps[..k]), count)
    {
      if |result| >= count {
        assert seen + ps[..k] <= seen + ps;
        QuotaPrefix(seen + ps[..k], seen + ps, count);
        return;
      }
      var p := ps[k];
      assert seen + ps[..k + 1] == (seen + ps[..k]) + [p];
      CollectStep(seen + ps[..k], p, count);
      var present := Contains(result, p);
      if !present {
        result := result + [p];
      }
      k := k + 1;
    }
    assert ps[..k] == ps;
  }

  /** Under quota, one more URL is collected exactly when it is not collected yet. */
  lemma CollectStep(prefix: seq<string>, p: string, count: int)
    requires |Truncate(Distinct(prefix), count)| < count
    ensures Truncate(Distinct(prefix + [p]), count)
         == if p in Truncate(Distinct(prefix), count) then Truncate(Distinct(prefix), count)
            else Truncate(Distinct(prefix), count) + [p]
  {
    assert (prefix + [p])[..|prefix + [p]| - 1] == prefix;
  }

  /** A quota met on the URLs seen so far stays met, with the same URLs, however many
      more are seen. */
  lemma QuotaPrefix(head: seq<string>, all: seq<string>, count: int)
    requires head <= all
    requires |Truncate(Distinct(head), count)| >= count
    ensures Truncate(Distinct(head), count) == Truncate(Distinct(all), count)
  {
    var rest := all[|head|..];
    assert head + rest == all;
    DistinctPrefix(head, rest);
    TruncateFilled(Distinct(head), Distinct(all), count);
  }

  /** Stopping after `scraped` pages gives the search's answer: either the quota was
      met, or the walk processed every reachable page. */
  lemma StopReason(pages: Pages, scraped: nat, count: int)
    requires scraped <= ReachCount(pages)
    requires scraped < ReachCount(pages) ==> |Truncate(Distinct(Flatten(pages[..scraped])), count)| >= count
    ensures Truncate(Distinct(Flatten(pages[..scraped])), count) == Expected(pages, count)
  {
    var n := ReachCount(pages);
    var all := pages[..n];
    assert Expected(pages, count) == Truncate(Distinct(Flatten(all)), count);
    if scraped < n {
      FlattenPrefix(all, scraped);
      assert all[..scraped] == pages[..scraped];
      QuotaPrefix(Flatten(pages[..scraped]), Flatten(all), count);
    } else {
      assert pages[..scraped] == all;
    }
  }

  /** `nextPage`: no button or a disabled one ends the listing quietly, a failed click
      is reported, and a successful click moves to the next page. */
  method NextPage(next: NextControl) returns (hasNext: bool, clickFailed: bool)
    ensures hasNext <==> next == NextClicks
    ensures clickFailed <==> next == NextClickFails
  {
    match next
    case NoNext => return false, false;
    case NextDisabled => return false, false;
    case NextClickFails => return false, true;
    case NextClicks => return true, false;
  }

  /** `contains`: a linear scan for `item`. */
  method Contains(slice: seq<string>, item: string) returns (found: bool)
    ensures found <==> item in slice
  {
    var i := 0;
    while i < |slice|
      invariant 0 <= i <= |slice|
      invariant item !in slice[..i]
    {
      if slice[i] == item {
        return true;
      }
      i := i + 1;
    }
    assert slice[..i] == slice;
    return false;
  }
}
