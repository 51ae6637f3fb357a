/**
 * Whole crawls of one small site, worked out to the last field: a seed
 * page linking `whatever.html` and `you.html` on its own host, one of
 * which links the missing page `me.html`, which answers 404.
 */
module CrawlScenarios {
  import opened LinkRules
  import opened CrawlSpec

  const Host: string := "srv"
  const SeedPage: string := "https://srv/links.html"
  const WhateverPage: string := "https://srv/whatever.html"
  const YouPage: string := "https://srv/you.html"
  const MePage: string := "https://srv/me.html"

  /**
   * The hrefs of each page of the test site. The seed page links
   * `whatever.html` and `you.html`, and one of those two links `me.html`:
   * `you.html` when `viaYou`, `whatever.html` otherwise. No other page has links.
   */
  function LinksOf(page: string, viaYou: bool): seq<string> {
    if page == SeedPage then ["whatever.html", "you.html"]
    else if page == (if viaYou then YouPage else WhateverPage) then ["me.html"]
    else []
  }

  /** Every URL parses with host `srv`, `me.html` is missing, and every page can be read. */
  function TestSite(viaYou: bool): Web {
    Web(
      link => Some(Host),
      link => if link == MePage then Some(404) else Some(200),
      link => Some(LinksOf(link, viaYou)))
  }

  /** Between them the two linked pages link `me.html` exactly once. */
  lemma MeLinkedOnce(viaYou: bool)
    ensures LinksOf(WhateverPage, viaYou) + LinksOf(YouPage, viaYou) == ["me.html"]
  {
    if viaYou {
      assert LinksOf(WhateverPage, viaYou) == [];
    } else {
      assert WhateverPage[12] != YouPage[12];
      assert LinksOf(YouPage, viaYou) == [];
    }
  }

  /** A checker as `New` makes it, in default or verbose mode. */
  function Fresh(verbose: bool): Session {
    Session("", [], 0, DefaultCheckLimit, verbose, 0, [], [], false)
  }

  /** A relative href that starts with neither a scheme nor the host gets both. */
  lemma CanonicaliseRelativeOnHost(link: string)
    requires |link| > 0 && link[0] != 'h' && link[0] != 's'
    ensures CanonicaliseLink(Host, link) == "https://srv/" + link
  {
    assert link[0] != SecureScheme[0] && link[0] != Host[0];
    assert !HasPrefix(link, SecureScheme + Host) by {
      assert link[0] != (SecureScheme + Host)[0];
    }
    assert SecureScheme + (Host + "/") + link == "https://srv/" + link;
  }

  /** The seed is already canonical, internal, and parses. */
  lemma SeedCanonical(viaYou: bool)
    ensures CanonicaliseLink(Host, SeedPage) == SeedPage
    ensures !IsExternal(Host, SeedPage)
    ensures TestSite(viaYou).parse(SeedPage) == Some(Host)
  {
    assert HasPrefix(SeedPage, SecureScheme + Host);
    CanonicaliseFixedPoint(Host, SeedPage);
  }

  /** The seed page, counted, claimed and fetched: no report in default mode, two links scheduled. */
  lemma SeedStep(verbose: bool, viaYou: bool)
    ensures Step(Fresh(verbose).(domain := Host, workers := 1), SeedPage, TestSite(viaYou)) ==
      (AfterSeed(verbose), None)
  {
    var web := TestSite(viaYou);
    var seeded := Fresh(verbose).(domain := Host, workers := 1);
    SeedCanonical(viaYou);
    assert Step(seeded, SeedPage, web) == Visit(seeded, SeedPage, web);
    PageVisit(seeded, SeedPage, 200, ["whatever.html", "you.html"], web);
    assert [] + [SeedPage, SeedPage] == [SeedPage, SeedPage];
    assert [] + ["whatever.html", "you.html"] == ["whatever.html", "you.html"];
    assert [] + [Result(OK, 200, SeedPage)] == [Result(OK, 200, SeedPage)];
    assert AfterSeed(verbose).stream == if verbose then [Result(OK, 200, SeedPage)] else [];
  }

  /** A relative href on the host becomes an internal page that parses. */
  lemma LeafCanonical(href: string, viaYou: bool)
    requires |href| > 0 && href[0] != 'h' && href[0] != 's'
    ensures CanonicaliseLink(Host, href) == "https://srv/" + href
    ensures !IsExternal(Host, "https://srv/" + href)
    ensures TestSite(viaYou).parse("https://srv/" + href) == Some(Host)
  {
    CanonicaliseRelativeOnHost(href);
    assert "https://srv/" + href == SecureScheme + Host + ("/" + href);
    DomainPrefixedIsInternal(Host, "/" + href);
  }

  /** Claiming, fetching and expanding an internal page that answers `code` and links `links`. */
  lemma PageVisit(s: Session, page: string, code: int, links: seq<string>, web: Web)
    requires s.domain == Host && s.workers > 0 && !IsExternal(Host, page)
    requires web.status(page) == Some(code) && web.pageLinks(page) == Some(links)
    ensures var result := Result(MapHTTPToLink(code), code, page);
      Visit(s, page, web) ==
        (s.(checked := s.checked + [page, page],
            stream := if s.verbose || result.linkStatus != OK then s.stream + [result] else s.stream,
            pending := s.pending + links,
            workers := s.workers + |links| - 1,
            current := s.current + 1), None)
  {
    assert s.checked + [page] + [page] == s.checked + [page, page];
  }

  /** A linked page of the host, not yet checked, that answers `code` and links `links`. */
  lemma PageStep(s: Session, href: string, code: int, links: seq<string>, viaYou: bool)
    requires s.domain == Host && s.workers > 0 && s.current < s.limit
    requires |href| > 0 && href[0] != 'h' && href[0] != 's'
    requires "https://srv/" + href !in s.checked
    requires TestSite(viaYou).status("https://srv/" + href) == Some(code)
    requires TestSite(viaYou).pageLinks("https://srv/" + href) == Some(links)
    ensures var page := "https://srv/" + href;
      var result := Result(MapHTTPToLink(code), code, page);
      Step(s, href, TestSite(viaYou)) ==
        (s.(checked := s.checked + [page, page],
            stream := if s.verbose || result.linkStatus != OK then s.stream + [result] else s.stream,
            pending := s.pending + links,
            workers := s.workers + |links| - 1,
            current := s.current + 1), None)
  {
    var page := "https://srv/" + href;
    LeafCanonical(href, viaYou);
    assert Step(s, href, TestSite(viaYou)) == Visit(s, page, TestSite(viaYou));
    PageVisit(s, page, code, links, TestSite(viaYou));
  }

  /** The results shown in mode `verbose`: all of `ok`, then `broken`. */
  function Shown(verbose: bool, ok: seq<Result>, broken: seq<Result>): seq<Result> {
    (if verbose then ok else []) + broken
  }

  /**
   * The state after the seed page, then after each linked page in turn.
   * Only the state after `whatever.html` depends on which page links `me.html`.
   */
  function AfterSeed(v: bool): Session {
    Session(Host, [SeedPage, SeedPage], 1, DefaultCheckLimit, v, 2,
            ["whatever.html", "you.html"],
            Shown(v, [Result(OK, 200, SeedPage)], []), false)
  }

  function AfterWhatever(v: bool, viaYou: bool): Session {
    Session(Host, [SeedPage, SeedPage, WhateverPage, WhateverPage], 2, DefaultCheckLimit, v,
            1 + |LinksOf(WhateverPage, viaYou)|,
            ["you.html"] + LinksOf(WhateverPage, viaYou),
            Shown(v, [Result(OK, 200, SeedPage), Result(OK, 200, WhateverPage)], []), false)
  }

  function AfterYou(v: bool): Session {
    Session(Host, [SeedPage, SeedPage, WhateverPage, WhateverPage, YouPage, YouPage], 3, DefaultCheckLimit, v, 1,
            ["me.html"],
            Shown(v, [Result(OK, 200, SeedPage), Result(OK, 200, WhateverPage), Result(OK, 200, YouPage)], []), false)
  }

  function AfterMe(v: bool): Session {
    Session(Host, [SeedPage, SeedPage, WhateverPage, WhateverPage, YouPage, YouPage, MePage, MePage],
            4, DefaultCheckLimit, v, 0, [],
            Shown(v, [Result(OK, 200, SeedPage), Result(OK, 200, WhateverPage), Result(OK, 200, YouPage)],
                  [Result(Critical, 404, MePage)]), false)
  }

  lemma WhateverStep(v: bool, viaYou: bool)
    ensures Step(AfterSeed(v).(pending := ["you.html"]), "whatever.html", TestSite(viaYou)) ==
      (AfterWhatever(v, viaYou), None)
  {
    assert "https://srv/" + "whatever.html" == WhateverPage;
    assert [SeedPage, SeedPage] + [WhateverPage, WhateverPage] == [SeedPage, SeedPage, WhateverPage, WhateverPage];
    assert [Result(OK, 200, SeedPage)] + [] + [Result(OK, 200, WhateverPage)] ==
           [Result(OK, 200, SeedPage), Result(OK, 200, WhateverPage)] + [];
    PageStep(AfterSeed(v).(pending := ["you.html"]), "whatever.html", 200, LinksOf(WhateverPage, viaYou), viaYou);
  }

  lemma YouStep(v: bool, viaYou: bool)
    ensures Step(AfterWhatever(v, viaYou).(pending := LinksOf(WhateverPage, viaYou)), "you.html",
                 TestSite(viaYou)) == (AfterYou(v), None)
  {
    assert "https://srv/" + "you.html" == YouPage;
    assert [SeedPage, SeedPage, WhateverPage, WhateverPage] + [YouPage, YouPage] ==
           [SeedPage, SeedPage, WhateverPage, WhateverPage, YouPage, YouPage];
    assert [Result(OK, 200, SeedPage), Result(OK, 200, WhateverPage)] + [] + [Result(OK, 200, YouPage)] ==
           [Result(OK, 200, SeedPage), Result(OK, 200, WhateverPage), Result(OK, 200, YouPage)] + [];
    MeLinkedOnce(viaYou);
    PageStep(AfterWhatever(v, viaYou).(pending := LinksOf(WhateverPage, viaYou)), "you.html", 200,
             LinksOf(YouPage, viaYou), viaYou);
  }

  lemma MeStep(v: bool, viaYou: bool)
    ensures Step(AfterYou(v).(pending := []), "me.html", TestSite(viaYou)) == (AfterMe(v), None)
  {
    assert "https://srv/" + "me.html" == MePage;
    assert [SeedPage, SeedPage, WhateverPage, WhateverPage, YouPage, YouPage] + [MePage, MePage] ==
           [SeedPage, SeedPage, WhateverPage, WhateverPage, YouPage, YouPage, MePage, MePage];
    var ok := [Result(OK, 200, SeedPage), Result(OK, 200, WhateverPage), Result(OK, 200, YouPage)];
    assert ok + [] + [Result(Critical, 404, MePage)] == ok + [Result(Critical, 404, MePage)];
    assert [] + [] + [Result(Critical, 404, MePage)] == [] + [Result(Critical, 404, MePage)];
    PageStep(AfterYou(v).(pending := []), "me.html", 404, [], viaYou);
  }

  lemma RunsWhatever(v: bool, viaYou: bool)
    ensures Run(AfterSeed(v), TestSite(viaYou)) == Run(AfterWhatever(v, viaYou), TestSite(viaYou))
  {
    RunUnfolds(AfterSeed(v), TestSite(viaYou));
    assert AfterSeed(v).pending[1..] == ["you.html"];
    WhateverStep(v, viaYou);
  }

  lemma RunsYou(v: bool, viaYou: bool)
    ensures Run(AfterWhatever(v, viaYou), TestSite(viaYou)) == Run(AfterYou(v), TestSite(viaYou))
  {
    RunUnfolds(AfterWhatever(v, viaYou), TestSite(viaYou));
    assert AfterWhatever(v, viaYou).pending[0] == "you.html";
    assert AfterWhatever(v, viaYou).pending[1..] == LinksOf(WhateverPage, viaYou);
    YouStep(v, viaYou);
  }

  lemma RunsMe(v: bool, viaYou: bool)
    ensures Run(AfterYou(v), TestSite(viaYou)) == Run(AfterMe(v), TestSite(viaYou))
  {
    RunUnfolds(AfterYou(v), TestSite(viaYou));
    assert AfterYou(v).pending[1..] == [];
    MeStep(v, viaYou);
  }

  /**
   * After the seed, its two links run in page order, then `me.html`, which
   * one of them scheduled; then the waiter closes the stream.
   */
  lemma LinkedPagesRun(v: bool, viaYou: bool)
    ensures Run(AfterSeed(v), TestSite(viaYou)) == AfterMe(v).(closed := true)
  {
    RunsWhatever(v, viaYou);
    RunsYou(v, viaYou);
    RunsMe(v, viaYou);
  }

  /**
   * In default mode the whole crawl reports the one broken page, and the
   * stream is closed, whichever linked page links it.
   */
  lemma DefaultModeReportsOnlyBrokenPage(viaYou: bool)
    ensures Crawl(Fresh(false), SeedPage, TestSite(viaYou)).0.stream == [Result(Critical, 404, MePage)]
    ensures Crawl(Fresh(false), SeedPage, TestSite(viaYou)).0.closed
    ensures Crawl(Fresh(false), SeedPage, TestSite(viaYou)).1 == None
  {
    SeedStep(false, viaYou);
    LinkedPagesRun(false, viaYou);
  }

  /**
   * In verbose mode there is one result per page, the seed included, in the
   * order they ran, whichever linked page links `me.html`.
   */
  lemma VerboseModeReportsEveryPage(viaYou: bool)
    ensures Crawl(Fresh(true), SeedPage, TestSite(viaYou)).0.stream ==
      [Result(OK, 200, SeedPage), Result(OK, 200, WhateverPage), Result(OK, 200, YouPage), Result(Critical, 404, MePage)]
    ensures Crawl(Fresh(true), SeedPage, TestSite(viaYou)).0.closed
    ensures Crawl(Fresh(true), SeedPage, TestSite(viaYou)).1 == None
  {
    SeedStep(true, viaYou);
    LinkedPagesRun(true, viaYou);
  }
}
