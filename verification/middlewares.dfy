/**
 * `PlaywrightMiddleware` (yc_scraper/middlewares.py): which requests are
 * rendered in the browser, the lazy start of the browser session, the
 * scroll loop that expands the infinite listing, and the scan of the
 * rendered page source for company links.
 *
 * The browser is not modelled. Its answers are inputs: whether the session
 * could be started, the samples the scroll loop reads, the number of loop
 * iterations the 60-second budget allows, and the final page source.
 */
module Middlewares {
  import opened Wrappers
  import opened Strings

  // ---------------------------------------------------------------------
  // Request routing
  // ---------------------------------------------------------------------

  const ListingUrl := "https://www.ycombinator.com/companies"
  const SiteDomain := "ycombinator.com"

  /**
   * `is_main_listing` in `process_request`. The exact listing URL and the
   * domain-qualified test both end in `/companies`, so they add nothing to
   * the other two disjuncts.
   */
  predicate IsMainListing(url: string)
    ensures IsMainListing(url) <==> EndsWith(url, "/companies") || Contains(url, "/companies?")
  {
    assert ListingUrl[|ListingUrl| - |"/companies"|..] == "/companies";
    || url == ListingUrl
    || EndsWith(url, "/companies")
    || Contains(url, "/companies?")
    || (EndsWith(url, "/companies") && Contains(url, SiteDomain))
  }

  /**
   * `is_company_page` in `process_request`. The exact listing URL ends in
   * `/companies`, so the test reduces to a `/companies/` path that does not
   * end in `/companies`.
   */
  predicate IsCompanyPage(url: string)
    ensures IsCompanyPage(url) <==> Contains(url, "/companies/") && !EndsWith(url, "/companies")
  {
    assert ListingUrl[|ListingUrl| - |"/companies"|..] == "/companies";
    Contains(url, "/companies/") && url != ListingUrl && !EndsWith(url, "/companies")
  }

  /** The test in `process_request` that sends a request to the browser. */
  predicate ShouldRender(url: string) {
    IsMainListing(url) && !IsCompanyPage(url) && Contains(url, SiteDomain)
  }

  /**
   * The routing test in plain terms: a URL is rendered exactly when it is on
   * the site and either ends in `/companies` or carries a query on
   * `/companies?` without any `/companies/` path in it.
   */
  lemma ShouldRenderExactly(url: string)
    ensures ShouldRender(url) <==>
      && Contains(url, SiteDomain)
      && (|| EndsWith(url, "/companies")
          || (Contains(url, "/companies?") && !Contains(url, "/companies/")))
  {
    assert ListingUrl[|ListingUrl| - |"/companies"|..] == "/companies";
    assert EndsWith(ListingUrl, "/companies");
  }

  /** A URL off the site is never rendered. */
  lemma OffSiteNeverRendered(url: string)
    requires !Contains(url, SiteDomain)
    ensures !ShouldRender(url)
  {
  }

  /** A site URL ending in `/companies` is the listing, never a company page, and is rendered. */
  lemma ListingSuffixRendered(url: string)
    requires Contains(url, SiteDomain) && EndsWith(url, "/companies")
    ensures IsMainListing(url) && !IsCompanyPage(url) && ShouldRender(url)
  {
  }

  /** A company page is never rendered. */
  lemma CompanyPageNeverRendered(url: string)
    requires IsCompanyPage(url)
    ensures !ShouldRender(url)
  {
  }

  // ---------------------------------------------------------------------
  // The scroll loop of `_async_process_page`
  // ---------------------------------------------------------------------

  /** One reading of the page: `document.body.scrollHeight` and the count of company anchors. */
  datatype Sample = Sample(height: int, linkCount: nat)

  /** The loop variables `scroll_attempts`, `last_height`, `same_height_count`, `last_company_count`. */
  datatype ScrollState = ScrollState(attempts: nat, lastHeight: int, sameHeightCount: nat, lastCompanyCount: nat)

  /** Why the loop ended: the time budget ran out, the page looked complete, or the attempt cap was passed. */
  datatype ScrollExit = TimeUp | Stable | Capped

  datatype ScrollOutcome = ScrollOutcome(state: ScrollState, exit: ScrollExit)

  const InitialScroll := ScrollState(0, 0, 0, 0)
  const MaxScrollAttempts := 500
  const SamplePeriod := 5
  const StableSamples := 5
  const EnoughCompanies := 1000

  /**
   * The body of the sampling `try` block: update the counters from one
   * successful sample, and say whether the stability exit fires.
   */
  function Observe(st: ScrollState, s: Sample): (r: (ScrollState, bool))
    ensures r.0.attempts == st.attempts
    ensures s.height != st.lastHeight ==> r.0.sameHeightCount == 0 && r.0.lastHeight == s.height && !r.1
    ensures s.height == st.lastHeight ==> r.0.sameHeightCount == st.sameHeightCount + 1 && r.0.lastHeight == st.lastHeight
    ensures r.1 <==> s.height == st.lastHeight && st.sameHeightCount + 1 >= StableSamples && s.linkCount >= EnoughCompanies
    ensures r.0.lastCompanyCount == if s.linkCount > st.lastCompanyCount then s.linkCount else st.lastCompanyCount
  {
    var count := if s.linkCount != 0 && s.linkCount > st.lastCompanyCount then s.linkCount else st.lastCompanyCount;
    if s.height == st.lastHeight then
      var same := st.sameHeightCount + 1;
      (st.(sameHeightCount := same, lastCompanyCount := count), same >= StableSamples && s.linkCount >= EnoughCompanies)
    else
      (st.(sameHeightCount := 0, lastHeight := s.height, lastCompanyCount := count), false)
  }

  /**
   * The part of one iteration before `scroll_attempts += 1`: a sample is read
   * only when `scroll_attempts % 5 == 0`; a sample that raised (`None`)
   * changes nothing.
   */
  function ScrollStep(st: ScrollState, probe: nat -> Option<Sample>): (r: (ScrollState, bool))
    ensures st.attempts % SamplePeriod != 0 ==> r == (st, false)
    ensures probe(st.attempts).None? ==> r == (st, false)
    ensures r.1 ==> probe(st.attempts).Some? && probe(st.attempts).value.linkCount >= EnoughCompanies
    ensures r.1 ==> r.0.sameHeightCount >= StableSamples
    ensures r.0.attempts == st.attempts
  {
    if st.attempts % SamplePeriod == 0 && probe(st.attempts).Some? then
      Observe(st, probe(st.attempts).value)
    else
      (st, false)
  }

  /**
   * The loop from state `st` on, when the time budget allows `budget`
   * iterations in all (iteration `k` starts with `scroll_attempts == k`).
   */
  function Scroll(st: ScrollState, probe: nat -> Option<Sample>, budget: nat): (r: ScrollOutcome)
    requires st.attempts <= MaxScrollAttempts
    ensures st.attempts <= r.state.attempts <= MaxScrollAttempts + 1
    ensures st.attempts <= budget ==> r.state.attempts <= budget
    ensures r.exit == Capped ==> r.state.attempts == MaxScrollAttempts + 1
    ensures r.exit == TimeUp ==> budget <= r.state.attempts <= MaxScrollAttempts
    ensures r.exit == Stable ==> r.state.attempts < budget && r.state.attempts % SamplePeriod == 0
    ensures r.exit == Stable ==> r.state.sameHeightCount >= StableSamples
    ensures r.exit == Stable ==> probe(r.state.attempts).Some? && probe(r.state.attempts).value.linkCount >= EnoughCompanies
    decreases MaxScrollAttempts - st.attempts
  {
    if st.attempts >= budget then
      ScrollOutcome(st, TimeUp)
    else
      var (next, stop) := ScrollStep(st, probe);
      if stop then
        ScrollOutcome(next, Stable)
      else
        var after := next.(attempts := next.attempts + 1);
        if after.attempts > MaxScrollAttempts then ScrollOutcome(after, Capped)
        else Scroll(after, probe, budget)
  }

  /** How many times the loop body ran: the stability exit leaves before counting its iteration. */
  function Iterations(o: ScrollOutcome): nat {
    o.state.attempts + if o.exit == Stable then 1 else 0
  }

  /** Whatever the time budget, the loop body runs at most 501 times, and never more than the budget allows. */
  lemma ScrollBounded(probe: nat -> Option<Sample>, budget: nat)
    ensures Iterations(Scroll(InitialScroll, probe, budget)) <= MaxScrollAttempts + 1
    ensures Iterations(Scroll(InitialScroll, probe, budget)) <= budget
  {
  }

  /**
   * A stable height alone never ends the loop early: when no sample ever
   * counts 1000 company links, the loop runs until the time budget or the
   * attempt cap stops it.
   */
  lemma NoEarlyExitBelowThousand(probe: nat -> Option<Sample>, budget: nat)
    requires forall k :: probe(k).Some? ==> probe(k).value.linkCount < EnoughCompanies
    ensures Scroll(InitialScroll, probe, budget).exit != Stable
    ensures budget > MaxScrollAttempts ==> Scroll(InitialScroll, probe, budget).exit == Capped
    ensures budget <= MaxScrollAttempts ==> Scroll(InitialScroll, probe, budget).state.attempts == budget
  {
  }

  /** When every sample raises, the loop changes nothing but `scroll_attempts`. */
  lemma {:induction false} FailedSamplesOnlyCount(st: ScrollState, probe: nat -> Option<Sample>, budget: nat)
    requires st.attempts <= MaxScrollAttempts
    requires forall k :: probe(k).None?
    ensures Scroll(st, probe, budget).state == st.(attempts := Scroll(st, probe, budget).state.attempts)
    decreases MaxScrollAttempts - st.attempts
  {
    if st.attempts < budget {
      var after := st.(attempts := st.attempts + 1);
      if after.attempts <= MaxScrollAttempts {
        FailedSamplesOnlyCount(after, probe, budget);
      }
    }
  }

  /**
   * The scroll loop of `_async_process_page` (yc_scraper/middlewares.py:231-279).
   * `probe(k)` is what the two `page.evaluate` calls return when
   * `scroll_attempts == k`, `None` when either raised; `budget` is how many
   * iterations start before the 60-second budget runs out.
   */
  method ScrollUntilLoaded(probe: nat -> Option<Sample>, budget: nat) returns (outcome: ScrollOutcome)
    ensures outcome == Scroll(InitialScroll, probe, budget)
    ensures Iterations(outcome) <= MaxScrollAttempts + 1
  {
    var scrollAttempts: nat := 0;
    var lastHeight := 0;
    var sameHeightCount: nat := 0;
    var lastCompanyCount: nat := 0;
    var exit := TimeUp;
    while scrollAttempts < budget
      invariant scrollAttempts <= MaxScrollAttempts
      invariant Scroll(InitialScroll, probe, budget)
        == Scroll(ScrollState(scrollAttempts, lastHeight, sameHeightCount, lastCompanyCount), probe, budget)
      decreases budget - scrollAttempts
    {
      if scrollAttempts % SamplePeriod == 0 {
        var sample := probe(scrollAttempts);
        if sample.Some? {
          var newHeight, currentCompanyCount := sample.value.height, sample.value.linkCount;
          if currentCompanyCount != 0 && currentCompanyCount > lastCompanyCount {
            lastCompanyCount := currentCompanyCount;
          }
          if newHeight == lastHeight {
            sameHeightCount := sameHeightCount + 1;
            if sameHeightCount >= StableSamples {
              if currentCompanyCount >= EnoughCompanies {
                exit := Stable;
                break;
              }
            }
          } else {
            sameHeightCount := 0;
            lastHeight := newHeight;
          }
        }
      }
      scrollAttempts := scrollAttempts + 1;
      if scrollAttempts > MaxScrollAttempts {
        exit := Capped;
        break;
      }
    }
    outcome := ScrollOutcome(ScrollState(scrollAttempts, lastHeight, sameHeightCount, lastCompanyCount), exit);
    ScrollBounded(probe, budget);
  }

  // ---------------------------------------------------------------------
  // The page-source link scan
  // ---------------------------------------------------------------------

  const CompaniesPath := "/companies/"

  /** A character of the class `[^"'<>?\s]`. */
  predicate LinkChar(c: char) {
    c != '"' && c != '\'' && c != '<' && c != '>' && c != '?' && !IsSpace(c)
  }

  /** A string `re.findall(r'/companies/[^"\'<>?\s]+', ...)` can return. */
  predicate IsCompanyLink(link: string) {
    && StartsWith(link, CompaniesPath)
    && |link| > |CompaniesPath|
    && forall k :: 0 <= k < |link| ==> LinkChar(link[k])
  }

  /** `link` occurs in `body` and is not followed there by another link character (the match is greedy). */
  predicate IsMaximalIn(body: string, link: string) {
    exists i :: 0 <= i <= |body| - |link| && StartsAt(body, i, link) && (i + |link| == |body| || !LinkChar(body[i + |link|]))
  }

  /** The end of the run of link characters that starts at `j`. */
  function LinkRunEnd(body: string, j: nat): (k: nat)
    requires j <= |body|
    ensures j <= k <= |body|
    ensures forall m :: j <= m < k ==> LinkChar(body[m])
    ensures k < |body| ==> !LinkChar(body[k])
    decreases |body| - j
  {
    if j < |body| && LinkChar(body[j]) then LinkRunEnd(body, j + 1) else j
  }

  lemma CompaniesPathIsLinkText()
    ensures forall k :: 0 <= k < |CompaniesPath| ==> LinkChar(CompaniesPath[k])
  {
  }

  /** The pattern `/companies/[^"\'<>?\s]+` matches at position `p`. */
  predicate MatchesAt(body: string, p: nat) {
    StartsAt(body, p, CompaniesPath) && p + |CompaniesPath| < |body| && LinkChar(body[p + |CompaniesPath|])
  }

  /** A run of link characters from `m` that stops at `j` ends where `LinkRunEnd` says. */
  lemma LinkRunEndAt(body: string, m: nat, j: nat)
    requires m <= j <= |body|
    requires forall x :: m <= x < j ==> LinkChar(body[x])
    requires j < |body| ==> !LinkChar(body[j])
    ensures LinkRunEnd(body, m) == j
  {
  }

  /**
   * `re.findall(r'/companies/[^"\'<>?\s]+', body[i:])`: scan left to right;
   * at a position where the pattern matches take the longest match and go
   * on after it, otherwise move one character on.
   */
  function FindCompanyLinks(body: string, i: nat): (links: seq<string>)
    requires i <= |body|
    ensures forall l :: l in links ==> IsCompanyLink(l) && IsMaximalIn(body, l)
    decreases |body| - i
  {
    if i == |body| then []
    else if MatchesAt(body, i) then
      var j := LinkRunEnd(body, i + |CompaniesPath|);
      var link := body[i..j];
      CompaniesPathIsLinkText();
      assert link[..|CompaniesPath|] == CompaniesPath;
      assert forall k :: 0 <= k < |CompaniesPath| ==> link[k] == CompaniesPath[k];
      assert StartsAt(body, i, link);
      [link] + FindCompanyLinks(body, j)
    else
      FindCompanyLinks(body, i + 1)
  }

  /**
   * No match is lost: the longest match at any position `p` from `i` on ends
   * some returned link. It is that link itself when the scan stopped at `p`,
   * and a suffix of it when `p` lies inside an earlier match.
   */
  lemma {:induction false} FindCompanyLinksComplete(body: string, i: nat, p: nat)
    requires i <= p && MatchesAt(body, p)
    ensures exists l :: l in FindCompanyLinks(body, i) && EndsWith(l, body[p..LinkRunEnd(body, p + |CompaniesPath|)])
    decreases |body| - i
  {
    if MatchesAt(body, i) {
      var j := LinkRunEnd(body, i + |CompaniesPath|);
      var link := body[i..j];
      assert FindCompanyLinks(body, i) == [link] + FindCompanyLinks(body, j);
      if p < j {
        if p + |CompaniesPath| > j {
          assert body[p..p + |CompaniesPath|] == CompaniesPath;
          assert body[j] == CompaniesPath[j - p];
          CompaniesPathIsLinkText();
          assert false;
        }
        LinkRunEndAt(body, p + |CompaniesPath|, j);
        assert link[|link| - (j - p)..] == body[p..j];
        assert EndsWith(link, body[p..j]);
        assert link in FindCompanyLinks(body, i);
      } else {
        FindCompanyLinksComplete(body, j, p);
        var l :| l in FindCompanyLinks(body, j) && EndsWith(l, body[p..LinkRunEnd(body, p + |CompaniesPath|)]);
        assert l in FindCompanyLinks(body, i);
      }
    } else {
      assert p != i && i < |body|;
      assert FindCompanyLinks(body, i) == FindCompanyLinks(body, i + 1);
      FindCompanyLinksComplete(body, i + 1, p);
    }
  }

  const AssetExtensions := [".png", ".jpg", ".jpeg", ".gif", ".svg", ".webp", ".ico", ".css", ".js", ".json"]

  /** `any(link.lower().endswith(ext) for ext in excluded_extensions)`. */
  predicate IsAssetLink(link: string) {
    exists e :: e in AssetExtensions && EndsWith(Lower(link), e)
  }

  /** The comprehension that drops asset links, keeping the rest in order. */
  function KeepNonAssetLinks(links: seq<string>): (kept: seq<string>)
    ensures forall l :: l in kept ==> l in links && !IsAssetLink(l)
    ensures forall l :: l in links && !IsAssetLink(l) ==> l in kept
    ensures IsSubsequence(kept, links)
    ensures forall l :: multiset(kept)[l] == if IsAssetLink(l) then 0 else multiset(links)[l]
  {
    if links == [] then []
    else
      assert links == [links[0]] + links[1..];
      if IsAssetLink(links[0]) then
        var rest := KeepNonAssetLinks(links[1..]);
        SubsequenceOfTail(rest, links);
        rest
      else
        [links[0]] + KeepNonAssetLinks(links[1..])
  }

  /** The links the page-source scan counts; a body under 1000 characters is not scanned. */
  function PageSourceLinks(body: string): (links: seq<string>)
    ensures |body| < 1000 ==> links == []
    ensures forall l :: l in links ==> IsCompanyLink(l) && IsMaximalIn(body, l) && !IsAssetLink(l)
    ensures |body| >= 1000 ==> forall l :: l in FindCompanyLinks(body, 0) && !IsAssetLink(l) ==> l in links
    ensures |body| >= 1000 ==> forall l :: multiset(links)[l] == if IsAssetLink(l) then 0 else multiset(FindCompanyLinks(body, 0))[l]
  {
    if |body| < 1000 then [] else KeepNonAssetLinks(FindCompanyLinks(body, 0))
  }

  /**
   * Every link the scan keeps starts with `/companies/`, holds no quote,
   * angle bracket, `?` or whitespace, and its lower-case form ends with none
   * of the ten asset extensions.
   */
  lemma PageSourceLinksWellFormed(body: string, link: string)
    requires link in PageSourceLinks(body)
    ensures StartsWith(link, CompaniesPath)
    ensures forall k :: 0 <= k < |link| ==> link[k] !in "\"'<>?" && !IsSpace(link[k])
    ensures forall e :: e in AssetExtensions ==> !EndsWith(Lower(link), e)
    ensures Contains(body, link)
  {
    var links := FindCompanyLinks(body, 0);
    assert link in links;
    assert IsMaximalIn(body, link);
  }

  // ---------------------------------------------------------------------
  // The middleware object
  // ---------------------------------------------------------------------

  /** What the browser session yields for one listing page when no step raises. */
  datatype RenderedPage = RenderedPage(probe: nat -> Option<Sample>, budget: nat, content: string)

  /** The `HtmlResponse` built from the rendered body. */
  datatype HtmlResponse = HtmlResponse(url: string, body: string)

  /**
   * `_async_process_page` when no step raises: scroll, then take the page
   * source whatever way the loop ended, and scan it for company links (the
   * scan only feeds the log).
   */
  method ProcessPage(page: RenderedPage) returns (body: string, scroll: ScrollOutcome, links: seq<string>)
    ensures body == page.content
    ensures scroll == Scroll(InitialScroll, page.probe, page.budget)
    ensures Iterations(scroll) <= MaxScrollAttempts + 1 && Iterations(scroll) <= page.budget
    ensures links == PageSourceLinks(body)
    ensures |body| < 1000 ==> links == []
    ensures forall l :: l in links ==> StartsWith(l, CompaniesPath) && Contains(body, l)
    ensures forall l :: l in links ==> forall e :: e in AssetExtensions ==> !EndsWith(Lower(l), e)
  {
    scroll := ScrollUntilLoaded(page.probe, page.budget);
    ScrollBounded(page.probe, page.budget);
    body := page.content;
    links := PageSourceLinks(body);
    forall l | l in links
      ensures StartsWith(l, CompaniesPath) && Contains(body, l)
      ensures forall e :: e in AssetExtensions ==> !EndsWith(Lower(l), e)
    {
      PageSourceLinksWellFormed(body, l);
    }
  }

  class PlaywrightMiddleware {
    /** `_initialized` */
    var initialized: bool
    /** `_loop is not None` */
    var hasLoop: bool
    /** `context is not None` */
    var hasContext: bool

    /** A session is marked initialised only once its browser context exists. */
    ghost predicate Valid()
      reads this
    {
      initialized ==> hasContext && hasLoop
    }

    constructor ()
      ensures Valid()
      ensures !initialized && !hasLoop && !hasContext
    {
      initialized, hasLoop, hasContext := false, false, false;
    }

    /**
     * `_initialize_playwright`. `launched` is whether `_async_init_playwright`
     * created the browser context; a raised exception counts as `false`.
     */
    method InitializePlaywright(launched: bool) returns (ok: bool)
      requires Valid()
      modifies this
      ensures Valid()
      ensures old(initialized) ==> ok && initialized && hasLoop == old(hasLoop) && hasContext == old(hasContext)
      ensures !old(initialized) ==> ok == launched && initialized == launched && hasLoop
      ensures !old(initialized) ==> hasContext == (launched || old(hasContext))
    {
      if initialized {
        return true;
      }
      hasLoop := true;
      if launched {
        hasContext := true;
        initialized := true;
        ok := true;
      } else {
        ok := false;
      }
    }

    /**
     * `process_request`. `launched` answers a lazy start if one is needed;
     * `page` is the rendering of the URL, `None` when `_async_process_page`
     * raised. `None` as the result lets the ordinary downloader fetch the URL.
     */
    method ProcessRequest(url: string, launched: bool, page: Option<RenderedPage>) returns (response: Option<HtmlResponse>)
      requires Valid()
      modifies this
      ensures Valid()
      ensures !ShouldRender(url) ==> response == None && unchanged(this)
      ensures ShouldRender(url) ==> initialized == (old(initialized) || launched)
      ensures ShouldRender(url) ==> hasLoop && hasContext == (old(hasContext) || launched)
      ensures response.Some? <==>
        ShouldRender(url) && (old(initialized) || launched) && page.Some? && page.value.content != ""
      ensures response.Some? ==> response.value == HtmlResponse(url, page.value.content)
    {
      if ShouldRender(url) {
        if !initialized {
          var ok := InitializePlaywright(launched);
          if !ok {
            return None;
          }
        }
        if !hasContext {
          return None;
        }
        hasLoop := true;
        if page.None? {
          return None;
        }
        var body, _, _ := ProcessPage(page.value);
        if body != "" {
          return Some(HtmlResponse(url, body));
        }
        return None;
      }
      return None;
    }
  }
}
