/**
 * `YcCompaniesSpider` (yc_scraper/spiders/yc_companies_spider.py): the
 * listing callback that turns company anchors into detail-page requests,
 * and the detail callback that fills a `YcCompanyItem`.
 *
 * CSS and XPath selection is not modelled: every query result the
 * callbacks read is an input, either a field of a page or element value or
 * (for `response.urljoin` and the text next to a LinkedIn anchor) a function
 * parameter whose meaning the model leaves open.
 */
module Spider {
  import opened Wrappers
  import opened Strings
  import opened Items

  // ---------------------------------------------------------------------
  // parse: the listing page
  // ---------------------------------------------------------------------

  /**
   * One element the listing selectors matched: its `href` attribute and the
   * three texts the listing-name lookup tries in turn (a heading, a
   * name-classed node, any text).
   */
  datatype ListingElement = ListingElement(
    href: Option<string>,
    headingText: Option<string>,
    nameText: Option<string>,
    firstText: Option<string>)

  /** A `scrapy.Request` for a detail page, carrying the partly filled item in its meta. */
  datatype Request = Request(url: string, item: YcCompanyItem)

  /** `all_companies`: the anchors then the cards, or the broad fallback selection when both are empty. */
  function Candidates(anchors: seq<ListingElement>, cards: seq<ListingElement>, fallback: seq<ListingElement>): (all: seq<ListingElement>)
    ensures anchors + cards != [] ==> all == anchors + cards
    ensures anchors + cards == [] ==> all == fallback
    ensures all == [] <==> anchors == [] && cards == [] && fallback == []
    ensures forall e :: e in all ==> e in anchors || e in cards || e in fallback
  {
    if anchors + cards == [] then fallback else anchors + cards
  }

  /** The element has a non-empty `href` that contains `/companies/`. */
  predicate HasCompanyHref(e: ListingElement) {
    Truthy(e.href) && Contains(e.href.value, "/companies/")
  }

  /** `es[i]` has a company `href` that no earlier element carries. */
  predicate IsFirstOccurrence(es: seq<ListingElement>, i: nat)
    requires i < |es|
  {
    HasCompanyHref(es[i]) && forall j :: 0 <= j < i ==> es[j].href != es[i].href
  }

  lemma FirstOccurrenceInPrefix(es: seq<ListingElement>, n: nat, i: nat)
    requires i < n <= |es|
    ensures IsFirstOccurrence(es[..n], i) <==> IsFirstOccurrence(es, i)
  {
    assert forall j :: 0 <= j <= i ==> es[..n][j] == es[j];
  }

  /** The positions at which `parse` emits a request, in element order. */
  function FirstOccurrences(es: seq<ListingElement>): (r: seq<nat>)
    ensures forall k :: 0 <= k < |r| ==> r[k] < |es| && IsFirstOccurrence(es, r[k])
    ensures forall k, m :: 0 <= k < m < |r| ==> r[k] < r[m]
    ensures forall i :: 0 <= i < |es| && IsFirstOccurrence(es, i) ==> i in r
  {
    if es == [] then []
    else
      var n := |es| - 1;
      var r := FirstOccurrences(es[..n]);
      forall i | 0 <= i < n
        ensures IsFirstOccurrence(es[..n], i) <==> IsFirstOccurrence(es, i)
      {
        FirstOccurrenceInPrefix(es, n, i);
      }
      if IsFirstOccurrence(es, n) then r + [n] else r
  }

  /** The name `parse` reads from a listing element: the first truthy of the three texts. */
  function ListingName(e: ListingElement): Option<string> {
    Or(Or(e.headingText, e.nameText), e.firstText)
  }

  /** The item a listing element starts: only `company_name`, stripped, and only when a name was found. */
  function ListingItem(e: ListingElement): (item: YcCompanyItem)
    ensures item.(company_name := None) == EmptyItem
    ensures Truthy(ListingName(e)) ==> item.company_name == Some(Strip(ListingName(e).value))
    ensures !Truthy(ListingName(e)) ==> item.company_name == None
    ensures Truthy(e.headingText) ==> item.company_name == Some(Strip(e.headingText.value))
    ensures !Truthy(e.headingText) && Truthy(e.nameText) ==> item.company_name == Some(Strip(e.nameText.value))
    ensures !Truthy(e.headingText) && !Truthy(e.nameText) && Truthy(e.firstText) ==>
      item.company_name == Some(Strip(e.firstText.value))
    ensures !Truthy(e.headingText) && !Truthy(e.nameText) && !Truthy(e.firstText) ==> item.company_name == None
  {
    var name := ListingName(e);
    if Truthy(name) then EmptyItem.(company_name := Some(Strip(name.value))) else EmptyItem
  }

  /** The request `parse` yields for an element; `urljoin` is `response.urljoin`. */
  function RequestFor(e: ListingElement, urljoin: string -> string): Request
    requires e.href.Some?
  {
    Request(urljoin(e.href.value), ListingItem(e))
  }

  /** The company `href`s of the elements before position `i`: the `processed_urls` set after `i` elements. */
  function HrefsBefore(es: seq<ListingElement>, i: nat): set<string>
    requires i <= |es|
  {
    set j | 0 <= j < i && HasCompanyHref(es[j]) :: es[j].href.value
  }

  /** An element is a first occurrence exactly when its company `href` is not yet in `processed_urls`. */
  lemma FirstOccurrenceIsUnseen(es: seq<ListingElement>, i: nat)
    requires i < |es|
    ensures IsFirstOccurrence(es, i) <==> HasCompanyHref(es[i]) && es[i].href.value !in HrefsBefore(es, i)
  {
    if HasCompanyHref(es[i]) && es[i].href.value in HrefsBefore(es, i) {
      var j :| 0 <= j < i && HasCompanyHref(es[j]) && es[j].href.value == es[i].href.value;
      assert es[j].href == es[i].href;
    }
  }

  /** The requests `parse` yields for the elements `es`, in order. */
  function Harvest(es: seq<ListingElement>, urljoin: string -> string): (requests: seq<Request>)
    ensures |requests| <= |es|
  {
    if es == [] then []
    else
      var n := |es| - 1;
      Harvest(es[..n], urljoin) + if IsFirstOccurrence(es, n) then [RequestFor(es[n], urljoin)] else []
  }

  /** The requests are exactly one per first occurrence, in element order. */
  lemma {:induction false} HarvestAtFirstOccurrences(es: seq<ListingElement>, urljoin: string -> string)
    ensures |Harvest(es, urljoin)| == |FirstOccurrences(es)|
    ensures forall k :: 0 <= k < |FirstOccurrences(es)| ==> Harvest(es, urljoin)[k] == RequestFor(es[FirstOccurrences(es)[k]], urljoin)
  {
    if es != [] {
      var n := |es| - 1;
      HarvestAtFirstOccurrences(es[..n], urljoin);
    }
  }

  /**
   * `parse`: one request per element whose `href` contains `/companies/`,
   * skipping an `href` already seen (the raw `href` is the key, not the
   * joined URL).
   */
  method Parse(anchors: seq<ListingElement>, cards: seq<ListingElement>, fallback: seq<ListingElement>, urljoin: string -> string)
    returns (requests: seq<Request>)
    ensures requests == Harvest(Candidates(anchors, cards, fallback), urljoin)
  {
    var all := anchors + cards;
    if all == [] {
      all := fallback;
    }
    var processed: set<string> := {};
    requests := [];
    var i := 0;
    while i < |all|
      invariant i <= |all|
      invariant processed == HrefsBefore(all, i)
      invariant requests == Harvest(all[..i], urljoin)
    {
      var element := all[i];
      var companyLink := element.href;
      assert all[..i + 1][..i] == all[..i];
      FirstOccurrenceInPrefix(all, i + 1, i);
      FirstOccurrenceIsUnseen(all, i);
      assert HrefsBefore(all, i + 1) == HrefsBefore(all, i) + if HasCompanyHref(element) then {companyLink.value} else {};
      if Truthy(companyLink) {
        if Contains(companyLink.value, "/companies/") && companyLink.value !in processed {
          var fullUrl := urljoin(companyLink.value);
          processed := processed + {companyLink.value};
          requests := requests + [Request(fullUrl, ListingItem(element))];
        }
      }
      i := i + 1;
    }
    assert all[..i] == all;
  }

  /** No two requests come from elements with the same `href`. */
  lemma RequestHrefsDistinct(es: seq<ListingElement>, k: nat, m: nat)
    requires k < m < |FirstOccurrences(es)|
    ensures es[FirstOccurrences(es)[k]].href != es[FirstOccurrences(es)[m]].href
  {
  }

  /** Every `href` containing `/companies/` gets a request, at the first element that carries it. */
  lemma {:induction false} EveryCompanyHrefRequested(es: seq<ListingElement>, i: nat)
    requires i < |es| && HasCompanyHref(es[i])
    ensures exists k :: 0 <= k < |FirstOccurrences(es)| && es[FirstOccurrences(es)[k]].href == es[i].href
    decreases i
  {
    var r := FirstOccurrences(es);
    if IsFirstOccurrence(es, i) {
      var k :| 0 <= k < |r| && r[k] == i;
    } else {
      var j :| 0 <= j < i && es[j].href == es[i].href;
      EveryCompanyHrefRequested(es, j);
    }
  }

  // ---------------------------------------------------------------------
  // parse_company_detail: the detail page
  // ---------------------------------------------------------------------

  /** One founder section: the three name texts tried in turn, and its LinkedIn and Twitter query results. */
  datatype FounderSection = FounderSection(
    headingText: Option<string>,
    nameText: Option<string>,
    boldText: Option<string>,
    linkedin: Option<string>,
    twitter: Option<string>)

  /**
   * The query results `parse_company_detail` reads from a detail page.
   * `parentText(link)` is the first text of the parent of the anchor whose
   * `href` is `link`.
   */
  datatype DetailPage = DetailPage(
    headingName: Option<string>,
    titleText: Option<string>,
    absoluteLinks: seq<string>,
    filteredWebsite: Option<string>,
    dataWebsite: Option<string>,
    classWebsite: Option<string>,
    founderSections: seq<FounderSection>,
    linkedinLinks: seq<string>,
    parentText: string -> Option<string>,
    twitterLinks: seq<string>)

  const TitleSuffix := " | Y Combinator"

  /** `company_name.strip().replace(' | Y Combinator', '').strip()` */
  function CleanTitle(title: string): (name: string)
    ensures Trimmed(name)
    ensures |name| <= |title|
    ensures !Contains(title, TitleSuffix) ==> name == Strip(title)
  {
    var stripped := Strip(title);
    if !Contains(title, TitleSuffix) then
      StripKeepsAbsence(title, TitleSuffix);
      StripTrimmed(stripped);
      Strip(RemoveAll(stripped, TitleSuffix))
    else
      Strip(RemoveAll(stripped, TitleSuffix))
  }

  /**
   * A page title made of a trimmed name followed by the suffix, where the
   * suffix does not also start inside the name, cleans to the name.
   */
  lemma CleanTitleDropsSuffix(name: string)
    requires name != [] && Trimmed(name)
    requires forall i :: 0 <= i < |name| ==> !StartsAt(name + TitleSuffix, i, TitleSuffix)
    ensures CleanTitle(name + TitleSuffix) == name
  {
    var title := name + TitleSuffix;
    assert title[0] == name[0] && title[|title| - 1] == 'r';
    StripTrimmed(title);
    RemoveAllTrailing(name, TitleSuffix);
    StripTrimmed(name);
  }

  /**
   * A title that is the suffix alone loses its leading space to the first
   * `strip()`, so the suffix no longer matches and the name keeps the bar.
   */
  lemma SuffixOnlyTitleKeepsBar()
    ensures CleanTitle(TitleSuffix) == TitleSuffix[1..]
  {
    var bar := TitleSuffix[1..];
    assert TitleSuffix == [' '] + bar;
    assert LeadingSpace(bar) == 0;
    assert LeadingSpace(TitleSuffix) == 1;
    assert Strip(TitleSuffix) == bar;
    StripTrimmed(bar);
  }

  /** The `company_name` after the detail callback: kept when truthy, else taken from the heading or title. */
  function DetailName(item: YcCompanyItem, page: DetailPage): (name: Option<string>)
    ensures Truthy(item.company_name) ==> name == item.company_name
    ensures !Truthy(item.company_name) && Truthy(page.headingName) ==> name == Some(CleanTitle(page.headingName.value))
    ensures !Truthy(item.company_name) && !Truthy(page.headingName) && Truthy(page.titleText) ==>
      name == Some(CleanTitle(page.titleText.value))
    ensures !Truthy(item.company_name) && !Truthy(page.headingName) && !Truthy(page.titleText) ==>
      name == item.company_name
  {
    if Truthy(item.company_name) then item.company_name
    else
      var title := Or(page.headingName, page.titleText);
      if Truthy(title) then Some(CleanTitle(title.value)) else item.company_name
  }

  /** The first-pass test: the link names none of the site, LinkedIn, Twitter or `x.com`. */
  predicate IsOffsiteLink(link: string) {
    && !Contains(link, "ycombinator.com")
    && !Contains(link, "linkedin.com")
    && !Contains(link, "twitter.com")
    && !Contains(link, "x.com")
  }

  /** The index of the first offsite link, or `|links|` when there is none. */
  function FirstOffsite(links: seq<string>): (k: nat)
    ensures k <= |links|
    ensures forall j :: 0 <= j < k ==> !IsOffsiteLink(links[j])
    ensures k < |links| ==> IsOffsiteLink(links[k])
  {
    if links == [] then 0
    else if IsOffsiteLink(links[0]) then 0
    else 1 + FirstOffsite(links[1..])
  }

  /** The `for ... break` scan over the absolute links: the first offsite link, or `''`. */
  method ScanForWebsite(links: seq<string>) returns (website: string)
    ensures FirstOffsite(links) < |links| ==> website == links[FirstOffsite(links)]
    ensures FirstOffsite(links) == |links| ==> website == ""
  {
    website := "";
    var i := 0;
    while i < |links|
      invariant i <= |links|
      invariant forall j :: 0 <= j < i ==> !IsOffsiteLink(links[j])
      invariant website == ""
    {
      if IsOffsiteLink(links[i]) {
        website := links[i];
        break;
      }
      i := i + 1;
    }
  }

  /** `company_website`: the stripped first-pass link, else the first truthy fallback query, else `''`. */
  function Website(page: DetailPage): (website: string)
    ensures Trimmed(website)
    ensures FirstOffsite(page.absoluteLinks) < |page.absoluteLinks| && page.absoluteLinks[FirstOffsite(page.absoluteLinks)] != "" ==>
      website == Strip(page.absoluteLinks[FirstOffsite(page.absoluteLinks)])
    ensures FirstOffsite(page.absoluteLinks) == |page.absoluteLinks| && Truthy(Or(Or(page.filteredWebsite, page.dataWebsite), page.classWebsite)) ==>
      website == Strip(Or(Or(page.filteredWebsite, page.dataWebsite), page.classWebsite).value)
    ensures (FirstOffsite(page.absoluteLinks) == |page.absoluteLinks| &&
             !Truthy(page.filteredWebsite) && !Truthy(page.dataWebsite) && !Truthy(page.classWebsite)) ==> website == ""
  {
    var k := FirstOffsite(page.absoluteLinks);
    var first := if k < |page.absoluteLinks| then page.absoluteLinks[k] else "";
    var chosen := if first != "" then Some(first) else Or(Or(page.filteredWebsite, page.dataWebsite), page.classWebsite);
    if Truthy(chosen) then Strip(chosen.value) else ""
  }

  /** When the first pass finds a non-empty link, the website is that link stripped and names none of the four domains. */
  lemma FirstPassWebsiteIsOffsite(page: DetailPage)
    requires FirstOffsite(page.absoluteLinks) < |page.absoluteLinks|
    requires page.absoluteLinks[FirstOffsite(page.absoluteLinks)] != ""
    ensures Website(page) == Strip(page.absoluteLinks[FirstOffsite(page.absoluteLinks)])
    ensures IsOffsiteLink(Website(page))
  {
    var link := page.absoluteLinks[FirstOffsite(page.absoluteLinks)];
    StripKeepsAbsence(link, "ycombinator.com");
    StripKeepsAbsence(link, "linkedin.com");
    StripKeepsAbsence(link, "twitter.com");
    StripKeepsAbsence(link, "x.com");
  }

  /** The `x.com` substring test also rejects sites whose host merely ends in `x`, such as Dropbox. */
  lemma SubstringTestRejectsDropbox()
    ensures !IsOffsiteLink("https://www.dropbox.com")
  {
    assert StartsAt("https://www.dropbox.com", 18, "x.com");
  }

  /** A company-page URL on LinkedIn, used as the fallback value below. */
  const LinkedinCompanyUrl: string := "https://www.linkedin.com/company/acme"

  lemma LinkedinCompanyUrlNamesLinkedin()
    ensures Contains(LinkedinCompanyUrl, "linkedin.com")
  {
    var host, domain, rest := "https://www.", "linkedin.com", "/company/acme";
    assert LinkedinCompanyUrl == host + domain + rest;
    assert LinkedinCompanyUrl[|host|..|host| + |domain|] == domain;
    assert StartsAt(LinkedinCompanyUrl, |host|, domain);
  }

  /** The `data-website` fallback is not filtered: a LinkedIn URL found there becomes the website. */
  lemma FallbackWebsiteUnfiltered(page: DetailPage)
    requires page.absoluteLinks == [] && page.filteredWebsite == None
    requires page.dataWebsite == Some(LinkedinCompanyUrl)
    ensures Website(page) == LinkedinCompanyUrl
    ensures Contains(Website(page), "linkedin.com")
  {
    StripTrimmed(LinkedinCompanyUrl);
    LinkedinCompanyUrlNamesLinkedin();
  }

  /** `name and name.strip()`: the candidate is set and not all whitespace. */
  predicate NonBlank(c: Option<string>) {
    Truthy(c) && Strip(c.value) != ""
  }

  /** The `:not([href*=...])` chain of the filtered fallback selector. */
  predicate PassesCssFilter(link: string) {
    && !Contains(link, "ycombinator")
    && !Contains(link, "linkedin")
    && !Contains(link, "twitter")
    && !Contains(link, "x.com")
  }

  /**
   * The CSS-filtered fallback query selects from the same absolute links as
   * the first pass (all of them start with `http`, so none is empty), and its
   * filter is stricter than the first-pass test. So whenever it has an answer
   * the first pass has already found a website, and the answer of the filtered
   * query never reaches the item.
   */
  lemma {:induction false} FilteredFallbackNeverUsed(page: DetailPage)
    requires forall l :: l in page.absoluteLinks ==> StartsWith(l, "http")
    requires page.filteredWebsite.Some?
    requires page.filteredWebsite.value in page.absoluteLinks && PassesCssFilter(page.filteredWebsite.value)
    ensures FirstOffsite(page.absoluteLinks) < |page.absoluteLinks|
    ensures Website(page) == Website(page.(filteredWebsite := None))
  {
    var v := page.filteredWebsite.value;
    if Contains(v, "ycombinator.com") {
      assert "ycombinator.com" == "ycombinator" + ".com";
      ContainsPrefix(v, "ycombinator", ".com");
    }
    if Contains(v, "linkedin.com") {
      assert "linkedin.com" == "linkedin" + ".com";
      ContainsPrefix(v, "linkedin", ".com");
    }
    if Contains(v, "twitter.com") {
      assert "twitter.com" == "twitter" + ".com";
      ContainsPrefix(v, "twitter", ".com");
    }
    assert IsOffsiteLink(v);
    var k :| 0 <= k < |page.absoluteLinks| && page.absoluteLinks[k] == v;
    var first := page.absoluteLinks[FirstOffsite(page.absoluteLinks)];
    assert StartsWith(first, "http");
  }

  /** `if name and name.strip(): names.append(name.strip())` over a list of candidate names. */
  function NonBlankNames(candidates: seq<Option<string>>): (names: seq<string>)
    ensures |names| <= |candidates|
    ensures forall n :: n in names ==> n != "" && Trimmed(n)
    ensures forall n :: n in names ==> exists i :: 0 <= i < |candidates| && NonBlank(candidates[i]) && Strip(candidates[i].value) == n
    ensures names == [] <==> forall i :: 0 <= i < |candidates| ==> !NonBlank(candidates[i])
  {
    if candidates == [] then []
    else
      var n := |candidates| - 1;
      var init := NonBlankNames(candidates[..n]);
      assert forall i :: 0 <= i < n ==> candidates[..n][i] == candidates[i];
      var c := candidates[n];
      if NonBlank(c) then init + [Strip(c.value)] else init
  }

  /** Every non-blank candidate is kept, stripped. */
  lemma {:induction false} NonBlankNamesComplete(candidates: seq<Option<string>>, i: nat)
    requires i < |candidates| && NonBlank(candidates[i])
    ensures Strip(candidates[i].value) in NonBlankNames(candidates)
    decreases |candidates|
  {
    var n := |candidates| - 1;
    if i < n {
      assert candidates[..n][i] == candidates[i];
      NonBlankNamesComplete(candidates[..n], i);
    }
  }

  /** `if x: xs.append(x)` over a list of query results. */
  function PresentValues(candidates: seq<Option<string>>): (values: seq<string>)
    ensures forall v :: v in values ==> v != ""
    ensures forall v :: v in values <==> Some(v) in candidates && v != ""
  {
    if candidates == [] then []
    else
      var n := |candidates| - 1;
      assert candidates == candidates[..n] + [candidates[n]];
      var init := PresentValues(candidates[..n]);
      if Truthy(candidates[n]) then init + [candidates[n].value] else init
  }

  function SectionNameCandidates(sections: seq<FounderSection>): (c: seq<Option<string>>)
    ensures |c| == |sections|
    ensures forall i :: 0 <= i < |sections| ==> c[i] == Or(Or(sections[i].headingText, sections[i].nameText), sections[i].boldText)
  {
    seq(|sections|, i requires 0 <= i < |sections| => Or(Or(sections[i].headingText, sections[i].nameText), sections[i].boldText))
  }

  function SectionLinkedin(sections: seq<FounderSection>): (c: seq<Option<string>>)
    ensures |c| == |sections|
    ensures forall i :: 0 <= i < |sections| ==> c[i] == sections[i].linkedin
  {
    seq(|sections|, i requires 0 <= i < |sections| => sections[i].linkedin)
  }

  function SectionTwitter(sections: seq<FounderSection>): (c: seq<Option<string>>)
    ensures |c| == |sections|
    ensures forall i :: 0 <= i < |sections| ==> c[i] == sections[i].twitter
  {
    seq(|sections|, i requires 0 <= i < |sections| => sections[i].twitter)
  }

  /** The texts next to the LinkedIn anchors the page-wide fallback looks at. */
  function ParentTexts(page: DetailPage, links: seq<string>): (c: seq<Option<string>>)
    ensures |c| == |links|
    ensures forall i :: 0 <= i < |links| ==> c[i] == page.parentText(links[i])
  {
    seq(|links|, i requires 0 <= i < |links| => page.parentText(links[i]))
  }

  /** `linkedin_links[:3]` */
  function FirstThree(links: seq<string>): (r: seq<string>)
    ensures |r| <= 3 && |r| <= |links| && r == links[..|r|]
    ensures |links| >= 3 ==> |r| == 3
    ensures |links| < 3 ==> r == links
  {
    if |links| <= 3 then links else links[..3]
  }

  /** The founder names before the set join. */
  function FounderNames(page: DetailPage): (names: seq<string>)
    ensures forall n :: n in names ==> n != "" && Trimmed(n)
    ensures |names| <= |page.founderSections| || |names| <= 3
  {
    var fromSections := NonBlankNames(SectionNameCandidates(page.founderSections));
    if fromSections != [] || page.linkedinLinks == [] then fromSections
    else NonBlankNames(ParentTexts(page, FirstThree(page.linkedinLinks)))
  }

  /** The founder LinkedIn links before the set join. */
  function FounderLinkedin(page: DetailPage): (links: seq<string>)
    ensures forall l :: l in links ==>
      || l in page.linkedinLinks
      || (l != "" && exists i :: 0 <= i < |page.founderSections| && page.founderSections[i].linkedin == Some(l))
  {
    var fromSections := NonBlankNames(SectionNameCandidates(page.founderSections));
    if fromSections == [] && page.linkedinLinks != [] then page.linkedinLinks
    else PresentValues(SectionLinkedin(page.founderSections))
  }

  /** The founder Twitter links before the set join. */
  function FounderTwitter(page: DetailPage): (links: seq<string>)
    ensures forall l :: l in links ==>
      || l in page.twitterLinks
      || (l != "" && exists i :: 0 <= i < |page.founderSections| && page.founderSections[i].twitter == Some(l))
    ensures links == [] ==> page.twitterLinks == []
    ensures (exists i :: 0 <= i < |page.founderSections| && Truthy(page.founderSections[i].twitter)) ==>
      forall l :: l in links <==> l != "" && exists i :: 0 <= i < |page.founderSections| && page.founderSections[i].twitter == Some(l)
    ensures (forall i :: 0 <= i < |page.founderSections| ==> !Truthy(page.founderSections[i].twitter)) ==> links == page.twitterLinks
  {
    var fromSections := PresentValues(SectionTwitter(page.founderSections));
    if fromSections != [] then
      assert Some(fromSections[0]) in SectionTwitter(page.founderSections);
      fromSections
    else page.twitterLinks
  }

  /**
   * The page-wide LinkedIn fallback runs only when the founder sections
   * gave no name; it then takes every LinkedIn link on the page, and names
   * only from the first three links.
   */
  lemma {:induction false} FounderFallback(page: DetailPage)
    ensures NonBlankNames(SectionNameCandidates(page.founderSections)) != [] ==>
      && FounderNames(page) == NonBlankNames(SectionNameCandidates(page.founderSections))
      && FounderLinkedin(page) == PresentValues(SectionLinkedin(page.founderSections))
    ensures NonBlankNames(SectionNameCandidates(page.founderSections)) == [] && page.linkedinLinks != [] ==>
      && FounderLinkedin(page) == page.linkedinLinks
      && |FounderNames(page)| <= 3
      && forall n :: n in FounderNames(page) ==>
           exists j :: 0 <= j < 3 && j < |page.linkedinLinks| && Truthy(page.parentText(page.linkedinLinks[j]))
                       && n == Strip(page.parentText(page.linkedinLinks[j]).value)
  {
    if NonBlankNames(SectionNameCandidates(page.founderSections)) == [] && page.linkedinLinks != [] {
      var links := FirstThree(page.linkedinLinks);
      var texts := ParentTexts(page, links);
      forall n | n in FounderNames(page)
        ensures exists j :: 0 <= j < 3 && j < |page.linkedinLinks| && Truthy(page.parentText(page.linkedinLinks[j]))
                            && n == Strip(page.parentText(page.linkedinLinks[j]).value)
      {
        var i :| 0 <= i < |texts| && Truthy(texts[i]) && Strip(texts[i].value) == n;
        assert links[i] == page.linkedinLinks[i];
      }
    }
  }

  /**
   * The section loop of `parse_company_detail`: each section contributes its
   * stripped non-blank name, its LinkedIn link and its Twitter link, when
   * present.
   */
  method CollectFounderSections(sections: seq<FounderSection>) returns (names: seq<string>, linkedin: seq<string>, twitter: seq<string>)
    ensures names == NonBlankNames(SectionNameCandidates(sections))
    ensures linkedin == PresentValues(SectionLinkedin(sections))
    ensures twitter == PresentValues(SectionTwitter(sections))
  {
    names, linkedin, twitter := [], [], [];
    var i := 0;
    while i < |sections|
      invariant i <= |sections|
      invariant names == NonBlankNames(SectionNameCandidates(sections)[..i])
      invariant linkedin == PresentValues(SectionLinkedin(sections)[..i])
      invariant twitter == PresentValues(SectionTwitter(sections)[..i])
    {
      var section := sections[i];
      assert SectionNameCandidates(sections)[..i + 1][..i] == SectionNameCandidates(sections)[..i];
      assert SectionLinkedin(sections)[..i + 1][..i] == SectionLinkedin(sections)[..i];
      assert SectionTwitter(sections)[..i + 1][..i] == SectionTwitter(sections)[..i];
      var founderName := Or(Or(section.headingText, section.nameText), section.boldText);
      if NonBlank(founderName) {
        names := names + [Strip(founderName.value)];
      }
      if Truthy(section.linkedin) {
        linkedin := linkedin + [section.linkedin.value];
      }
      if Truthy(section.twitter) {
        twitter := twitter + [section.twitter.value];
      }
      i := i + 1;
    }
    assert SectionNameCandidates(sections)[..i] == SectionNameCandidates(sections);
    assert SectionLinkedin(sections)[..i] == SectionLinkedin(sections);
    assert SectionTwitter(sections)[..i] == SectionTwitter(sections);
  }

  /** Two lists with the same values have the same set joins. */
  lemma SetJoinSameValues(r: string, xs: seq<string>, ys: seq<string>, sep: string)
    requires forall x :: x in xs <==> x in ys
    requires IsSetJoin(r, xs, sep)
    ensures IsSetJoin(r, ys, sep)
  {
    var order :| Enumerates(order, xs) && r == Join(order, sep);
    assert Enumerates(order, ys);
  }

  /** The website lookup of `parse_company_detail`: the first-pass scan, then the fallback queries, then `strip()`. */
  method ChooseWebsite(page: DetailPage) returns (website: string)
    ensures website == Website(page)
  {
    var companyWebsite := ScanForWebsite(page.absoluteLinks);
    var chosen: Option<string> := Some(companyWebsite);
    if companyWebsite == "" {
      chosen := Or(Or(page.filteredWebsite, page.dataWebsite), page.classWebsite);
    }
    website := if Truthy(chosen) then Strip(chosen.value) else "";
  }

  /** The name loop of the page-wide fallback: the texts next to the first three LinkedIn links. */
  method NamesNearLinkedin(page: DetailPage, linkedinLinks: seq<string>) returns (names: seq<string>)
    ensures names == NonBlankNames(ParentTexts(page, FirstThree(linkedinLinks)))
  {
    names := [];
    var firstThree := FirstThree(linkedinLinks);
    var j := 0;
    while j < |firstThree|
      invariant j <= |firstThree|
      invariant names == NonBlankNames(ParentTexts(page, firstThree)[..j])
    {
      assert ParentTexts(page, firstThree)[..j + 1][..j] == ParentTexts(page, firstThree)[..j];
      var name := page.parentText(firstThree[j]);
      if Truthy(name) && Strip(name.value) != "" {
        names := names + [Strip(name.value)];
      }
      j := j + 1;
    }
    assert ParentTexts(page, firstThree)[..j] == ParentTexts(page, firstThree);
  }

  /**
   * `parse_company_detail`. `meta` is the item the request carried (`None`
   * when it carried none). The result is the yielded item, or `None` when
   * only the warning is logged.
   */
  method ParseCompanyDetail(meta: Option<YcCompanyItem>, page: DetailPage) returns (yielded: Option<YcCompanyItem>)
    ensures yielded.Some? <==> Truthy(DetailName(meta.GetOr(EmptyItem), page))
    ensures yielded.Some? ==>
      && yielded.value.company_name == DetailName(meta.GetOr(EmptyItem), page)
      && yielded.value.company_website == Some(Website(page))
      && yielded.value.founders_name.Some?
      && yielded.value.founders_linkedin.Some?
      && yielded.value.founders_twitter.Some?
      && IsSetJoin(yielded.value.founders_name.value, FounderNames(page), ", ")
      && IsSetJoin(yielded.value.founders_linkedin.value, FounderLinkedin(page), ", ")
      && IsSetJoin(yielded.value.founders_twitter.value, FounderTwitter(page), ", ")
  {
    var item := meta.GetOr(EmptyItem);

    if !Truthy(item.company_name) {
      var companyName := Or(page.headingName, page.titleText);
      if Truthy(companyName) {
        item := item.(company_name := Some(CleanTitle(companyName.value)));
      }
    }

    var website := ChooseWebsite(page);
    item := item.(company_website := Some(website));

    var foundersNames, foundersLinkedin, foundersTwitter := CollectFounderSections(page.founderSections);
    if foundersNames == [] {
      var linkedinLinks := page.linkedinLinks;
      if linkedinLinks != [] {
        foundersLinkedin := Dedup(linkedinLinks);
        foundersNames := NamesNearLinkedin(page, linkedinLinks);
      }
    }
    if foundersTwitter == [] {
      foundersTwitter := Dedup(page.twitterLinks);
    }
    assert foundersNames == FounderNames(page);

    var namesJoin := JoinSet(foundersNames, ", ");
    var linkedinJoin := JoinSet(foundersLinkedin, ", ");
    var twitterJoin := JoinSet(foundersTwitter, ", ");
    SetJoinSameValues(linkedinJoin, foundersLinkedin, FounderLinkedin(page), ", ");
    SetJoinSameValues(twitterJoin, foundersTwitter, FounderTwitter(page), ", ");
    item := item.(founders_name := Some(namesJoin), founders_linkedin := Some(linkedinJoin), founders_twitter := Some(twitterJoin));

    if Truthy(item.company_name) {
      yielded := Some(item);
    } else {
      yielded := None;
    }
  }
}
