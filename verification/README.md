# Y Combinator company directory scraper, modelled in Dafny

The scraper crawls the Y Combinator company directory. It has four parts:

- **Routing middleware.** A downloader middleware (`PlaywrightMiddleware`) decides which requests are rendered in a headless browser. It starts the browser session lazily. On the listing page it scrolls until the page height has been unchanged for five samples in a row with at least 1000 company links loaded, or until the 60-second budget runs out or the cap `scroll_attempts > 500` ends the loop after its 501st iteration. It then scans the rendered page source for company links.
- **Listing callback.** The spider's `parse` reads the listing and yields one detail-page request per distinct company link. The request carries an item that may already hold the company name.
- **Detail callback.** `parse_company_detail` reads a company page and fills in four things: the company name (cleaned of the ` | Y Combinator` title suffix), the company's website (the first absolute link that holds none of the substrings `ycombinator.com`, `linkedin.com`, `twitter.com` and `x.com`, else the first answer of three unfiltered or looser fallback queries, as described under "The website filter" below), the founder names, and the founders' LinkedIn and Twitter links. Each founder field is joined as a set.
- **Export pipeline.** `ExcelExportPipeline` keeps one five-key row per item. At close it produces a sheet with renamed columns in a fixed order, and gives each column a width derived from its longest cell.

How the model is organised:

- `wrappers.dfy` defines `Option`.
- `strings.dfy` models the Python string operations the code relies on: `str.strip` (with `str.isspace` as the whitespace set), `in`, `startswith`, `endswith`, `replace(p, '')`, `lower`, `', '.join` and `list(set(...))`.
- `items.dfy` holds the item record, Python truthiness and the `a or b` chains.
- `middlewares.dfy`, `spider.dfy` and `pipelines.dfy` follow the three source files of the same names.

The loops of the source are `method`s, each proved equal to a specification function:

- the scroll loop;
- the `parse` loop with its `processed_urls` set;
- the first-offsite-link scan;
- the founder loops;
- the width loop.

The properties are proved as lemmas about those functions. The two objects whose fields the code updates are classes:

- The middleware keeps its initialised, loop and context state.
- The pipeline keeps its list of rows.

Everything the browser or the HTML parser answers is an input to the model. This covers the CSS/XPath query results, `response.urljoin`, the text next to a LinkedIn link, the page height and link-count samples the scroll loop reads, and whether the browser could be launched. The 60-second wall-clock budget of the scroll loop becomes the number of loop iterations that the time allows.

### The website filter

The code applies its four-domain filter only in the first pass over absolute links. The fallback queries behave differently:

- `[data-website]` and `.website a` are taken unfiltered. `Spider.FallbackWebsiteUnfiltered` shows a LinkedIn URL becoming the website through `data-website`.
- The filtered CSS selector excludes `ycombinator`, `linkedin`, `twitter` and `x.com`. It selects from the same `http` links as the first pass, and its filter is stricter. So whenever it has an answer, the first pass has already found a website. `Spider.FilteredFallbackNeverUsed` proves that its answer never changes the stored website.

The first-pass filter tests for the substring `x.com`. So it also rejects every site whose host ends in `x` followed by `.com`, for example `https://www.dropbox.com`; `Spider.SubstringTestRejectsDropbox` proves this for that URL. The model keeps this behaviour because it is what the code does.

## Model

| member | source | states |
|---|---|---|
| Items.Or | yc_scraper/spiders/yc_companies_spider.py:47-51 | `a or b` on optional strings: a truthy `a` is the result; otherwise `b` is. So the result is truthy exactly when one of the operands is |
| Strings.Strip | yc_scraper/spiders/yc_companies_spider.py:75 | `strip()` returns a piece of the input. Nothing before or after that piece is anything but whitespace, and the piece neither starts nor ends with whitespace |
| Strings.StripKeepsAbsence | yc_scraper/spiders/yc_companies_spider.py:94 | stripping cannot create a substring that the unstripped text lacked |
| Strings.RemoveAll | yc_scraper/spiders/yc_companies_spider.py:75 | `replace(p, '')` never lengthens the text and leaves a text without `p` unchanged |
| Strings.RemoveAllTrailing | yc_scraper/spiders/yc_companies_spider.py:75 | `(n + p).replace(p, '')` is `n` when no occurrence of `p` starts inside `n` |
| Strings.ContainsPrefix | yc_scraper/spiders/yc_companies_spider.py:89 | a text that holds `p + q` holds `p`: the CSS filter's shorter patterns are stricter than the domain tests |
| Strings.Lower | yc_scraper/middlewares.py:356 | `lower()` keeps the length and leaves no upper-case ASCII letter. Every other character is unchanged, and each upper-case letter becomes its lower-case partner |
| Strings.Dedup | yc_scraper/spiders/yc_companies_spider.py:129 | `list(set(xs))` holds every value of `xs` exactly once and nothing else |
| Strings.JoinSet | yc_scraper/spiders/yc_companies_spider.py:144-146 | `', '.join(set(xs))` joins some duplicate-free enumeration of the values of `xs`, and is `''` for an empty list |
| Strings.SetJoinMentionsEveryValue | yc_scraper/spiders/yc_companies_spider.py:144-146 | every collected value appears in the joined text, whatever order the set yields |
| Middlewares.IsMainListing | yc_scraper/middlewares.py:148-153 | the four-way `or` reduces to: the URL ends in `/companies` or holds `/companies?` |
| Middlewares.IsCompanyPage | yc_scraper/middlewares.py:155 | a company page holds `/companies/` and does not end in `/companies` |
| Middlewares.ShouldRenderExactly | yc_scraper/middlewares.py:148-157 | a request is rendered exactly when its URL is on `ycombinator.com` and either ends in `/companies` or holds `/companies?` with no `/companies/` in it |
| Middlewares.OffSiteNeverRendered | yc_scraper/middlewares.py:157 | a URL without `ycombinator.com` is never sent to the browser |
| Middlewares.ListingSuffixRendered | yc_scraper/middlewares.py:148-157 | a site URL ending in `/companies` is a main listing, is not a company page, and is rendered |
| Middlewares.CompanyPageNeverRendered | yc_scraper/middlewares.py:155-157 | a company detail URL (`/companies/<slug>`) is never rendered |
| Middlewares.Observe | yc_scraper/middlewares.py:246-273 | one sample: an unchanged height counts towards stability, a changed height resets the count and is remembered, and the best link count is kept. The loop stops exactly when this is the fifth or a later unchanged sample in a row and at least 1000 links are loaded |
| Middlewares.ScrollStep | yc_scraper/middlewares.py:244-275 | sampling happens only on every fifth attempt; a failed sample (the swallowed exception) changes nothing; stopping requires 1000 links and five stable samples |
| Middlewares.Scroll | yc_scraper/middlewares.py:231-279 | the loop's outcome. It never runs past attempt 501 or past the time budget. Running out of time happens at or below attempt 500. The cap exits at exactly 501 attempts. A stable exit happens on a sampling attempt within the budget, with at least five unchanged heights in a row and at least 1000 links |
| Middlewares.ScrollBounded | yc_scraper/middlewares.py:277-279 | from the initial state the loop runs at most 501 iterations and never more than the time allows |
| Middlewares.NoEarlyExitBelowThousand | yc_scraper/middlewares.py:264-270 | if no sample ever shows 1000 links, the loop never stops for stability: it runs until the time budget or the cap `scroll_attempts > 500` ends it |
| Middlewares.FailedSamplesOnlyCount | yc_scraper/middlewares.py:245-275 | when every sample fails, the loop changes nothing but the attempt counter |
| Middlewares.ScrollUntilLoaded | yc_scraper/middlewares.py:231-279 | the `while` loop with its two `break`s computes exactly `Scroll` from the initial counters, in at most 501 iterations |
| Middlewares.FindCompanyLinks | yc_scraper/middlewares.py:353 | every returned link is a match of `/companies/[^"'<>?\s]+`: it starts with `/companies/`, has no excluded character and cannot be extended on the right. `FindCompanyLinksComplete` states that no match is lost |
| Middlewares.FindCompanyLinksComplete | yc_scraper/middlewares.py:353 | the longest match at any position ends some returned link: it is that link when the scan stops there, and a suffix of an earlier link when it starts inside one |
| Middlewares.KeepNonAssetLinks | yc_scraper/middlewares.py:355-356 | the filter keeps exactly the links whose lower-case form ends in none of the ten asset extensions, in their original order and with every copy. A kept link occurs as many times as in the input, and a dropped one not at all |
| Middlewares.PageSourceLinksWellFormed | yc_scraper/middlewares.py:348-356 | every counted link occurs in the page source, starts with `/companies/`, has no quote, angle bracket, `?` or whitespace, and is not an asset file; a source under 1000 characters is not scanned |
| Middlewares.PageSourceLinks | yc_scraper/middlewares.py:348-357 | a source under 1000 characters gives no links. From a longer source every non-asset link of the scan is counted as often as the scan found it, and no asset link is. Every counted link starts with `/companies/`, cannot be extended on the right within the source, and is not an asset file |
| Middlewares.ProcessPage | yc_scraper/middlewares.py:231-367 | the page content comes back unchanged. The scroll runs at most 501 iterations and never past the time budget. A source under 1000 characters gives no links. Every counted link occurs in the source, starts with `/companies/` and is not an asset file |
| Middlewares.PlaywrightMiddleware.constructor | yc_scraper/middlewares.py:65-70 | a new middleware is uninitialised, with no event loop and no browser context |
| Middlewares.PlaywrightMiddleware.InitializePlaywright | yc_scraper/middlewares.py:91-115 | lazy initialisation succeeds at once when already initialised. Otherwise it obtains an event loop, and it succeeds and marks the middleware initialised exactly when the browser launch succeeds. A context exists whenever the middleware is initialised |
| Middlewares.PlaywrightMiddleware.ProcessRequest | yc_scraper/middlewares.py:145-186 | an unrendered URL passes through with no state change. Otherwise the browser is started if needed, after which an event loop exists and a context exists exactly when one existed before or the launch succeeded. A response comes back exactly when the session is up, the page loaded and its content is non-empty, and that response carries the URL and the page content |
| Spider.Candidates | yc_scraper/spiders/yc_companies_spider.py:20-30 | every candidate comes from one of the three selections. There are none exactly when all three selections are empty. The anchors come before the cards, and the loose `companies` anchors are read only when both are empty |
| Spider.FirstOccurrences | yc_scraper/spiders/yc_companies_spider.py:34-44 | the positions processed are exactly the first occurrences of each `/companies/` href, in increasing order |
| Spider.FirstOccurrenceIsUnseen | yc_scraper/spiders/yc_companies_spider.py:42-44 | a position is a first occurrence exactly when its href holds `/companies/` and is not yet in `processed_urls` |
| Spider.ListingItem | yc_scraper/spiders/yc_companies_spider.py:47-55 | a truthy heading text gives the stripped heading as the name; else a truthy name-class text; else a truthy first text. When all three are falsy there is no name. No other field is set |
| Spider.Harvest | yc_scraper/spiders/yc_companies_spider.py:36-62 | at most one request per candidate element; `HarvestAtFirstOccurrences` states which ones |
| Spider.HarvestAtFirstOccurrences | yc_scraper/spiders/yc_companies_spider.py:36-62 | `parse` yields one request per first occurrence, in order, each to the joined URL with its listing item |
| Spider.Parse | yc_scraper/spiders/yc_companies_spider.py:14-62 | the loop with its `processed_urls` set yields exactly the harvest of the candidate elements |
| Spider.RequestHrefsDistinct | yc_scraper/spiders/yc_companies_spider.py:42-44 | no two requests come from the same href |
| Spider.EveryCompanyHrefRequested | yc_scraper/spiders/yc_companies_spider.py:38-44 | every candidate whose href holds `/companies/` has its href requested |
| Spider.CleanTitle | yc_scraper/spiders/yc_companies_spider.py:75 | the cleaned name is trimmed and no longer than the title; a title without the suffix is only stripped |
| Spider.CleanTitleDropsSuffix | yc_scraper/spiders/yc_companies_spider.py:75 | a title made of a trimmed non-empty name and then the Y Combinator title suffix, where the suffix does not also start inside the name, cleans to the name |
| Spider.SuffixOnlyTitleKeepsBar | yc_scraper/spiders/yc_companies_spider.py:75 | a title that is only the suffix cleans to the suffix minus its leading space: the first `strip()` removes that space, so the suffix no longer matches |
| Spider.DetailName | yc_scraper/spiders/yc_companies_spider.py:68-75 | a truthy carried name is kept. Otherwise a truthy heading gives the cleaned heading; else a truthy title gives the cleaned title; else the carried value stays |
| Spider.FirstOffsite | yc_scraper/spiders/yc_companies_spider.py:81-84 | the index of the first link that names none of the four domains, or the list length when there is none |
| Spider.ScanForWebsite | yc_scraper/spiders/yc_companies_spider.py:79-84 | the `for`/`break` scan returns the first offsite link, or `''` |
| Spider.Website | yc_scraper/spiders/yc_companies_spider.py:79-94 | the stored website is always stripped. A non-empty first-pass link gives that link stripped. Without a first-pass link, the first truthy answer of the filtered, `data-website` and `.website` queries gives that answer stripped, and when none answers the website is `''` |
| Spider.FirstPassWebsiteIsOffsite | yc_scraper/spiders/yc_companies_spider.py:81-94 | a website found by the first pass is that link stripped and still names none of the four domains |
| Spider.SubstringTestRejectsDropbox | yc_scraper/spiders/yc_companies_spider.py:82 | the `x.com` substring test rejects `https://www.dropbox.com` |
| Spider.FallbackWebsiteUnfiltered | yc_scraper/spiders/yc_companies_spider.py:86-94 | a LinkedIn URL from `data-website` becomes the website: the fallback is not filtered |
| Spider.FilteredFallbackNeverUsed | yc_scraper/spiders/yc_companies_spider.py:79-94 | when the CSS-filtered query answers with one of the `http` links, the first pass has already found a website, and that answer never changes the stored website |
| Spider.NonBlankNames | yc_scraper/spiders/yc_companies_spider.py:111-112 | every kept name is non-empty, trimmed and the stripped form of a non-blank candidate. No more names than candidates. The list is empty exactly when every candidate is falsy or blank |
| Spider.NonBlankNamesComplete | yc_scraper/spiders/yc_companies_spider.py:111-112 | the stripped form of every non-blank candidate is kept |
| Spider.PresentValues | yc_scraper/spiders/yc_companies_spider.py:115-122 | the kept links are exactly the truthy query results |
| Spider.FirstThree | yc_scraper/spiders/yc_companies_spider.py:131 | `links[:3]`: the first three links, or all of them when there are fewer |
| Spider.FounderFallback | yc_scraper/spiders/yc_companies_spider.py:124-136 | with section names, the page-wide fallback does not run. Without them and with LinkedIn links on the page, every LinkedIn link is taken, and at most three names come from the texts next to the first three links |
| Spider.CollectFounderSections | yc_scraper/spiders/yc_companies_spider.py:104-122 | the section loop collects the non-blank names and the present LinkedIn and Twitter links |
| Spider.FounderNames | yc_scraper/spiders/yc_companies_spider.py:104-136 | every founder name is non-empty and trimmed; there are at most as many as founder sections, or at most three from the page-wide fallback |
| Spider.FounderLinkedin | yc_scraper/spiders/yc_companies_spider.py:114-129 | every founder LinkedIn link is one of the page's LinkedIn links or the non-empty link of some founder section |
| Spider.FounderTwitter | yc_scraper/spiders/yc_companies_spider.py:119-141 | when some founder section has a truthy Twitter link, the links are exactly the sections' non-empty Twitter links. When none has, they are exactly the page-wide Twitter links. Every link comes from one of the two sources |
| Spider.SetJoinSameValues | yc_scraper/spiders/yc_companies_spider.py:144-146 | a set join depends only on which values were collected |
| Spider.ChooseWebsite | yc_scraper/spiders/yc_companies_spider.py:79-94 | the website code computes `Website` |
| Spider.NamesNearLinkedin | yc_scraper/spiders/yc_companies_spider.py:131-136 | the fallback name loop collects the non-blank texts next to the first three LinkedIn links |
| Spider.ParseCompanyDetail | yc_scraper/spiders/yc_companies_spider.py:64-152 | an item is yielded exactly when it ends up with a truthy company name. The name is the carried one, else the cleaned heading or title. The website is `Website`. Each founder field is a set join of the founder values |
| Pipelines.RowOf | yc_scraper/pipelines.py:22-28 | every stored row has exactly the five internal keys |
| Pipelines.ItemOf | yc_scraper/pipelines.py:22-28 | the inverse of `RowOf` used by `RowRoundTrip`: reading a stored row back gives each field the value under its key |
| Pipelines.RowRoundTrip | yc_scraper/pipelines.py:22-29 | an item with all five fields set is stored without loss |
| Pipelines.RowCells | yc_scraper/pipelines.py:22-28 | each cell is its field's text, and a field the item never set is stored as `''` |
| Pipelines.Rename | yc_scraper/pipelines.py:41-49 | an internal key gets a display name from the fixed order, and a column outside the mapping keeps its name |
| Pipelines.Unrename | yc_scraper/pipelines.py:41-49 | the inverse of `Rename` used by `RenameAligned` and `ExportOfRows`: every display name maps back to an internal key |
| Pipelines.RenameAligned | yc_scraper/pipelines.py:41-58 | the rename sends the i-th internal key to the i-th display name, and undoing it gives the key back |
| Pipelines.RenameOneToOne | yc_scraper/pipelines.py:41-49 | no two internal keys share a display name |
| Pipelines.RenameOnto | yc_scraper/pipelines.py:41-58 | every display name is the rename of an internal key |
| Pipelines.UnrenameUndoesRename | yc_scraper/pipelines.py:41-49 | undoing the rename of any internal key gives the key back |
| Pipelines.KeepPresent | yc_scraper/pipelines.py:61 | the output columns are exactly the display names present, as a subsequence of the fixed order |
| Pipelines.KeepPresentAll | yc_scraper/pipelines.py:52-61 | when every display name is present, the columns are the fixed order itself |
| Pipelines.Export | yc_scraper/pipelines.py:33-61 | no sheet when no item was collected; otherwise the header is a subsequence of the fixed order, there is one row per item, and each row spans the header |
| Pipelines.ExportOfRows | yc_scraper/pipelines.py:38-61 | for stored rows, the header is the five display names in order and each cell holds the row's value under the matching key |
| Pipelines.CellOf | yc_scraper/pipelines.py:61 | a cell under a display name holds the row's value under the internal key renamed to it, and is empty when no key of the row renames to it |
| Pipelines.MaxCellLength | yc_scraper/pipelines.py:95-104 | `max_length` bounds every cell length and is either 0 or the length of some cell |
| Pipelines.AdjustedWidth | yc_scraper/pipelines.py:107 | a column width always lies between 2 and 50 |
| Pipelines.FalsyColumnWidth | yc_scraper/pipelines.py:100 | a column whose cells are all empty or missing gets width 2 |
| Pipelines.LongCellCapsWidth | yc_scraper/pipelines.py:107 | a cell of 48 characters or more gives the column the cap of 50 |
| Pipelines.ExcelExportPipeline.constructor | yc_scraper/pipelines.py:16-17 | a new pipeline holds no rows |
| Pipelines.ExcelExportPipeline.ProcessItem | yc_scraper/pipelines.py:19-30 | exactly one row is appended, the earlier rows are unchanged, every row keeps its five keys, and the item is passed on unchanged |
| Pipelines.ExcelExportPipeline.ColumnWidth | yc_scraper/pipelines.py:94-108 | the width loop computes `min(longest cell + 2, 50)`, which lies in [2, 50] |
| Pipelines.ExcelExportPipeline.ColumnWidths | yc_scraper/pipelines.py:94-108 | one width per column, each the adjusted width of that column and each in [2, 50] |
| Pipelines.ExcelExportPipeline.CloseSpider | yc_scraper/pipelines.py:32-71 | with no rows nothing is exported. Otherwise the sheet has the five display names in order, one row per item with each cell taken from the matching key, and every column gets its adjusted width |

## Left out

- Browser I/O, `asyncio` and the event loop are reduced to inputs: navigation, waits, JavaScript evaluation, `page.content()` and page closing. The launch of the browser is a boolean input. The steps of `_async_init_playwright` are not modelled, nor the partial state they leave when a later step fails.
- The wall clock of the scroll loop is not modelled. It is replaced by the number of iterations the 60 seconds allow.
- The JavaScript DOM query for company links (`company_links_js`) and the final link count only feed log messages and the debug dump. They are not modelled.
- Printing, logging, the progress message every 100 companies and the `debug_page_source.html` dump are not modelled.
- The 20 ms, 3 s and 10 s waits are not modelled; they are timing only.
- `spider_closed` and `_async_cleanup` are not modelled: they release browser resources and change no observable state of the model.
- The pass-through hooks of `YcScraperSpiderMiddleware` and `YcScraperDownloaderMiddleware` are not modelled; they hold no logic.
- CSS and XPath selection, `response.urljoin` and the parent-element lookup are inputs.
- Spider.ParseCompanyDetail: does not model the selector syntax error that the parent lookup `a[href="<link>"]` raises when one of the first three LinkedIn hrefs holds a double quote or a line break. The source then ends the callback without an item; the model yields it.
- The Twitter query at `yc_companies_spider.py:120` and `:140` is an input, treated as an opaque string. Its first alternative lacks `::attr(href)`, so it yields anchor markup rather than an href.
- The order in which a Python `set` yields its values is not modelled. The founder joins are specified only as joins of some duplicate-free enumeration of the values.
- Strings.Lower: models `str.lower()` on ASCII letters only. This is exact for the test it serves, because the ten extensions are ASCII and no non-ASCII character lowers to one of their letters in a way that ends a link with them.
- The pandas DataFrame, `to_excel`, openpyxl loading, styling, row height, frozen panes and saving are not modelled. The sheet value stands for the written table.
- Cell values other than strings are not modelled, nor the exception path of `_format_excel_file` and `close_spider`.
- Pipelines.Export: models the header from the set of column names present. It does not model how pandas orders columns before the reorder, since the reorder makes that order irrelevant.
- The Scrapy settings, the crawl scheduling and the start URL's batch filter are not modelled; they are configuration, not logic.
