# Amazon crawlability and scraping tool — verified model

This project models the decision logic of a small crawling tool for
amazon.com, in Dafny, and proves properties of it. Three pieces are
modelled:

- **The page fetcher** (`api.py`):
  - the user-agent fallback;
  - the script-density verdict of a page;
  - the extraction of article links;
  - the scroll loop;
  - the retry loop that opens one browser session per attempt, hides the
    automation flag, loads the page, scrolls, saves, quits the session and
    backs off before the next attempt.
- **The robots.txt permission checker** (`crawl.py`): the class
  `CrawlabilityChecker`, which loads the site's policy once and fails closed
  when loading fails. It judges a URL by its path alone. That path is
  computed the way `urllib.parse.urlparse(url).path` computes it.
- **The dashboard's crawlability score** (`dashboard.py`): the stand-in
  checker that refuses URLs containing `signin` or `wishlist`, the table of
  verdicts, and the percentage of allowed URLs.

Modules:

| file | module | contents |
|---|---|---|
| `base.dfy` | `Base` | `Option`, `Result`, and the Python string operations used (`startswith`, `in`, `find`, `rfind`) |
| `urlparse.dfy` | `UrlParse` | `urlparse(url).path` as CPython 3.12 computes it |
| `crawl.dfy` | `Crawl` | the class `CrawlabilityChecker` |
| `api.dfy` | `Api` | the fetcher and its retry loop |
| `dashboard.dfy` | `Dashboard` | the stand-in checker and the score |

Outside effects become inputs.

- **The browser.** What it does in attempt `k` is the input `world(k)`:
  - the session cannot be started;
  - hiding the automation flag raises;
  - a statement of the `try` block raises: loading the page or waiting
    for the title, the scroll after a given number of completed scrolls,
    reading or parsing the page, or the `driver.quit()` after saving; the
    handler's own `driver.quit()` then returns or raises in turn;
  - or every step succeeds, with a given title and page.
- **A `driver.quit()` that raises** is recorded as its own event. The
  session is taken to stay open after it.
- **The run's effects.** Opening a session, visiting, scrolling, sleeping,
  saving and quitting are recorded as a trace of events.
  `ScrapeWithRetry` is an imperative loop. It is proved to produce exactly
  the trace and outcome of the recursive definition `RunFrom`. The
  properties of runs are proved about `RunFrom`.
- **The robots parser.** `RobotFileParser.read()` is an input, and
  `can_fetch` is an oracle over (user agent, path).
- **The HTML parser.** A page is the list of its tag names and the `href`
  of each anchor under an `article`.

Consequences of the code that the model makes explicit:

- The options, and with them the user agent, are built once before the loop
  (`api.py:81`), so every session of a run uses one user agent
  (`RunFromOpens`).
- Session creation and `remove_webdriver_flag` sit outside the `try`
  (`api.py:84-85`). A failure there escapes and is not retried, and a failed
  flag removal leaves its session open (`RunFromReleases`).
- The `driver.quit()` in the handler (`api.py:114`) is outside any `try`.
  When it raises, the exception escapes and the session stays open.
- The `driver.quit()` after saving (`api.py:110`) is inside the `try`. When
  it raises, the attempt counts as failed and the handler quits again.
  When attempts remain and the next one succeeds, `save_links_to_excel` is
  called once more (`SavedAgainAfterQuitFails`). When it was the last
  attempt, the run reports that it gave up although the page was saved
  (`SavedButExhausted`).
- `set_url` parses the robots URL (`crawl.py:13`). A host with an unbalanced
  bracket raises `ValueError`, which escapes `__init__` before `read()` runs.
- `can_crawl` asks the rules about `urlparse(url).path` only (`crawl.py:25`).
  The query is discarded, not kept as part of the path.
- With an empty URL list, `pd.DataFrame([])` has no `Allowed` column. So
  `df_crawl["Allowed"]` raises `KeyError` before any division by zero.
  `CrawlScore` returns that error.

## Model

| member | source | states |
|---|---|---|
| Api.UserAgent | api.py:14-19 | the random user agent when one was produced, the fixed Chrome 115 literal when producing it raised |
| Api.ScriptTagCount | api.py:54 | the number of `script` tags is at most the number of tags; it is zero exactly when no tag is `script`, and equals the tag count exactly when every tag is |
| Api.HeavyIffRatioAbove | api.py:55-57 | the division-free test `10*script > 3*total` holds exactly when the script ratio exceeds 0.3, and never for an empty document |
| Api.IsHeavyJavaScript | api.py:51-57 | heavy exactly when script tags / all tags > 0.3; an empty document and a ratio of exactly 0.3 are light |
| Api.CollectedMembers | api.py:62-66 | a link is collected exactly when it is `https://www.amazon.com` followed by some anchor's non-empty `href` starting with `/` |
| Api.LinksAreRooted | api.py:64-66 | every link starts with `https://www.amazon.com/` and the rest of it is a qualifying `href` of the page |
| Api.NonQualifyingIgnored | api.py:65 | an anchor whose `href` is missing, empty or not rooted at `/` leaves the links unchanged |
| Api.LinkCountIsDistinctHrefCount | api.py:66-67 | there are exactly as many links as distinct qualifying `href` values |
| Api.ExtractArticleLinks | api.py:60-67 | the result has no duplicates, holds exactly the links of the page, and has as many elements as there are distinct qualifying `href` values |
| Api.ScrollEventsShape | api.py:44-48 | `n` scrolls each followed by one pause, `2n` events, none when `n` is not positive |
| Api.ScrollDown | api.py:44-48 | the loop appends exactly the scroll events of `max_scrolls` scrolls; when `execute_script` raises on scroll `i`, it stops with the `i` scrolls before it, and it raises exactly when `i < max_scrolls` |
| Api.ScrollingIsQuiet | api.py:44-48 | scrolling stays inside the open session, starts no session and never backs off |
| Api.CaptureIsQuiet | api.py:92-93 | scrolling and the settle pause stay inside the open session and contain no backoff |
| Api.ProgressIsQuiet | api.py:87-110 | whatever part of the `try` block ran before the exception stays inside the open session, starts none and never backs off |
| Api.FailedAttemptFacts | api.py:84-117 | a caught failure opens one session with the chosen user agent, quits it, and backs off once exactly when attempts remain |
| Api.AbandonedAttemptFacts | api.py:84-114 | when the handler's `driver.quit()` raises, the attempt opened one session with the chosen user agent, leaves it open and never backs off |
| Api.SavedAttemptFacts | api.py:84-111 | a saved page opens one session, quits it after saving, and never backs off |
| Api.OneAttempt | api.py:84-119 | one loop pass: the loop goes on exactly when the `try` block raised and the handler's `driver.quit()` returned; the trace is extended by that attempt's events; a saved outcome carries the page title, the density verdict and exactly the page's links without duplicates |
| Api.RunFrom | api.py:82-119 | the reference definition of the retry loop from a given attempt: a run that saved or raised did so on an attempt between that one and `max_retries` |
| Api.RunFromRetried | api.py:112-119 | after a caught failure the run is that attempt's events followed by the run from the next attempt |
| Api.ScrapeWithRetry | api.py:80-119 | the loop produces exactly the trace and outcome of `RunFrom` from attempt 1, with one user agent; a saved outcome carries the title, verdict and links of the attempt's page |
| Api.RunFromStops | api.py:82-119 | after only caught failures, the run saves on the first attempt on which every step succeeds; it raises on an attempt whose session cannot be started or prepared or whose handler's `driver.quit()` raises; it gives up only if every attempt failed inside the `try` and was cleaned up |
| Api.RunFromCounts | api.py:82-119 | one session per attempt made (none for a session that could not start); one 5-second backoff between consecutive attempts, so `N` failed attempts sleep `N-1` times |
| Api.RunFromReleases | api.py:84-117 | sessions never overlap, the browser is used only inside one, and every session is quit unless an exception escaped after it started: a failed flag removal or a failed `driver.quit()` in the handler |
| Api.RunFromOpens | api.py:81-84 | every session is started with the one user agent chosen before the loop, for an attempt between 1 and `max_retries` |
| Api.AttemptsBounded | api.py:82 | at most `max_retries` sessions; nothing happens when `max_retries` is not positive |
| Api.AlwaysTimingOut | api.py:80-119 | with the default three retries and every title wait failing: three sessions, each opened, visited and quit, with two backoffs, then giving up |
| Api.SavedAgainAfterQuitFails | api.py:106-117 | when the `driver.quit()` after saving raises and the next attempt succeeds, the run succeeds on attempt 2 and `save_links_to_excel` is called twice |
| Api.SavedButExhausted | api.py:82-119 | with `max_retries=1` and the `driver.quit()` after saving raising, `save_links_to_excel` is called once and the run still ends by giving up |
| UrlParse.Parse | crawl.py:25 | the path component never contains `?` or `#` |
| UrlParse.Path | crawl.py:25 | `urlparse(url).path` exists exactly when the URL parses, and never contains `?` or `#` |
| UrlParse.PathOfAbsoluteUrl | crawl.py:25 | for `scheme://host/path?query#fragment`, the path is `/path` whatever the scheme, host, query and fragment |
| Crawl.CrawlabilityChecker.constructor | crawl.py:6-8 | the robots URL, `https://www.amazon.com/robots.txt` by default, is stored and a fresh, unread parser is created |
| Crawl.CrawlabilityChecker.LoadRobotsTxt | crawl.py:11-18 | a successful read leaves the parser loaded with the rules it then applies; `URLError` or `HTTPError` sets the parser to `None`; any other exception from `read()` escapes; a robots URL that `urlparse` refuses makes `set_url` raise `ValueError` before reading; an escaping exception changes only the parser's URL and keeps any rules it had loaded; with no parser, `set_url` raises |
| Crawl.CrawlabilityChecker.Create | crawl.py:6-18 | construction fails exactly when the robots URL does not parse or `read()` raised something other than `URLError` or `HTTPError`; otherwise the checker is valid, and its parser is `None` exactly after an absorbed failure, so `can_crawl` refuses everything |
| Crawl.CrawlabilityChecker.CanCrawl | crawl.py:20-29 | refused without a parser; otherwise the parser's `can_fetch` verdict on the URL's path, with `*` as the default agent; a URL whose host has an unbalanced bracket raises `ValueError` while the path is extracted |
| Crawl.SamePathSameVerdict | crawl.py:25-26 | two URLs with the same path get the same verdict |
| Crawl.JudgedByPath | crawl.py:20-29 | a loaded checker returns its rules' verdict for agent `*` on whatever path the URL reduces to |
| Crawl.SiteUrlPath | crawl.py:25 | for `https://www.amazon.com` followed by a rooted path and an optional query or fragment, the path is that rooted path |
| Crawl.SearchUrlPath | crawl.py:25 | the path of `https://www.amazon.com/s?k=smartphones` is `/s` |
| Crawl.SearchUrlJudgedByPath | crawl.py:25-26 | a valid checker with a parser judges the search URL by its rules for `/s` |
| Crawl.SigninRefusedByRules | crawl.py:25-29 | a valid checker whose rules disallow `/ap/signin` refuses the sign-in page |
| Crawl.ProductAllowedByRules | crawl.py:25-29 | a valid checker whose rules allow `/dp/B09G3HRMVP` accepts that product page |
| Base.Contains | dashboard.py:20 | Python's `word in url`: the empty word occurs in every URL, and a word longer than the URL occurs in none |
| Base.ContainsIffOccurs | dashboard.py:20 | the left-to-right search finds the word exactly when it occurs at some index of the URL |
| Dashboard.AnyKeywordIn | dashboard.py:20 | true exactly when some keyword occurs as a substring of the URL |
| Dashboard.StubCanCrawl | dashboard.py:16-20 | allowed exactly when neither `signin` nor `wishlist` occurs anywhere in the URL |
| Dashboard.KeywordRefused | dashboard.py:19-20 | any URL containing `signin` or `wishlist` anywhere is refused |
| Dashboard.LackingLettersAllowed | dashboard.py:20 | a URL missing a letter of each keyword is allowed |
| Dashboard.SitePageAllowed | dashboard.py:16-20 | every amazon.com URL whose path and query lack a `g` and an `i` is allowed |
| Dashboard.Results | dashboard.py:66 | one row per URL, in order, each carrying the URL and its verdict |
| Dashboard.AllowedCount | dashboard.py:71 | the sum of the `Allowed` column is at most the number of rows |
| Dashboard.AllowedCountCountsRows | dashboard.py:71 | the allowed count is the number of positions whose row is allowed |
| Dashboard.AllowedCountExtremes | dashboard.py:71-72 | the allowed count equals the row count exactly when every row is allowed, and is zero exactly when none is |
| Dashboard.CrawlScore | dashboard.py:71-73 | on a non-empty table the score is 100 × allowed / total and lies between 0 and 100; an empty table raises `KeyError` |
| Dashboard.DashboardScore | dashboard.py:58-73 | of the five URLs checked, home, search and product pages are allowed and sign-in and wish list refused, so the score is 60 |

## Left out

- Browser options and the script injection (`api.py:22-41`) are left out. The browser is external; which of its calls raises is an input.
- Exceptions from `print` and `time.sleep` are not modelled. `KeyboardInterrupt` and other exceptions that `except Exception` does not catch are left out.
- Api.RunFromReleases: whether a `driver.quit()` that raised still ended the browser process is unknown. The model takes the session to stay open.
- The title predicate and the 10-second wait (`api.py:88`) are left out. A wait that fails is one `LoadFails` behaviour.
- Console output from `print` is not modelled, nor are the progress messages.
- BeautifulSoup parsing and the `article a` selector are left out. A page is given as its tag names and its anchors' `href` values.
- `urllib.robotparser` internals and the network fetch of robots.txt are left out. `read()` is an input and `can_fetch` an oracle.
- Crawl.CrawlabilityChecker.CanCrawl: `can_fetch` is taken never to raise. CPython's `can_fetch` parses the unquoted path again, so a path such as `//[x` (from `https://www.amazon.com//[x`) raises `ValueError` inside it; that exception is not modelled.
- Crawl.CrawlabilityChecker.LoadRobotsTxt: when a parser that had already read reads again, CPython adds the new entries to the old ones. The model does not compute that merge; the rules `read()` reports stand for the parser after the call.
- `fake_useragent` randomness is left out. Its outcome, a value or an exception, is an input.
- Sleeps are events in the trace, not real time.
- Writing the Excel file (`api.py:70-77`) becomes one `Save` event, the call to `save_links_to_excel`. That function catches its own exceptions, so a failed write is silent and never causes a retry; a `Save` event does not mean the file was written.
- CSV writing and reading, the Streamlit page, the charts and the sitemap graph (`dashboard.py:22-157`, apart from lines 57-73) are left out. They are display code.
- Module-level usage scripts (`crawl.py:31-84`, `api.py:122-124`) are left out. They are examples, not logic.
- The URL's network location is checked only for an unbalanced bracket. `urlsplit` also validates bracketed hosts and NFKC-normalised hosts and may raise `ValueError` there. Those checks are not part of this model.
- Api.IsHeavyJavaScript: the ratio is exact where Python divides in floating point. The two verdicts agree unless the tag counts are astronomically large, so rounding could tip a ratio within one unit in the last place of 0.3.
- Dashboard.CrawlScore: the score is an exact rational. The `.1f` formatting of the percentage is not modelled.
- Api.ScrapeWithRetry: the function returns nothing. The outcome and the trace stand for what it prints, saves and does to the browser.
