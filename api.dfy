/** The page fetcher of api.py: the user-agent fallback, the script-density
    verdict, article-link extraction, the scroll loop and the retry loop
    that opens one browser session per attempt.

    The browser, the HTML parser and the clock are not modelled. A page is
    given as the names of its tags and the `href` of each anchor under an
    `article`. What the browser does in each attempt is an input, and the
    effects of a run are recorded as a trace of events. */
module Api {
  import opened Base

  // ---------------------------------------------------------------------
  // User agent

  const FallbackUserAgent := "Mozilla/5.0 (Windows NT 10.0; Win64; x64) AppleWebKit/537.36 (KHTML, like Gecko) Chrome/115.0.0.0 Safari/537.36"

  /** `get_user_agent()`: the random value `fake_useragent` produced, or the
      fixed literal when producing it raised (`random` is `None`). */
  function UserAgent(random: Option<string>): (ua: string)
    ensures random.None? ==> ua == FallbackUserAgent
    ensures random.Some? ==> ua == random.value
  {
    match random
    case Some(value) => value
    case None => FallbackUserAgent
  }

  // ---------------------------------------------------------------------
  // Script density

  /** `len(soup.find_all('script'))` over the tag names of a document. */
  function ScriptTagCount(tags: seq<string>): (n: nat)
    ensures n <= |tags|
    ensures n == 0 <==> forall i :: 0 <= i < |tags| ==> tags[i] != "script"
    ensures n == |tags| <==> forall i :: 0 <= i < |tags| ==> tags[i] == "script"
  {
    if tags == [] then 0
    else ScriptTagCount(tags[..|tags| - 1]) + (if tags[|tags| - 1] == "script" then 1 else 0)
  }

  /** The ratio the source computes in floating point, here exact. */
  ghost function Ratio(scriptTags: nat, totalTags: nat): real {
    if totalTags > 0 then scriptTags as real / totalTags as real else 0.0
  }

  /** `ratio > 0.3` on integer counts, without division. */
  function HeavyVerdict(scriptTags: nat, totalTags: nat): bool {
    totalTags > 0 && 10 * scriptTags > 3 * totalTags
  }

  /** The division-free verdict agrees with the ratio test, both ways, and
      an empty document is light. */
  lemma HeavyIffRatioAbove(scriptTags: nat, totalTags: nat)
    ensures HeavyVerdict(scriptTags, totalTags) <==> Ratio(scriptTags, totalTags) > 0.3
    ensures totalTags == 0 ==> !HeavyVerdict(scriptTags, totalTags)
  {
    if totalTags > 0 {
      var s, t := scriptTags as real, totalTags as real;
      var r := s / t;
      DivideThenMultiply(s, t);
      Distribute(r, 0.3, t);
      SignOfProduct(r - 0.3, t);
      assert (10 * scriptTags) as real == 10.0 * s && (3 * totalTags) as real == 3.0 * t;
    }
  }

  /** `is_heavy_javascript(content)` on the tag names of the parsed page. */
  function IsHeavyJavaScript(tags: seq<string>): (heavy: bool)
    ensures heavy <==> Ratio(ScriptTagCount(tags), |tags|) > 0.3
    ensures tags == [] ==> !heavy
    ensures 10 * ScriptTagCount(tags) == 3 * |tags| ==> !heavy
  {
    HeavyIffRatioAbove(ScriptTagCount(tags), |tags|);
    HeavyVerdict(ScriptTagCount(tags), |tags|)
  }

  // ---------------------------------------------------------------------
  // Article links

  /** `href and href.startswith("/")` */
  predicate Qualifies(href: Option<string>) {
    href.Some? && href.value != "" && StartsWith(href.value, "/")
  }

  /** The list the loop of `extract_article_links` builds, before the
      duplicates are dropped. */
  function Collected(anchors: seq<Option<string>>): seq<string> {
    if anchors == [] then []
    else
      var href := anchors[|anchors| - 1];
      Collected(anchors[..|anchors| - 1]) + (if Qualifies(href) then [Origin + href.value] else [])
  }

  /** The links of a page: the set `list(set(links))` enumerates. */
  function ArticleLinks(anchors: seq<Option<string>>): set<string> {
    set link | link in Collected(anchors)
  }

  /** The distinct qualifying `href` values of a page. */
  ghost function QualifyingHrefs(anchors: seq<Option<string>>): set<string> {
    set i | 0 <= i < |anchors| && Qualifies(anchors[i]) :: anchors[i].value
  }

  /** No element repeats. */
  predicate Distinct(s: seq<string>) {
    forall i, j :: 0 <= i < j < |s| ==> s[i] != s[j]
  }

  /** A link is collected exactly when it is the origin followed by some
      anchor's `href` that is present, non-empty and rooted at `/`. */
  lemma {:induction false} CollectedMembers(anchors: seq<Option<string>>, link: string)
    ensures link in Collected(anchors) <==>
      exists i :: 0 <= i < |anchors| && Qualifies(anchors[i]) && link == Origin + anchors[i].value
  {
    if anchors != [] {
      var init := anchors[..|anchors| - 1];
      CollectedMembers(init, link);
      forall i | 0 <= i < |init| ensures init[i] == anchors[i] { }
    }
  }

  /** Every link is the origin followed by a rooted path. */
  lemma LinksAreRooted(anchors: seq<Option<string>>, link: string)
    requires link in ArticleLinks(anchors)
    ensures StartsWith(link, Origin + "/")
    ensures link[|Origin|..] in QualifyingHrefs(anchors)
  {
    CollectedMembers(anchors, link);
    var i :| 0 <= i < |anchors| && Qualifies(anchors[i]) && link == Origin + anchors[i].value;
    var href := anchors[i].value;
    assert link[|Origin|..] == href;
    assert (Origin + href)[..|Origin| + 1] == Origin + href[..1];
  }

  /** Anchors that do not qualify leave the links unchanged. */
  lemma NonQualifyingIgnored(anchors: seq<Option<string>>, href: Option<string>)
    requires !Qualifies(href)
    ensures ArticleLinks(anchors + [href]) == ArticleLinks(anchors)
  {
    assert (anchors + [href])[..|anchors|] == anchors;
  }

  /** Prefixing the origin is one-to-one, so there are exactly as many links
      as distinct qualifying `href` values. */
  lemma {:induction false} LinkCountIsDistinctHrefCount(anchors: seq<Option<string>>)
    ensures |ArticleLinks(anchors)| == |QualifyingHrefs(anchors)|
  {
    if anchors == [] {
      assert ArticleLinks(anchors) == {};
      assert QualifyingHrefs(anchors) == {};
    } else {
      var init := anchors[..|anchors| - 1];
      var last := anchors[|anchors| - 1];
      LinkCountIsDistinctHrefCount(init);
      LastAnchor(anchors);
      if Qualifies(last) {
        LinkIsNewIffHrefIsNew(init, last.value);
      }
    }
  }

  /** The links and the qualifying `href` values of a page grow by its last
      anchor's, if it qualifies. */
  lemma LastAnchor(anchors: seq<Option<string>>)
    requires anchors != []
    ensures var init, last := anchors[..|anchors| - 1], anchors[|anchors| - 1];
      && ArticleLinks(anchors) == ArticleLinks(init) + (if Qualifies(last) then {Origin + last.value} else {})
      && QualifyingHrefs(anchors) == QualifyingHrefs(init) + (if Qualifies(last) then {last.value} else {})
  {
    var init := anchors[..|anchors| - 1];
    forall i | 0 <= i < |init| ensures init[i] == anchors[i] { }
  }

  lemma LinkIsNewIffHrefIsNew(init: seq<Option<string>>, href: string)
    ensures Origin + href in ArticleLinks(init) <==> href in QualifyingHrefs(init)
  {
    var link := Origin + href;
    if link in ArticleLinks(init) {
      CollectedMembers(init, link);
      var i :| 0 <= i < |init| && Qualifies(init[i]) && link == Origin + init[i].value;
      PrefixCancels(Origin, init[i].value, href);
    }
    if href in QualifyingHrefs(init) {
      var i :| 0 <= i < |init| && Qualifies(init[i]) && init[i].value == href;
      CollectedMembers(init, link);
    }
  }

  lemma PrefixCancels(p: string, a: string, b: string)
    requires p + a == p + b
    ensures a == b
  {
    assert a == (p + a)[|p|..];
    assert b == (p + b)[|p|..];
  }

  /** A duplicate-free list has as many elements as its set. */
  lemma {:induction false} DistinctCardinality(s: seq<string>)
    requires Distinct(s)
    ensures |set x | x in s| == |s|
  {
    if s != [] {
      var init := s[..|s| - 1];
      DistinctCardinality(init);
      assert (set x | x in s) == (set x | x in init) + {s[|s| - 1]} by {
        assert s == init + [s[|s| - 1]];
      }
      assert s[|s| - 1] !in init;
    }
  }

  /** `extract_article_links(html)`: collect the links in a list, then
      `list(set(links))`, whose order is unspecified. */
  method ExtractArticleLinks(anchors: seq<Option<string>>) returns (links: seq<string>)
    ensures Distinct(links)
    ensures forall link :: link in links <==> link in ArticleLinks(anchors)
    ensures |links| == |ArticleLinks(anchors)| == |QualifyingHrefs(anchors)|
  {
    var collected: seq<string> := [];
    var i := 0;
    while i < |anchors|
      invariant 0 <= i <= |anchors|
      invariant collected == Collected(anchors[..i])
    {
      var href := anchors[i];
      assert anchors[..i + 1][..i] == anchors[..i];
      if href.Some? && href.value != "" && StartsWith(href.value, "/") {
        collected := collected + [Origin + href.value];
      }
      i := i + 1;
    }
    assert anchors[..|anchors|] == anchors;
    var remaining := set link | link in collected;
    links := [];
    while remaining != {}
      invariant Distinct(links)
      invariant forall link :: link in links ==> link in collected && link !in remaining
      invariant forall link :: link in collected ==> link in links || link in remaining
      invariant forall link :: link in remaining ==> link in collected
      decreases remaining
    {
      var link :| link in remaining;
      links := links + [link];
      remaining := remaining - {link};
    }
    assert (set link | link in links) == ArticleLinks(anchors);
    DistinctCardinality(links);
    LinkCountIsDistinctHrefCount(anchors);
  }

  // ---------------------------------------------------------------------
  // Events of a scraping run

  /** What a run does outside the program. */
  datatype Event =
    | Open(attempt: nat, userAgent: string)   // `webdriver.Chrome(...)` starts a session
    | Visit(url: string)                      // `driver.get(url)`
    | Scroll                                  // `window.scrollTo(0, document.body.scrollHeight)`
    | Sleep(seconds: int)                     // `time.sleep(seconds)`
    | Save(title: string, rows: nat)          // `save_links_to_excel` is called with `rows` links and `title`
    | Quit(attempt: nat)                      // `driver.quit()` ends the session
    | QuitRaised(attempt: nat)                // `driver.quit()` raises; the session is taken to stay open

  const ScrollPause := 2
  const MaxScrolls := 3
  const SettleSeconds := 3
  const BackoffSeconds := 5

  /** The events of `scroll_down(driver, pause, n)`: `n` scrolls, each
      followed by a pause; none when `n` is not positive. */
  function ScrollEvents(pause: int, n: int): seq<Event>
    decreases n
  {
    if n <= 0 then [] else ScrollEvents(pause, n - 1) + [Scroll, Sleep(pause)]
  }

  /** Scroll `k` sits at index `2k` and its pause right after it. */
  lemma {:induction false} ScrollEventsShape(pause: int, n: int)
    ensures |ScrollEvents(pause, n)| == if n <= 0 then 0 else 2 * n
    ensures forall k :: 0 <= k < n ==>
      ScrollEvents(pause, n)[2 * k] == Scroll && ScrollEvents(pause, n)[2 * k + 1] == Sleep(pause)
    decreases n
  {
    if n > 0 {
      ScrollEventsShape(pause, n - 1);
    }
  }

  /** `scroll_down(driver, scroll_pause, max_scrolls)`, appending its events
      to `trace`. `raisesAt` is the scroll, counted from 0, on which
      `execute_script` raises, if any: the loop then stops with the
      scrolls before it done. */
  method ScrollDown(trace: seq<Event>, raisesAt: Option<nat>, scrollPause: int := ScrollPause, maxScrolls: int := MaxScrolls)
    returns (trace': seq<Event>, raised: bool)
    ensures raised <==> raisesAt.Some? && raisesAt.value < maxScrolls
    ensures trace' == trace + ScrollEvents(scrollPause, if raised then raisesAt.value else maxScrolls)
  {
    trace' := trace;
    var i := 0;
    while i < maxScrolls
      invariant 0 <= i && (maxScrolls >= 0 ==> i <= maxScrolls) && (maxScrolls <= 0 ==> i == 0)
      invariant raisesAt.Some? ==> i <= raisesAt.value
      invariant trace' == trace + ScrollEvents(scrollPause, i)
    {
      if raisesAt == Some(i) {
        return trace', true;
      }
      trace' := trace' + [Scroll];
      trace' := trace' + [Sleep(scrollPause)];
      i := i + 1;
    }
    raised := false;
  }

  // ---------------------------------------------------------------------
  // The retry loop

  /** A page as the parser sees it: every tag's name, and the `href` of
      every anchor inside an `article`. */
  datatype Page = Page(tags: seq<string>, anchors: seq<Option<string>>)

  /** The scrolls `scroll_down` can complete before one of them raises. */
  type CompletedScrolls = n: nat | n < MaxScrolls

  /** The statement of the `try` block that raises. */
  datatype Failure =
    | LoadFails                              // `driver.get`, the title wait or `driver.title`
    | ScrollFails(done: CompletedScrolls)    // `execute_script` on the scroll after `done` completed ones
    | CaptureFails                           // `driver.page_source` or parsing it, after the settle pause
    | QuitFails(title: string, page: Page)   // the `driver.quit()` after the links were saved

  /** What the browser does in one attempt. */
  datatype Attempt =
    | StartFails                                    // `webdriver.Chrome(...)` raises
    | FlagFails                                     // `remove_webdriver_flag(driver)` raises
    | Fails(failure: Failure, cleanupRaises: bool)  // the `try` block raises; so does the handler's `driver.quit()` when `cleanupRaises`
    | Loads(title: string, page: Page)              // everything succeeds

  /** The failures after which the loop goes on: raised inside the `try`
      block, and the handler's `driver.quit()` returns. */
  predicate Retried(a: Attempt) {
    a.Fails? && !a.cleanupRaises
  }

  /** How a run ends: saved on an attempt, out of attempts, or an exception
      escaped on an attempt. */
  datatype Status = Succeeded(attempt: nat) | Exhausted | Raised(attempt: nat)

  datatype Run = Run(trace: seq<Event>, status: Status)

  /** The events of the `try` block after `driver.get`, up to the statement
      that raises. */
  function Progress(attempt: nat, failure: Failure): seq<Event> {
    match failure
    case LoadFails => []
    case ScrollFails(done) => ScrollEvents(ScrollPause, done)
    case CaptureFails => ScrollEvents(ScrollPause, MaxScrolls) + [Sleep(SettleSeconds)]
    case QuitFails(title, page) =>
      ScrollEvents(ScrollPause, MaxScrolls)
      + [Sleep(SettleSeconds), Save(title, |ArticleLinks(page.anchors)|), QuitRaised(attempt)]
  }

  /** The events of a caught failure on `attempt`, backoff included. */
  function FailedAttempt(url: string, ua: string, attempt: nat, failure: Failure, maxRetries: int): seq<Event> {
    [Open(attempt, ua), Visit(url)] + Progress(attempt, failure) + [Quit(attempt)]
    + (if attempt < maxRetries then [Sleep(BackoffSeconds)] else [])
  }

  /** The events of an attempt whose handler's `driver.quit()` raises too. */
  function AbandonedAttempt(url: string, ua: string, attempt: nat, failure: Failure): seq<Event> {
    [Open(attempt, ua), Visit(url)] + Progress(attempt, failure) + [QuitRaised(attempt)]
  }

  /** The events of a successful attempt. */
  function SavedAttempt(url: string, ua: string, attempt: nat, title: string, page: Page): seq<Event> {
    [Open(attempt, ua), Visit(url)] + ScrollEvents(ScrollPause, MaxScrolls)
    + [Sleep(SettleSeconds), Save(title, |ArticleLinks(page.anchors)|), Quit(attempt)]
  }

  /** An attempt that ends the run: an exception escaped, or the page was saved. */
  function Stopping(url: string, ua: string, attempt: nat, behaviour: Attempt): Run
    requires !Retried(behaviour)
  {
    match behaviour
    case StartFails => Run([], Raised(attempt))
    case FlagFails => Run([Open(attempt, ua)], Raised(attempt))
    case Fails(failure, _) => Run(AbandonedAttempt(url, ua, attempt, failure), Raised(attempt))
    case Loads(title, page) => Run(SavedAttempt(url, ua, attempt, title, page), Succeeded(attempt))
  }

  /** The loop of `selenium_scrape_with_retry` from `attempt` on, with
      `world(k)` the browser's behaviour in attempt `k`. */
  function RunFrom(url: string, ua: string, attempt: nat, maxRetries: int, world: nat -> Attempt): (r: Run)
    requires 1 <= attempt
    ensures !r.status.Exhausted? ==> attempt <= r.status.attempt <= maxRetries
    decreases if attempt <= maxRetries then maxRetries - attempt + 1 else 0
  {
    if attempt > maxRetries then Run([], Exhausted)
    else if Retried(world(attempt)) then
      var rest := RunFrom(url, ua, attempt + 1, maxRetries, world);
      Run(FailedAttempt(url, ua, attempt, world(attempt).failure, maxRetries) + rest.trace, rest.status)
    else Stopping(url, ua, attempt, world(attempt))
  }

  /** The run after a caught failure is that failure's events followed by
      the run from the next attempt. */
  lemma RunFromRetried(url: string, ua: string, attempt: nat, maxRetries: int, world: nat -> Attempt)
    requires 1 <= attempt <= maxRetries && Retried(world(attempt))
    ensures RunFrom(url, ua, attempt, maxRetries, world)
         == Run(FailedAttempt(url, ua, attempt, world(attempt).failure, maxRetries)
                + RunFrom(url, ua, attempt + 1, maxRetries, world).trace,
                RunFrom(url, ua, attempt + 1, maxRetries, world).status)
  {
  }

  lemma AppendAssoc(a: seq<Event>, b: seq<Event>, c: seq<Event>)
    ensures a + b + c == a + (b + c)
  {
  }

  // ---------------------------------------------------------------------
  // What every run does

  /** How often `e` occurs in `trace`. */
  function Count(trace: seq<Event>, e: Event): nat {
    if trace == [] then 0 else (if trace[0] == e then 1 else 0) + Count(trace[1..], e)
  }

  /** How many browser sessions `trace` starts. */
  function Sessions(trace: seq<Event>): nat {
    if trace == [] then 0 else (if trace[0].Open? then 1 else 0) + Sessions(trace[1..])
  }

  lemma {:induction false} CountsAppend(a: seq<Event>, b: seq<Event>, e: Event)
    ensures Count(a + b, e) == Count(a, e) + Count(b, e)
    ensures Sessions(a + b) == Sessions(a) + Sessions(b)
  {
    if a == [] {
      assert a + b == b;
    } else {
      assert (a + b)[1..] == a[1..] + b;
      CountsAppend(a[1..], b, e);
    }
  }

  /** Whether a browser session is open, and for which attempt. */
  datatype Session = Idle | Live(attempt: nat)

  /** One event against the session that is open: `None` when a session is
      started while another is open, a session other than the open one is
      quit, or the browser is used with no session open. Pauses and saving
      need no browser. A `driver.quit()` that raises leaves the session
      open. */
  function Step(event: Event, session: Session): Option<Session> {
    match event
    case Open(k, _) => if session.Idle? then Some(Live(k)) else None
    case Quit(k) => if session == Live(k) then Some(Idle) else None
    case QuitRaised(k) => if session == Live(k) then Some(session) else None
    case Sleep(_) => Some(session)
    case Save(_, _) => Some(session)
    case _ => if session.Live? then Some(session) else None
  }

  /** Replays `trace` from `session`: `None` at the first misuse, otherwise
      the session left open at the end. */
  function Replay(trace: seq<Event>, session: Session): Option<Session> {
    if trace == [] then Some(session)
    else
      match Step(trace[0], session)
      case None => None
      case Some(next) => Replay(trace[1..], next)
  }

  lemma {:induction false} ReplayAppend(a: seq<Event>, b: seq<Event>, session: Session)
    ensures Replay(a + b, session) ==
      if Replay(a, session).None? then None else Replay(b, Replay(a, session).value)
  {
    if a == [] {
      assert a + b == b;
    } else {
      assert (a + b)[1..] == a[1..] + b;
      assert (a + b)[0] == a[0];
      var next := Step(a[0], session);
      if next.Some? {
        ReplayAppend(a[1..], b, next.value);
      }
    }
  }

  lemma OneEvent(event: Event, session: Session, e: Event)
    ensures Replay([event], session) == Step(event, session)
    ensures Sessions([event]) == (if event.Open? then 1 else 0)
    ensures Count([event], e) == (if event == e then 1 else 0)
  {
    assert [event][1..] == [];
  }

  lemma TwoEvents(first: Event, second: Event, session: Session, e: Event)
    ensures Replay([first, second], session) ==
      if Step(first, session).None? then None else Step(second, Step(first, session).value)
    ensures Sessions([first, second]) == Sessions([first]) + Sessions([second])
    ensures Count([first, second], e) == Count([first], e) + Count([second], e)
  {
    assert [first, second] == [first] + [second];
    ReplayAppend([first], [second], session);
    CountsAppend([first], [second], e);
    OneEvent(first, session, e);
    if Step(first, session).Some? {
      OneEvent(second, Step(first, session).value, e);
    }
  }

  /** Every session `trace` starts is started with user agent `ua`, for an
      attempt between `first` and `last`. */
  ghost predicate OpensWithin(trace: seq<Event>, ua: string, first: nat, last: int) {
    forall i :: 0 <= i < |trace| && trace[i].Open? ==>
      trace[i].userAgent == ua && first <= trace[i].attempt <= last
  }

  /** Scrolling stays inside the open session, starts none and backs off
      never. */
  lemma {:induction false} ScrollingIsQuiet(pause: int, n: int, k: nat)
    ensures Replay(ScrollEvents(pause, n), Live(k)) == Some(Live(k))
    ensures Sessions(ScrollEvents(pause, n)) == 0
    ensures pause != BackoffSeconds ==> Count(ScrollEvents(pause, n), Sleep(BackoffSeconds)) == 0
    decreases n
  {
    if n > 0 {
      ScrollingIsQuiet(pause, n - 1, k);
      ReplayAppend(ScrollEvents(pause, n - 1), [Scroll, Sleep(pause)], Live(k));
      CountsAppend(ScrollEvents(pause, n - 1), [Scroll, Sleep(pause)], Sleep(BackoffSeconds));
      TwoEvents(Scroll, Sleep(pause), Live(k), Sleep(BackoffSeconds));
      OneEvent(Scroll, Live(k), Sleep(BackoffSeconds));
      OneEvent(Sleep(pause), Live(k), Sleep(BackoffSeconds));
    }
  }

  lemma OpensAppend(a: seq<Event>, b: seq<Event>, ua: string, first: nat, last: int)
    requires OpensWithin(a, ua, first, last) && OpensWithin(b, ua, first, last)
    ensures OpensWithin(a + b, ua, first, last)
  {
    forall i | 0 <= i < |a + b| && (a + b)[i].Open?
      ensures (a + b)[i].userAgent == ua && first <= (a + b)[i].attempt <= last
    {
      if i >= |a| {
        assert (a + b)[i] == b[i - |a|];
      }
    }
  }

  lemma {:induction false} NoSessionsNoOpens(trace: seq<Event>, ua: string, first: nat, last: int)
    requires Sessions(trace) == 0
    ensures OpensWithin(trace, ua, first, last)
  {
    if trace != [] {
      NoSessionsNoOpens(trace[1..], ua, first, last);
      forall i | 1 <= i < |trace| ensures trace[i] == trace[1..][i - 1] { }
    }
  }

  /** Scrolling and settling, inside the session of attempt `k`. */
  lemma CaptureIsQuiet(k: nat)
    ensures var capture := ScrollEvents(ScrollPause, MaxScrolls) + [Sleep(SettleSeconds)];
      && Replay(capture, Live(k)) == Some(Live(k))
      && Sessions(capture) == 0
      && Count(capture, Sleep(BackoffSeconds)) == 0
  {
    var scrolls := ScrollEvents(ScrollPause, MaxScrolls);
    ScrollingIsQuiet(ScrollPause, MaxScrolls, k);
    ReplayAppend(scrolls, [Sleep(SettleSeconds)], Live(k));
    CountsAppend(scrolls, [Sleep(SettleSeconds)], Sleep(BackoffSeconds));
    OneEvent(Sleep(SettleSeconds), Live(k), Sleep(BackoffSeconds));
  }

  /** Settling, saving and the final `driver.quit()` of attempt `k`: the
      session ends when the quit returns and stays open when it raises. */
  lemma SaveAndQuit(title: string, rows: nat, k: nat, quit: Event)
    requires quit == Quit(k) || quit == QuitRaised(k)
    ensures var finish := [Sleep(SettleSeconds), Save(title, rows), quit];
      && Replay(finish, Live(k)) == Some(if quit.Quit? then Idle else Live(k))
      && Sessions(finish) == 0
      && Count(finish, Sleep(BackoffSeconds)) == 0
  {
    var e := Sleep(BackoffSeconds);
    assert [Sleep(SettleSeconds), Save(title, rows), quit] == [Sleep(SettleSeconds)] + [Save(title, rows), quit];
    TwoEvents(Save(title, rows), quit, Live(k), e);
    OneEvent(Save(title, rows), Live(k), e);
    OneEvent(quit, Live(k), e);
    OneEvent(Sleep(SettleSeconds), Live(k), e);
    ReplayAppend([Sleep(SettleSeconds)], [Save(title, rows), quit], Live(k));
    CountsAppend([Sleep(SettleSeconds)], [Save(title, rows), quit], e);
  }

  /** Whatever the `try` block got through stays inside the session of
      attempt `k`, starts none and contains no backoff. */
  lemma ProgressIsQuiet(k: nat, failure: Failure)
    ensures Replay(Progress(k, failure), Live(k)) == Some(Live(k))
    ensures Sessions(Progress(k, failure)) == 0
    ensures Count(Progress(k, failure), Sleep(BackoffSeconds)) == 0
  {
    match failure
    case LoadFails =>
    case ScrollFails(done) =>
      ScrollingIsQuiet(ScrollPause, done, k);
    case CaptureFails =>
      CaptureIsQuiet(k);
    case QuitFails(title, page) =>
      var scrolls := ScrollEvents(ScrollPause, MaxScrolls);
      var finish := [Sleep(SettleSeconds), Save(title, |ArticleLinks(page.anchors)|), QuitRaised(k)];
      ScrollingIsQuiet(ScrollPause, MaxScrolls, k);
      SaveAndQuit(title, |ArticleLinks(page.anchors)|, k, QuitRaised(k));
      ReplayAppend(scrolls, finish, Live(k));
      CountsAppend(scrolls, finish, Sleep(BackoffSeconds));
  }

  /** Opening a session for attempt `k` and visiting the page. */
  lemma OpenAndVisit(url: string, ua: string, k: nat)
    ensures var start := [Open(k, ua), Visit(url)];
      && Replay(start, Idle) == Some(Live(k))
      && Sessions(start) == 1
      && Count(start, Sleep(BackoffSeconds)) == 0
      && OpensWithin(start, ua, k, k)
  {
    var e := Sleep(BackoffSeconds);
    TwoEvents(Open(k, ua), Visit(url), Idle, e);
    OneEvent(Open(k, ua), Idle, e);
    OneEvent(Visit(url), Live(k), e);
  }

  /** A caught failure starts one session, with `ua`, and quits it; it backs
      off once exactly when attempts remain. */
  lemma FailedAttemptFacts(url: string, ua: string, attempt: nat, failure: Failure, maxRetries: int)
    ensures var events := FailedAttempt(url, ua, attempt, failure, maxRetries);
      && Replay(events, Idle) == Some(Idle)
      && Sessions(events) == 1
      && Count(events, Sleep(BackoffSeconds)) == (if attempt < maxRetries then 1 else 0)
      && OpensWithin(events, ua, attempt, attempt)
  {
    var start := [Open(attempt, ua), Visit(url)];
    var progress := Progress(attempt, failure);
    var backoff := if attempt < maxRetries then [Sleep(BackoffSeconds)] else [];
    var e := Sleep(BackoffSeconds);
    OpenAndVisit(url, ua, attempt);
    ProgressIsQuiet(attempt, failure);
    OneEvent(Quit(attempt), Live(attempt), e);
    OneEvent(Sleep(BackoffSeconds), Idle, e);
    ReplayAppend(start, progress, Idle);
    ReplayAppend(start + progress, [Quit(attempt)], Idle);
    ReplayAppend(start + progress + [Quit(attempt)], backoff, Idle);
    CountsAppend(start, progress, e);
    CountsAppend(start + progress, [Quit(attempt)], e);
    CountsAppend(start + progress + [Quit(attempt)], backoff, e);
    NoSessionsNoOpens(progress, ua, attempt, attempt);
    NoSessionsNoOpens([Quit(attempt)], ua, attempt, attempt);
    NoSessionsNoOpens(backoff, ua, attempt, attempt);
    OpensAppend(start, progress, ua, attempt, attempt);
    OpensAppend(start + progress, [Quit(attempt)], ua, attempt, attempt);
    OpensAppend(start + progress + [Quit(attempt)], backoff, ua, attempt, attempt);
  }

  /** When the handler's `driver.quit()` raises too, the attempt starts one
      session, with `ua`, leaves it open and never backs off. */
  lemma AbandonedAttemptFacts(url: string, ua: string, attempt: nat, failure: Failure)
    ensures var events := AbandonedAttempt(url, ua, attempt, failure);
      && Replay(events, Idle) == Some(Live(attempt))
      && Sessions(events) == 1
      && Count(events, Sleep(BackoffSeconds)) == 0
      && OpensWithin(events, ua, attempt, attempt)
  {
    var start := [Open(attempt, ua), Visit(url)];
    var progress := Progress(attempt, failure);
    var e := Sleep(BackoffSeconds);
    OpenAndVisit(url, ua, attempt);
    ProgressIsQuiet(attempt, failure);
    OneEvent(QuitRaised(attempt), Live(attempt), e);
    ReplayAppend(start, progress, Idle);
    ReplayAppend(start + progress, [QuitRaised(attempt)], Idle);
    CountsAppend(start, progress, e);
    CountsAppend(start + progress, [QuitRaised(attempt)], e);
    NoSessionsNoOpens(progress, ua, attempt, attempt);
    NoSessionsNoOpens([QuitRaised(attempt)], ua, attempt, attempt);
    OpensAppend(start, progress, ua, attempt, attempt);
    OpensAppend(start + progress, [QuitRaised(attempt)], ua, attempt, attempt);
  }

  /** A saved page starts one session, with `ua`, quits it, and never backs
      off. */
  lemma SavedAttemptFacts(url: string, ua: string, attempt: nat, title: string, page: Page)
    ensures var events := SavedAttempt(url, ua, attempt, title, page);
      && Replay(events, Idle) == Some(Idle)
      && Sessions(events) == 1
      && Count(events, Sleep(BackoffSeconds)) == 0
      && OpensWithin(events, ua, attempt, attempt)
  {
    var start := [Open(attempt, ua), Visit(url)];
    var scrolls := ScrollEvents(ScrollPause, MaxScrolls);
    var finish := [Sleep(SettleSeconds), Save(title, |ArticleLinks(page.anchors)|), Quit(attempt)];
    var e := Sleep(BackoffSeconds);
    OpenAndVisit(url, ua, attempt);
    SaveAndQuit(title, |ArticleLinks(page.anchors)|, attempt, Quit(attempt));
    ScrollingIsQuiet(ScrollPause, MaxScrolls, attempt);
    ReplayAppend(start, scrolls, Idle);
    ReplayAppend(start + scrolls, finish, Idle);
    CountsAppend(start, scrolls, e);
    CountsAppend(start + scrolls, finish, e);
    NoSessionsNoOpens(scrolls, ua, attempt, attempt);
    NoSessionsNoOpens(finish, ua, attempt, attempt);
    OpensAppend(start, scrolls, ua, attempt, attempt);
    OpensAppend(start + scrolls, finish, ua, attempt, attempt);
  }

  lemma OpensWiden(trace: seq<Event>, ua: string, first: nat, last: int, first': nat, last': int)
    requires OpensWithin(trace, ua, first, last) && first' <= first && last <= last'
    ensures OpensWithin(trace, ua, first', last')
  {
  }

  /** The run stops at the first attempt whose failure the loop does not
      survive: it saves on an attempt on which everything succeeds, raises
      on one whose session cannot be started or prepared or whose handler's
      `driver.quit()` raises, and gives up only when every attempt failed
      inside the `try` block and was cleaned up. */
  lemma {:induction false} RunFromStops(url: string, ua: string, attempt: nat, maxRetries: int, world: nat -> Attempt)
    requires 1 <= attempt
    ensures match RunFrom(url, ua, attempt, maxRetries, world).status
      case Succeeded(k) =>
        && attempt <= k <= maxRetries && world(k).Loads?
        && forall j: nat :: attempt <= j < k ==> Retried(world(j))
      case Raised(k) =>
        && attempt <= k <= maxRetries
        && (world(k).StartFails? || world(k).FlagFails? || (world(k).Fails? && world(k).cleanupRaises))
        && forall j: nat :: attempt <= j < k ==> Retried(world(j))
      case Exhausted =>
        forall j: nat :: attempt <= j <= maxRetries ==> Retried(world(j))
    decreases if attempt <= maxRetries then maxRetries - attempt + 1 else 0
  {
    if attempt <= maxRetries && Retried(world(attempt)) {
      RunFromStops(url, ua, attempt + 1, maxRetries, world);
    }
  }

  /** One session per attempt made, except an attempt whose session could
      not be started; one backoff between consecutive attempts. With no
      attempts allowed nothing happens. */
  lemma {:induction false} RunFromCounts(url: string, ua: string, attempt: nat, maxRetries: int, world: nat -> Attempt)
    requires 1 <= attempt
    ensures var run := RunFrom(url, ua, attempt, maxRetries, world);
      match run.status
      case Succeeded(k) =>
        Sessions(run.trace) == k - attempt + 1 && Count(run.trace, Sleep(BackoffSeconds)) == k - attempt
      case Raised(k) =>
        && Sessions(run.trace) == k - attempt + (if world(k).StartFails? then 0 else 1)
        && Count(run.trace, Sleep(BackoffSeconds)) == k - attempt
      case Exhausted =>
        && Sessions(run.trace) == (if attempt <= maxRetries then maxRetries - attempt + 1 else 0)
        && Count(run.trace, Sleep(BackoffSeconds)) == (if attempt <= maxRetries then maxRetries - attempt else 0)
    decreases if attempt <= maxRetries then maxRetries - attempt + 1 else 0
  {
    if attempt <= maxRetries {
      if Retried(world(attempt)) {
        RunFromCounts(url, ua, attempt + 1, maxRetries, world);
        StopsWithin(url, ua, attempt + 1, maxRetries, world);
        CountsAfterCaughtFailure(url, ua, attempt, maxRetries, world);
      } else {
        CountsWhenStopping(url, ua, attempt, maxRetries, world);
      }
    }
  }

  lemma CountsWhenStopping(url: string, ua: string, attempt: nat, maxRetries: int, world: nat -> Attempt)
    requires 1 <= attempt <= maxRetries && !Retried(world(attempt))
    ensures var run := RunFrom(url, ua, attempt, maxRetries, world);
      && run.status == (if world(attempt).Loads? then Succeeded(attempt) else Raised(attempt))
      && Sessions(run.trace) == (if world(attempt).StartFails? then 0 else 1)
      && Count(run.trace, Sleep(BackoffSeconds)) == 0
  {
    var behaviour := world(attempt);
    match behaviour
    case StartFails =>
    case FlagFails =>
      OneEvent(Open(attempt, ua), Idle, Sleep(BackoffSeconds));
    case Fails(failure, _) =>
      AbandonedAttemptFacts(url, ua, attempt, failure);
    case Loads(title, page) =>
      SavedAttemptFacts(url, ua, attempt, title, page);
  }

  /** The attempt a run stops on is one it was allowed to make. */
  lemma StopsWithin(url: string, ua: string, attempt: nat, maxRetries: int, world: nat -> Attempt)
    requires 1 <= attempt
    ensures var status := RunFrom(url, ua, attempt, maxRetries, world).status;
      !status.Exhausted? ==> attempt <= status.attempt <= maxRetries
  {
    RunFromStops(url, ua, attempt, maxRetries, world);
  }

  lemma CountsAfterCaughtFailure(url: string, ua: string, attempt: nat, maxRetries: int, world: nat -> Attempt)
    requires 1 <= attempt <= maxRetries && Retried(world(attempt))
    ensures var run, rest := RunFrom(url, ua, attempt, maxRetries, world), RunFrom(url, ua, attempt + 1, maxRetries, world);
      && run.status == rest.status
      && Sessions(run.trace) == 1 + Sessions(rest.trace)
      && Count(run.trace, Sleep(BackoffSeconds)) == (if attempt < maxRetries then 1 else 0) + Count(rest.trace, Sleep(BackoffSeconds))
  {
    var rest := RunFrom(url, ua, attempt + 1, maxRetries, world);
    var events := FailedAttempt(url, ua, attempt, world(attempt).failure, maxRetries);
    FailedAttemptFacts(url, ua, attempt, world(attempt).failure, maxRetries);
    CountsAppend(events, rest.trace, Sleep(BackoffSeconds));
    RunFromRetried(url, ua, attempt, maxRetries, world);
  }

  /** Sessions never overlap, the browser is used only inside one, and
      every session is quit, except when an exception escapes after the
      session was started: hiding the automation flag raised, or the
      handler's `driver.quit()` did. */
  lemma {:induction false} RunFromReleases(url: string, ua: string, attempt: nat, maxRetries: int, world: nat -> Attempt)
    requires 1 <= attempt
    ensures var run := RunFrom(url, ua, attempt, maxRetries, world);
      Replay(run.trace, Idle) ==
        Some(if run.status.Raised? && !world(run.status.attempt).StartFails? then Live(run.status.attempt) else Idle)
    decreases if attempt <= maxRetries then maxRetries - attempt + 1 else 0
  {
    if attempt <= maxRetries {
      var behaviour := world(attempt);
      if Retried(behaviour) {
        var rest := RunFrom(url, ua, attempt + 1, maxRetries, world);
        var events := FailedAttempt(url, ua, attempt, behaviour.failure, maxRetries);
        RunFromReleases(url, ua, attempt + 1, maxRetries, world);
        FailedAttemptFacts(url, ua, attempt, behaviour.failure, maxRetries);
        ReplayAppend(events, rest.trace, Idle);
        RunFromRetried(url, ua, attempt, maxRetries, world);
      } else {
        match behaviour
        case StartFails =>
        case FlagFails =>
          OneEvent(Open(attempt, ua), Idle, Sleep(BackoffSeconds));
        case Fails(failure, _) =>
          AbandonedAttemptFacts(url, ua, attempt, failure);
        case Loads(title, page) =>
          SavedAttemptFacts(url, ua, attempt, title, page);
      }
    }
  }

  /** Every session is started with the one user agent chosen before the
      loop, for an attempt between `attempt` and `maxRetries`. */
  lemma {:induction false} RunFromOpens(url: string, ua: string, attempt: nat, maxRetries: int, world: nat -> Attempt)
    requires 1 <= attempt
    ensures OpensWithin(RunFrom(url, ua, attempt, maxRetries, world).trace, ua, attempt, maxRetries)
    decreases if attempt <= maxRetries then maxRetries - attempt + 1 else 0
  {
    if attempt <= maxRetries {
      var behaviour := world(attempt);
      if Retried(behaviour) {
        RunFromOpens(url, ua, attempt + 1, maxRetries, world);
        OpensAfterCaughtFailure(url, ua, attempt, maxRetries, world);
      } else {
        OpensWhenStopping(url, ua, attempt, maxRetries, world);
      }
    }
  }

  lemma OpensAfterCaughtFailure(url: string, ua: string, attempt: nat, maxRetries: int, world: nat -> Attempt)
    requires 1 <= attempt <= maxRetries && Retried(world(attempt))
    requires OpensWithin(RunFrom(url, ua, attempt + 1, maxRetries, world).trace, ua, attempt + 1, maxRetries)
    ensures OpensWithin(RunFrom(url, ua, attempt, maxRetries, world).trace, ua, attempt, maxRetries)
  {
    var rest := RunFrom(url, ua, attempt + 1, maxRetries, world);
    var events := FailedAttempt(url, ua, attempt, world(attempt).failure, maxRetries);
    FailedAttemptFacts(url, ua, attempt, world(attempt).failure, maxRetries);
    OpensWiden(events, ua, attempt, attempt, attempt, maxRetries);
    OpensWiden(rest.trace, ua, attempt + 1, maxRetries, attempt, maxRetries);
    OpensAppend(events, rest.trace, ua, attempt, maxRetries);
    RunFromRetried(url, ua, attempt, maxRetries, world);
  }

  lemma OpensWhenStopping(url: string, ua: string, attempt: nat, maxRetries: int, world: nat -> Attempt)
    requires 1 <= attempt <= maxRetries && !Retried(world(attempt))
    ensures OpensWithin(RunFrom(url, ua, attempt, maxRetries, world).trace, ua, attempt, maxRetries)
  {
    var events := Stopping(url, ua, attempt, world(attempt)).trace;
    match world(attempt) {
      case StartFails =>
      case FlagFails =>
        assert OpensWithin([Open(attempt, ua)], ua, attempt, attempt);
      case Fails(failure, _) =>
        AbandonedAttemptFacts(url, ua, attempt, failure);
      case Loads(title, page) =>
        SavedAttemptFacts(url, ua, attempt, title, page);
    }
    OpensWiden(events, ua, attempt, attempt, attempt, maxRetries);
  }

  /** A whole run starts at most `maxRetries` sessions, and does nothing at
      all when `maxRetries` is not positive. */
  lemma AttemptsBounded(url: string, ua: string, maxRetries: int, world: nat -> Attempt)
    ensures var run := RunFrom(url, ua, 1, maxRetries, world);
      && Sessions(run.trace) <= (if maxRetries > 0 then maxRetries else 0)
      && (maxRetries <= 0 ==> run == Run([], Exhausted))
  {
    RunFromCounts(url, ua, 1, maxRetries, world);
    RunFromStops(url, ua, 1, maxRetries, world);
  }

  const DefaultMaxRetries := 3

  /** When every attempt times out waiting for the title, the default run
      makes three attempts, each in its own session, with a five-second
      backoff between consecutive ones and none after the last. */
  lemma AlwaysTimingOut(url: string, ua: string)
    ensures RunFrom(url, ua, 1, DefaultMaxRetries, _ => Fails(LoadFails, false)) == Run(
      [ Open(1, ua), Visit(url), Quit(1), Sleep(5),
        Open(2, ua), Visit(url), Quit(2), Sleep(5),
        Open(3, ua), Visit(url), Quit(3) ],
      Exhausted)
  {
    var world: nat -> Attempt := _ => Fails(LoadFails, false);
    assert RunFrom(url, ua, 4, 3, world) == Run([], Exhausted);
    RunFromRetried(url, ua, 3, 3, world);
    RunFromRetried(url, ua, 2, 3, world);
    RunFromRetried(url, ua, 1, 3, world);
  }

  /** When the `driver.quit()` after saving raises, the exception is
      caught and the attempt retried: a page that then loads again is
      saved a second time. */
  lemma SavedAgainAfterQuitFails(url: string, ua: string, title: string, page: Page)
    ensures var world: nat -> Attempt := k => if k == 1 then Fails(QuitFails(title, page), false) else Loads(title, page);
      var run := RunFrom(url, ua, 1, DefaultMaxRetries, world);
      && run.status == Succeeded(2)
      && Count(run.trace, Save(title, |ArticleLinks(page.anchors)|)) == 2
  {
    var world: nat -> Attempt := k => if k == 1 then Fails(QuitFails(title, page), false) else Loads(title, page);
    var save := Save(title, |ArticleLinks(page.anchors)|);
    RunFromRetried(url, ua, 1, 3, world);
    assert RunFrom(url, ua, 2, 3, world) == Run(SavedAttempt(url, ua, 2, title, page), Succeeded(2));
    SavesInAttempt(url, ua, 1, 2, title, page, 3);
    CountsAppend(FailedAttempt(url, ua, 1, QuitFails(title, page), 3), SavedAttempt(url, ua, 2, title, page), save);
  }

  /** With a single attempt allowed, a page saved before the `driver.quit()`
      that raised is still reported as a run that gave up. */
  lemma SavedButExhausted(url: string, ua: string, title: string, page: Page)
    ensures var world: nat -> Attempt := _ => Fails(QuitFails(title, page), false);
      var run := RunFrom(url, ua, 1, 1, world);
      && run.status == Exhausted
      && Count(run.trace, Save(title, |ArticleLinks(page.anchors)|)) == 1
  {
    var world: nat -> Attempt := _ => Fails(QuitFails(title, page), false);
    RunFromRetried(url, ua, 1, 1, world);
    assert RunFrom(url, ua, 2, 1, world) == Run([], Exhausted);
    var failed := FailedAttempt(url, ua, 1, QuitFails(title, page), 1);
    SavesInAttempt(url, ua, 1, 1, title, page, 1);
    assert failed + [] == failed;
    assert RunFrom(url, ua, 1, 1, world).trace == failed;
  }

  /** Each of the two attempts calls `save_links_to_excel` once. */
  lemma SavesInAttempt(url: string, ua: string, first: nat, second: nat, title: string, page: Page, maxRetries: int)
    ensures var save := Save(title, |ArticleLinks(page.anchors)|);
      && Count(FailedAttempt(url, ua, first, QuitFails(title, page), maxRetries), save) == 1
      && Count(SavedAttempt(url, ua, second, title, page), save) == 1
  {
    var save := Save(title, |ArticleLinks(page.anchors)|);
    var start := [Open(first, ua), Visit(url)];
    var scrolls := ScrollEvents(ScrollPause, MaxScrolls);
    var backoff := if first < maxRetries then [Sleep(BackoffSeconds)] else [];
    var tried := start + Progress(first, QuitFails(title, page));
    assert tried == start + scrolls + ([Sleep(SettleSeconds), save] + [QuitRaised(first)]);
    assert SavedAttempt(url, ua, second, title, page)
        == [Open(second, ua), Visit(url)] + scrolls + ([Sleep(SettleSeconds), save] + [Quit(second)]);
    SavesAfterScrolling(url, ua, first, title, page, save, [QuitRaised(first)]);
    SavesAfterScrolling(url, ua, second, title, page, save, [Quit(second)]);
    CountsAppend(tried, [Quit(first)], save);
    CountsAppend(tried + [Quit(first)], backoff, save);
    OneEvent(Quit(first), Idle, save);
    if backoff != [] {
      OneEvent(Sleep(BackoffSeconds), Idle, save);
    }
  }

  /** Opening, visiting, scrolling, settling and saving write the file once. */
  lemma SavesAfterScrolling(url: string, ua: string, k: nat, title: string, page: Page, save: Event, quit: seq<Event>)
    requires save == Save(title, |ArticleLinks(page.anchors)|) && quit in {[Quit(k)], [QuitRaised(k)]}
    ensures Count([Open(k, ua), Visit(url)] + ScrollEvents(ScrollPause, MaxScrolls)
                  + ([Sleep(SettleSeconds), save] + quit), save) == 1
  {
    var start := [Open(k, ua), Visit(url)];
    var scrolls := ScrollEvents(ScrollPause, MaxScrolls);
    ScrollsSaveNothing(ScrollPause, MaxScrolls, save);
    TwoEvents(Open(k, ua), Visit(url), Idle, save);
    OneEvent(Open(k, ua), Idle, save);
    OneEvent(Visit(url), Idle, save);
    assert [Sleep(SettleSeconds), save] + quit == [Sleep(SettleSeconds)] + ([save] + quit);
    CountsAppend([Sleep(SettleSeconds)], [save] + quit, save);
    CountsAppend([save], quit, save);
    OneEvent(Sleep(SettleSeconds), Idle, save);
    OneEvent(save, Idle, save);
    OneEvent(quit[0], Idle, save);
    CountsAppend(start, scrolls, save);
    CountsAppend(start + scrolls, [Sleep(SettleSeconds), save] + quit, save);
  }

  /** Scrolling writes nothing. */
  lemma {:induction false} ScrollsSaveNothing(pause: int, n: int, save: Event)
    requires save.Save?
    ensures Count(ScrollEvents(pause, n), save) == 0
    decreases n
  {
    if n > 0 {
      ScrollsSaveNothing(pause, n - 1, save);
      CountsAppend(ScrollEvents(pause, n - 1), [Scroll, Sleep(pause)], save);
      TwoEvents(Scroll, Sleep(pause), Idle, save);
      OneEvent(Scroll, Idle, save);
      OneEvent(Sleep(pause), Idle, save);
    }
  }

  /** What `selenium_scrape_with_retry` hands on: the saved page, or why
      nothing was saved. */
  datatype Outcome =
    | Scraped(attempt: nat, title: string, links: seq<string>, heavy: bool)
    | GaveUp
    | Crashed(attempt: nat)
  {
    function Status(): Status {
      match this
      case Scraped(k, _, _, _) => Succeeded(k)
      case GaveUp => Exhausted
      case Crashed(k) => Raised(k)
    }
  }

  /** Concatenation regrouped the way `SavedAttempt` reads. */
  lemma Regroup(a: seq<Event>, b: seq<Event>, c: seq<Event>, d: seq<Event>, e: seq<Event>)
    ensures a + b + c + d + e == a + (b + c + (d + e))
  {
  }

  /** The events the `try` block appends before the statement that raises,
      grouped the way the loop body appends them. */
  lemma ProgressLayout(before: seq<Event>, attempt: nat, failure: Failure)
    ensures failure.LoadFails? ==> before == before + Progress(attempt, failure)
    ensures failure.ScrollFails? ==> before + ScrollEvents(ScrollPause, failure.done) == before + Progress(attempt, failure)
    ensures failure.CaptureFails? ==>
      before + ScrollEvents(ScrollPause, MaxScrolls) + [Sleep(SettleSeconds)] == before + Progress(attempt, failure)
    ensures failure.QuitFails? ==>
      before + ScrollEvents(ScrollPause, MaxScrolls) + [Sleep(SettleSeconds)]
        + [Save(failure.title, |ArticleLinks(failure.page.anchors)|)] + [QuitRaised(attempt)]
      == before + Progress(attempt, failure)
  {
  }

  /** The events of a caught failure, grouped the way the loop body appends
      them. */
  lemma FailedLayout(trace: seq<Event>, url: string, ua: string, attempt: nat, failure: Failure, maxRetries: int)
    ensures trace + [Open(attempt, ua)] + [Visit(url)] + Progress(attempt, failure) + [Quit(attempt)]
            + (if attempt < maxRetries then [Sleep(BackoffSeconds)] else [])
         == trace + FailedAttempt(url, ua, attempt, failure, maxRetries)
  {
  }

  /** The events of an attempt whose handler raises, grouped the way the
      loop body appends them. */
  lemma AbandonedLayout(trace: seq<Event>, url: string, ua: string, attempt: nat, failure: Failure)
    ensures trace + [Open(attempt, ua)] + [Visit(url)] + Progress(attempt, failure) + [QuitRaised(attempt)]
         == trace + AbandonedAttempt(url, ua, attempt, failure)
  {
  }

  /** One pass of the loop body: open a session, hide the automation flag,
      then the `try` block up to the statement that raises, if any; on a
      caught failure the handler's `driver.quit()`, which may raise in turn,
      and a backoff when attempts remain. `outcome` is `None` when the loop
      goes on. */
  method OneAttempt(url: string, ua: string, attempt: nat, maxRetries: int, behaviour: Attempt, trace: seq<Event>)
    returns (trace': seq<Event>, outcome: Option<Outcome>)
    ensures outcome.None? <==> Retried(behaviour)
    ensures outcome.None? ==> trace' == trace + FailedAttempt(url, ua, attempt, behaviour.failure, maxRetries)
    ensures outcome.Some? ==>
      var run := Stopping(url, ua, attempt, behaviour);
      trace' == trace + run.trace && outcome.value.Status() == run.status
    ensures outcome.Some? && outcome.value.Scraped? ==>
      && behaviour.Loads?
      && outcome.value.title == behaviour.title
      && outcome.value.heavy == IsHeavyJavaScript(behaviour.page.tags)
      && Distinct(outcome.value.links)
      && forall link :: link in outcome.value.links <==> link in ArticleLinks(behaviour.page.anchors)
  {
    trace' := trace;
    if behaviour.StartFails? {
      return trace', Some(Crashed(attempt));
    }
    trace' := trace' + [Open(attempt, ua)];
    if behaviour.FlagFails? {
      return trace', Some(Crashed(attempt));
    }
    // The `try` block.
    trace' := trace' + [Visit(url)];
    ghost var visited := trace';
    var raised := behaviour.Fails? && behaviour.failure.LoadFails?;
    if !raised {
      var raisesAt := if behaviour.Fails? && behaviour.failure.ScrollFails? then Some(behaviour.failure.done as nat) else None;
      trace', raised := ScrollDown(trace', raisesAt);
    }
    if !raised {
      trace' := trace' + [Sleep(SettleSeconds)];
      raised := behaviour.Fails? && behaviour.failure.CaptureFails?;
    }
    if !raised {
      var title, page := if behaviour.Loads? then behaviour.title else behaviour.failure.title,
                         if behaviour.Loads? then behaviour.page else behaviour.failure.page;
      var heavy := IsHeavyJavaScript(page.tags);
      var links := ExtractArticleLinks(page.anchors);
      trace' := trace' + [Save(title, |links|)];
      if behaviour.Loads? {
        trace' := trace' + [Quit(attempt)];
        Regroup(trace, [Open(attempt, ua), Visit(url)], ScrollEvents(ScrollPause, MaxScrolls),
                [Sleep(SettleSeconds)], [Save(title, |links|), Quit(attempt)]);
        return trace', Some(Scraped(attempt, title, links, heavy));
      }
      trace' := trace' + [QuitRaised(attempt)];
    }
    ProgressLayout(visited, attempt, behaviour.failure);
    // The `except` block.
    if behaviour.cleanupRaises {
      trace' := trace' + [QuitRaised(attempt)];
      AbandonedLayout(trace, url, ua, attempt, behaviour.failure);
      return trace', Some(Crashed(attempt));
    }
    trace' := trace' + [Quit(attempt)];
    if attempt < maxRetries {
      trace' := trace' + [Sleep(BackoffSeconds)];
    }
    FailedLayout(trace, url, ua, attempt, behaviour.failure, maxRetries);
    outcome := None;
  }

  /** `selenium_scrape_with_retry(url, max_retries)`. The options, and with
      them the user agent, are built once before the loop. */
  method ScrapeWithRetry(url: string, randomUserAgent: Option<string>, world: nat -> Attempt, maxRetries: int := DefaultMaxRetries)
    returns (trace: seq<Event>, outcome: Outcome)
    ensures var run := RunFrom(url, UserAgent(randomUserAgent), 1, maxRetries, world);
      trace == run.trace && outcome.Status() == run.status
    ensures outcome.Scraped? ==>
      && world(outcome.attempt).Loads?
      && outcome.title == world(outcome.attempt).title
      && outcome.heavy == IsHeavyJavaScript(world(outcome.attempt).page.tags)
      && Distinct(outcome.links)
      && forall link :: link in outcome.links <==> link in ArticleLinks(world(outcome.attempt).page.anchors)
  {
    var ua := UserAgent(randomUserAgent);
    ghost var whole := RunFrom(url, ua, 1, maxRetries, world);
    trace := [];
    var attempt := 1;
    while attempt <= maxRetries
      invariant 1 <= attempt
      invariant whole.trace == trace + RunFrom(url, ua, attempt, maxRetries, world).trace
      invariant whole.status == RunFrom(url, ua, attempt, maxRetries, world).status
      decreases maxRetries - attempt
    {
      ghost var before := trace;
      var stop;
      trace, stop := OneAttempt(url, ua, attempt, maxRetries, world(attempt), trace);
      if stop.Some? {
        return trace, stop.value;
      }
      RunFromRetried(url, ua, attempt, maxRetries, world);
      AppendAssoc(before, FailedAttempt(url, ua, attempt, world(attempt).failure, maxRetries),
                  RunFrom(url, ua, attempt + 1, maxRetries, world).trace);
      attempt := attempt + 1;
    }
    outcome := GaveUp;
  }
}
