/** The robots.txt permission checker of crawl.py: it loads the policy once,
    fails closed when loading raised `URLError` or `HTTPError`, and otherwise
    judges a URL by its path alone. The standard library's
    `RobotFileParser` is seen only through `can_fetch`, an oracle from
    (user agent, path) to a verdict, fixed by the document `read()` loaded. */
module Crawl {
  import opened Base
  import UrlParse

  /** `RobotFileParser.can_fetch` of one loaded robots.txt document. */
  type CanFetch = (string, string) -> bool

  /** The standard-library parser: its URL, and its rules once `read()` has
      completed. */
  datatype RobotsParser =
    | Unread(url: string)
    | Loaded(url: string, canFetch: CanFetch)

  /** What `self.parser.read()` does: return normally with the rules the
      parser then applies, or raise. A parser that had already read keeps its
      earlier entries and adds the new ones; `canFetch` stands for the rules
      after the call. */
  datatype ReadOutcome =
    | ReadOk(canFetch: CanFetch)
    | RaisesUrlError
    | RaisesHttpError
    | RaisesOther(exception: string)

  /** An exception that `_load_robots_txt` lets escape. */
  datatype Raised =
    | NoParser                             // `self.parser.set_url` on `None`: AttributeError
    | InvalidRobotsUrl(error: UrlParse.UrlError)  // `set_url` runs `urlparse`, which raises `ValueError`
    | Escaped(exception: string)           // raised by `read()`

  /** Whether `read()` raised one of the two exceptions the loader absorbs. */
  predicate Absorbed(read: ReadOutcome) {
    read.RaisesUrlError? || read.RaisesHttpError?
  }

  /** The default of `robots_url`. */
  const DefaultRobotsUrl := Origin + "/robots.txt"
  const DefaultUserAgent := "*"

  /** `can_fetch` before `read()` has completed answers no. */
  function Fetchable(parser: RobotsParser, userAgent: string, path: string): bool {
    match parser
    case Unread(_) => false
    case Loaded(_, canFetch) => canFetch(userAgent, path)
  }

  class CrawlabilityChecker {
    var robotsUrl: string
    var parser: Option<RobotsParser>

    /** After construction the parser, if any, has loaded `robotsUrl`. */
    ghost predicate Valid()
      reads this
    {
      parser.Some? ==> parser.value.Loaded? && parser.value.url == robotsUrl
    }

    /** The first two statements of `__init__`: a fresh, unread parser. */
    constructor (robotsUrl: string := DefaultRobotsUrl)
      ensures this.robotsUrl == robotsUrl
      ensures parser == Some(Unread(""))
    {
      this.robotsUrl := robotsUrl;
      parser := Some(Unread(""));
    }

    /** `_load_robots_txt`: point the parser at `robotsUrl` and read it. A
        `URLError` or `HTTPError` replaces the parser by `None`. Any other
        exception escapes: one from `read()`, the `ValueError` of `set_url`
        parsing a robots URL with an unbalanced bracket in its host, and the
        one from calling it once the parser is `None`. `set_url` stores the
        URL before parsing it, and a `read()` that raises leaves the rules
        the parser already had, so an escaping exception changes only the
        parser's URL. */
    method LoadRobotsTxt(read: ReadOutcome) returns (raised: Option<Raised>)
      modifies this`parser
      ensures old(parser).None? ==> raised == Some(NoParser) && parser == None
      ensures old(parser).Some? ==>
        match UrlParse.Path(robotsUrl)
        case Failure(e) => raised == Some(InvalidRobotsUrl(e)) && parser == Some(old(parser).value.(url := robotsUrl))
        case Success(_) =>
          match read
          case ReadOk(canFetch) => raised == None && parser == Some(Loaded(robotsUrl, canFetch))
          case RaisesOther(e) => raised == Some(Escaped(e)) && parser == Some(old(parser).value.(url := robotsUrl))
          case _ => raised == None && parser == None
    {
      if parser.None? {
        return Some(NoParser);
      }
      parser := Some(parser.value.(url := robotsUrl));
      var target := UrlParse.Path(robotsUrl);
      if target.Failure? {
        return Some(InvalidRobotsUrl(target.error));
      }
      match read {
        case ReadOk(canFetch) =>
          parser := Some(Loaded(robotsUrl, canFetch));
          raised := None;
        case RaisesOther(e) =>
          raised := Some(Escaped(e));
        case _ =>
          parser := None;
          raised := None;
      }
    }

    /** `CrawlabilityChecker(robots_url)`: construct and load; an exception
        other than `URLError` and `HTTPError` propagates out of `__init__`.
        A robots URL that `urlparse` refuses fails before `read()` runs. */
    static method Create(read: ReadOutcome, robotsUrl: string := DefaultRobotsUrl) returns (r: Result<CrawlabilityChecker, Raised>)
      ensures match UrlParse.Path(robotsUrl)
        case Failure(e) => r == Failure(InvalidRobotsUrl(e))
        case Success(_) => (r.Failure? <==> read.RaisesOther?) && (r.Failure? ==> r.error == Escaped(read.exception))
      ensures r.Success? ==> fresh(r.value) && r.value.Valid() && r.value.robotsUrl == robotsUrl
      ensures r.Success? ==> (r.value.parser.None? <==> Absorbed(read))
      ensures r.Success? && read.ReadOk? ==> r.value.parser == Some(Loaded(robotsUrl, read.canFetch))
    {
      var checker := new CrawlabilityChecker(robotsUrl);
      var raised := checker.LoadRobotsTxt(read);
      if raised.Some? {
        r := Failure(raised.value);
      } else {
        r := Success(checker);
      }
    }

    /** `can_crawl(url, user_agent)`: no when the parser is `None`; otherwise
        the parser's verdict on the path of `url` alone. Reducing the URL
        raises `ValueError` on an unbalanced bracket in its host. */
    function CanCrawl(url: string, userAgent: string := DefaultUserAgent): (allowed: Result<bool, UrlParse.UrlError>)
      reads this
      ensures parser.None? ==> allowed == Success(false)
      ensures parser.Some? ==>
        match UrlParse.Path(url)
        case Success(path) => allowed == Success(Fetchable(parser.value, userAgent, path))
        case Failure(e) => allowed == Failure(e)
    {
      if parser.None? then Success(false)
      else
        match UrlParse.Path(url)
        case Success(path) => Success(Fetchable(parser.value, userAgent, path))
        case Failure(e) => Failure(e)
    }
  }

  /** Two URLs with the same path get the same answer, whatever their
      scheme, host, query or fragment. */
  lemma SamePathSameVerdict(checker: CrawlabilityChecker, url1: string, url2: string, userAgent: string)
    requires UrlParse.Path(url1).Success? && UrlParse.Path(url1) == UrlParse.Path(url2)
    ensures checker.CanCrawl(url1, userAgent) == checker.CanCrawl(url2, userAgent)
  {
  }

  /** A loaded checker answers with its rules' verdict on the URL's path,
      for the default agent `*`. */
  lemma JudgedByPath(checker: CrawlabilityChecker, rules: CanFetch, url: string, path: string)
    requires checker.parser == Some(Loaded(checker.robotsUrl, rules))
    requires UrlParse.Path(url) == Success(path)
    ensures checker.CanCrawl(url) == Success(rules("*", path))
  {
  }

  /** The parser of a valid checker, if any, has loaded its rules. */
  lemma LoadedParser(checker: CrawlabilityChecker)
    requires checker.Valid() && checker.parser.Some?
    ensures checker.parser == Some(Loaded(checker.robotsUrl, checker.parser.value.canFetch))
  {
  }

  /** A loaded checker asked about a search-results URL consults the rules
      for `/s` and nothing else. */
  lemma SearchUrlJudgedByPath(checker: CrawlabilityChecker)
    requires checker.Valid() && checker.parser.Some?
    ensures checker.CanCrawl(Origin + "/s?k=smartphones") == Success(checker.parser.value.canFetch("*", "/s"))
  {
    SearchUrlPath();
    LoadedParser(checker);
    JudgedByPath(checker, checker.parser.value.canFetch, Origin + "/s?k=smartphones", "/s");
  }

  /** With rules that disallow `/ap/signin` for every agent, the sign-in
      page is refused. */
  lemma SigninRefusedByRules(checker: CrawlabilityChecker)
    requires checker.Valid() && checker.parser.Some?
    requires !checker.parser.value.canFetch("*", "/ap/signin")
    ensures checker.CanCrawl(Origin + "/ap/signin") == Success(false)
  {
    SigninUrlPath();
    LoadedParser(checker);
    JudgedByPath(checker, checker.parser.value.canFetch, Origin + "/ap/signin", "/ap/signin");
  }

  /** With rules that allow a product page for every agent, it is accepted. */
  lemma ProductAllowedByRules(checker: CrawlabilityChecker)
    requires checker.Valid() && checker.parser.Some?
    requires checker.parser.value.canFetch("*", "/dp/B09G3HRMVP")
    ensures checker.CanCrawl(Origin + "/dp/B09G3HRMVP") == Success(true)
  {
    ProductUrlPath();
    LoadedParser(checker);
    JudgedByPath(checker, checker.parser.value.canFetch, Origin + "/dp/B09G3HRMVP", "/dp/B09G3HRMVP");
  }

  lemma SearchUrlPath()
    ensures UrlParse.Path(Origin + "/s?k=smartphones") == Success("/s")
  {
    assert UrlParse.PlainPath("/s") && UrlParse.NoUnsafe("/s?k=smartphones");
    assert Origin + "/s" + "?k=smartphones" == Origin + "/s?k=smartphones";
    SiteUrlPath("/s", "?k=smartphones");
  }

  lemma SigninUrlPath()
    ensures UrlParse.Path(Origin + "/ap/signin") == Success("/ap/signin")
  {
    assert UrlParse.PlainPath("/ap/signin") && UrlParse.NoUnsafe("/ap/signin");
    assert Origin + "/ap/signin" + "" == Origin + "/ap/signin";
    SiteUrlPath("/ap/signin", "");
  }

  lemma ProductUrlPath()
    ensures UrlParse.Path(Origin + "/dp/B09G3HRMVP") == Success("/dp/B09G3HRMVP")
  {
    assert UrlParse.PlainPath("/dp/B09G3HRMVP") && UrlParse.NoUnsafe("/dp/B09G3HRMVP");
    assert Origin + "/dp/B09G3HRMVP" + "" == Origin + "/dp/B09G3HRMVP";
    SiteUrlPath("/dp/B09G3HRMVP", "");
  }

  /** Every page of the site is judged by its path: for a rooted path
      followed by an optional query or fragment, the path is what remains
      after the origin. */
  lemma SiteUrlPath(path: string, tail: string)
    requires UrlParse.PlainPath(path) && (tail == [] || tail[0] in "?#")
    requires UrlParse.NoUnsafe(path + tail)
    ensures UrlParse.Path(Origin + path + tail) == Success(path)
  {
    OriginParts();
    UrlParse.NoUnsafeJoin(Origin, path + tail);
    assert Origin + path + tail == Origin + (path + tail);
    UrlParse.PathOfAbsoluteUrl("https", "www.amazon.com", path, tail);
  }

  lemma OriginParts()
    ensures "https" + "://" + "www.amazon.com" == Origin
    ensures UrlParse.SchemeName("https") && UrlParse.PlainHost("www.amazon.com")
    ensures UrlParse.NoUnsafe(Origin)
  {
    OriginSpelling();
    OriginClean();
  }

  lemma OriginSpelling()
    ensures "https" + "://" + "www.amazon.com" == Origin
    ensures UrlParse.SchemeName("https") && UrlParse.PlainHost("www.amazon.com")
  {
  }

  lemma OriginClean()
    ensures UrlParse.NoUnsafe(Origin)
  {
  }
}
