/** The crawlability section of dashboard.py: the stand-in checker that
    refuses URLs by keyword, the table of verdicts for a list of URLs, and
    the percentage of them that may be crawled. */
module Dashboard {
  import opened Base

  const DisallowedKeywords := ["signin", "wishlist"]

  /** `any(word in url for word in keywords)` */
  function AnyKeywordIn(keywords: seq<string>, url: string): (found: bool)
    ensures found <==> exists i :: 0 <= i < |keywords| && Contains(url, keywords[i])
  {
    if keywords == [] then false
    else if Contains(url, keywords[0]) then true
    else
      var rest := AnyKeywordIn(keywords[1..], url);
      assert forall i :: 1 <= i < |keywords| ==> keywords[i] == keywords[1..][i - 1];
      rest
  }

  /** The stand-in `CrawlabilityChecker.can_crawl(url)`: allowed exactly
      when neither keyword occurs anywhere in the URL, host and query
      included. */
  function StubCanCrawl(url: string): (allowed: bool)
    ensures allowed <==> !Contains(url, "signin") && !Contains(url, "wishlist")
  {
    assert DisallowedKeywords[0] == "signin" && DisallowedKeywords[1] == "wishlist";
    !AnyKeywordIn(DisallowedKeywords, url)
  }

  /** A URL with either keyword anywhere in it is refused. */
  lemma KeywordRefused(before: string, keyword: string, after: string)
    requires keyword in DisallowedKeywords
    ensures !StubCanCrawl(before + keyword + after)
  {
    ContainsInside(before, keyword, after);
  }

  /** A URL lacking a letter of each keyword is allowed. */
  lemma LackingLettersAllowed(url: string, fromSignin: char, fromWishlist: char)
    requires fromSignin in "signin" && fromSignin !in url
    requires fromWishlist in "wishlist" && fromWishlist !in url
    ensures StubCanCrawl(url)
  {
    MissingCharNotContained(url, "signin", fromSignin);
    MissingCharNotContained(url, "wishlist", fromWishlist);
  }

  /** One row of `df_crawl`. */
  datatype Row = Row(url: string, allowed: bool)

  /** `results = [{"URL": url, "Allowed": checker.can_crawl(url)} for url in urls]` */
  function Results(urls: seq<string>): (rows: seq<Row>)
    ensures |rows| == |urls|
    ensures forall i :: 0 <= i < |urls| ==> rows[i].url == urls[i] && rows[i].allowed == StubCanCrawl(urls[i])
  {
    if urls == [] then []
    else
      var rest := Results(urls[1..]);
      assert forall i :: 1 <= i < |urls| ==> urls[i] == urls[1..][i - 1];
      [Row(urls[0], StubCanCrawl(urls[0]))] + rest
  }

  /** `df_crawl["Allowed"].sum()`: the number of allowed rows. */
  function AllowedCount(rows: seq<Row>): (n: nat)
    ensures n <= |rows|
  {
    if rows == [] then 0
    else AllowedCount(rows[..|rows| - 1]) + (if rows[|rows| - 1].allowed then 1 else 0)
  }

  /** The positions of the allowed rows. */
  ghost function AllowedRows(rows: seq<Row>): set<nat> {
    set i: nat | i < |rows| && rows[i].allowed
  }

  /** The count is the number of allowed rows. */
  lemma {:induction false} AllowedCountCountsRows(rows: seq<Row>)
    ensures AllowedCount(rows) == |AllowedRows(rows)|
  {
    if rows != [] {
      AllowedCountCountsRows(rows[..|rows| - 1]);
      LastRow(rows);
    }
  }

  lemma LastRow(rows: seq<Row>)
    requires rows != []
    ensures var init, last := rows[..|rows| - 1], |rows| - 1;
      && last !in AllowedRows(init)
      && AllowedRows(rows) == AllowedRows(init) + (if rows[last].allowed then {last} else {})
  {
    var init := rows[..|rows| - 1];
    assert forall i :: 0 <= i < |init| ==> init[i] == rows[i];
  }

  /** Every row is counted exactly when every row is allowed, and none
      exactly when none is. */
  lemma {:induction false} AllowedCountExtremes(rows: seq<Row>)
    ensures AllowedCount(rows) == |rows| <==> forall i :: 0 <= i < |rows| ==> rows[i].allowed
    ensures AllowedCount(rows) == 0 <==> forall i :: 0 <= i < |rows| ==> !rows[i].allowed
  {
    if rows != [] {
      var init := rows[..|rows| - 1];
      AllowedCountExtremes(init);
      assert forall i :: 0 <= i < |init| ==> init[i] == rows[i];
    }
  }

  /** Reading `df_crawl["Allowed"]` on an empty table raises `KeyError`. */
  datatype ScoreError = NoAllowedColumn

  /** `(allowed_count / total_count) * 100`. */
  function CrawlScore(rows: seq<Row>): (score: Result<real, ScoreError>)
    ensures score.Failure? <==> rows == []
    ensures score.Success? ==> 0.0 <= score.value <= 100.0
    ensures score.Success? ==> score.value * |rows| as real == 100.0 * AllowedCount(rows) as real
  {
    if rows == [] then Failure(NoAllowedColumn)
    else
      var allowed, total := AllowedCount(rows) as real, |rows| as real;
      var fraction := allowed / total;
      FractionBounds(allowed, total);
      DivideThenMultiply(allowed, total);
      Reassociate(fraction, 100.0, total);
      Success(fraction * 100.0)
  }

  lemma FractionBounds(allowed: real, total: real)
    requires 0.0 <= allowed <= total && total > 0.0
    ensures 0.0 <= allowed / total <= 1.0
  {
    var fraction := allowed / total;
    DivideThenMultiply(allowed, total);
    SignOfProduct(fraction, total);
    Distribute(fraction, 1.0, total);
    SignOfProduct(fraction - 1.0, total);
  }

  const Home := Origin + "/"

  /** The URLs the dashboard checks. */
  const CheckedUrls := [
    Home,
    Home + "s?k=smartphones",
    Home + "dp/B09G3HRMVP",
    Home + "ap/signin",
    Home + "gp/wishlist"
  ]

  /** The home, search and product pages are allowed, sign-in and the wish
      list refused, so the dashboard shows a score of 60. */
  lemma DashboardScore()
    ensures AllowedCount(Results(CheckedUrls)) == 3
    ensures CrawlScore(Results(CheckedUrls)) == Success(60.0)
  {
    CheckedUrlsPieces();
    CheckedUrlVerdicts();
    ThreeOfFive(CheckedUrls);
  }

  lemma CheckedUrlVerdicts()
    ensures StubCanCrawl(Home + "") && StubCanCrawl(Home + "s?k=smartphones") && StubCanCrawl(Home + "dp/B09G3HRMVP")
    ensures !StubCanCrawl(Home + "ap/" + "signin" + "") && !StubCanCrawl(Home + "gp/" + "wishlist" + "")
  {
    SitePageAllowed("");
    SitePageAllowed("s?k=smartphones");
    SitePageAllowed("dp/B09G3HRMVP");
    KeywordRefused(Home + "ap/", "signin", "");
    KeywordRefused(Home + "gp/", "wishlist", "");
  }

  /** Every page of the site whose path and query lack a `g` and an `i` is
      allowed: the host name has neither letter. */
  lemma SitePageAllowed(rest: string)
    requires 'g' !in rest && 'i' !in rest
    ensures StubCanCrawl(Home + rest)
  {
    HomeLacksLetters();
    LackingLettersAllowed(Home + rest, 'g', 'i');
  }

  lemma CheckedUrlsPieces()
    ensures |CheckedUrls| == 5
    ensures CheckedUrls[0] == Home + ""
    ensures CheckedUrls[1] == Home + "s?k=smartphones"
    ensures CheckedUrls[2] == Home + "dp/B09G3HRMVP"
    ensures CheckedUrls[3] == Home + "ap/" + "signin" + ""
    ensures CheckedUrls[4] == Home + "gp/" + "wishlist" + ""
  {
  }

  lemma HomeLacksLetters()
    ensures 'g' !in Home && 'i' !in Home
  {
  }

  lemma ThreeOfFive(urls: seq<string>)
    requires |urls| == 5
    requires StubCanCrawl(urls[0]) && StubCanCrawl(urls[1]) && StubCanCrawl(urls[2])
    requires !StubCanCrawl(urls[3]) && !StubCanCrawl(urls[4])
    ensures AllowedCount(Results(urls)) == 3
    ensures CrawlScore(Results(urls)) == Success(60.0)
  {
    CountOfVerdicts(Results(urls));
  }

  lemma CountOfVerdicts(rows: seq<Row>)
    requires |rows| == 5
    requires rows[0].allowed && rows[1].allowed && rows[2].allowed && !rows[3].allowed && !rows[4].allowed
    ensures AllowedCount(rows) == 3
    ensures CrawlScore(rows) == Success(60.0)
  {
    assert rows[..1][..0] == [];
    assert AllowedCount(rows[..1]) == 1;
    assert rows[..2][..1] == rows[..1];
    assert AllowedCount(rows[..2]) == 2;
    assert rows[..3][..2] == rows[..2];
    assert AllowedCount(rows[..3]) == 3;
    assert rows[..4][..3] == rows[..3];
    assert AllowedCount(rows[..4]) == 3;
    assert rows[..5][..4] == rows[..4];
    assert rows[..5] == rows;
  }
}
