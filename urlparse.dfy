/** The reduction of a URL to its path, as `urllib.parse.urlparse(url).path`
    computes it (CPython 3.12): sanitise, split off the scheme, the network
    location, the fragment, the query and the `;params` of the last path
    segment, in that order. Only the bracket check of the network location
    is modelled among its validations. */
module UrlParse {
  import opened Base

  /** The six components of `urlparse`. */
  datatype Parts = Parts(scheme: string, netloc: string, path: string,
                         params: string, query: string, fragment: string)

  /** `urlparse` raises `ValueError("Invalid IPv6 URL")` on an unbalanced bracket. */
  datatype UrlError = InvalidIPv6Url

  /** The characters `lstrip` removes first: C0 controls and the space. */
  predicate IsC0OrSpace(c: char) { c <= ' ' }

  /** Tab, CR and LF are deleted wherever they stand. */
  predicate IsUnsafe(c: char) { c == '\t' || c == '\r' || c == '\n' }

  /** No tab, CR or LF anywhere. */
  predicate NoUnsafe(s: string) { forall c :: c in s ==> !IsUnsafe(c) }

  predicate IsAsciiAlpha(c: char) { 'a' <= c <= 'z' || 'A' <= c <= 'Z' }

  /** `scheme_chars`: ASCII letters, digits and `+-.` */
  predicate IsSchemeChar(c: char) {
    IsAsciiAlpha(c) || '0' <= c <= '9' || c == '+' || c == '-' || c == '.'
  }

  /** The schemes whose last path segment may carry `;params`. */
  const UsesParams: set<string> := {"", "ftp", "hdl", "prospero", "http", "imap", "https",
                                    "shttp", "rtsp", "rtsps", "rtspu", "sip", "sips",
                                    "mms", "sftp", "tel"}

  /** `url.lstrip(_WHATWG_C0_CONTROL_OR_SPACE)` */
  function LStrip(s: string): (r: string)
    ensures |r| <= |s| && s[|s| - |r|..] == r
    ensures r == [] || !IsC0OrSpace(r[0])
  {
    if s != [] && IsC0OrSpace(s[0]) then LStrip(s[1..]) else s
  }

  /** `url.replace(b, "")` for each of tab, CR and LF. */
  function RemoveUnsafe(s: string): (r: string)
    ensures NoUnsafe(r)
    ensures NoUnsafe(s) ==> r == s
  {
    if s == [] then []
    else if IsUnsafe(s[0]) then RemoveUnsafe(s[1..])
    else [s[0]] + RemoveUnsafe(s[1..])
  }

  /** `str.lower()` on scheme characters, which are all ASCII. */
  function Lower(s: string): (r: string)
    ensures |r| == |s|
  {
    if s == [] then []
    else
      var c := s[0];
      [if 'A' <= c <= 'Z' then (c as int + 32) as char else c] + Lower(s[1..])
  }

  /** Every character of `s` before index `i` is a scheme character. */
  predicate AllSchemeChars(s: string, i: int)
    requires 0 <= i <= |s|
  {
    forall k :: 0 <= k < i ==> IsSchemeChar(s[k])
  }

  /** The scheme and the rest: text before the first `:`, when it is a
      non-empty run of scheme characters that starts with a letter. */
  function SplitScheme(url: string): (r: (string, string))
    ensures r.0 == "" ==> r.1 == url
  {
    var i := Find(url, ':');
    if i > 0 && IsAsciiAlpha(url[0]) && AllSchemeChars(url, i)
    then (Lower(url[..i]), url[i + 1..])
    else ("", url)
  }

  /** `_splitnetloc(url, 2)`: the index where the network location ends,
      the first `/`, `?` or `#` at or after `k`, or the end. */
  function NetlocEnd(s: string, k: nat): (e: nat)
    requires k <= |s|
    ensures k <= e <= |s|
    ensures forall j :: k <= j < e ==> s[j] !in "/?#"
    ensures e < |s| ==> s[e] in "/?#"
    decreases |s| - k
  {
    if k == |s| || s[k] in "/?#" then k else NetlocEnd(s, k + 1)
  }

  /** `_splitparams(url)`: drops `;params` from the last path segment. */
  function SplitParams(url: string): (r: (string, string))
    requires ';' in url
    ensures StartsWith(url, r.0)
  {
    var i := if '/' in url then FindFrom(url, ';', RFind(url, '/')) else Find(url, ';');
    if i < 0 then (url, "") else (url[..i], url[i + 1..])
  }

  /** The sanitising prologue of `urlsplit`. */
  function Sanitize(url: string): string {
    RemoveUnsafe(LStrip(url))
  }

  /** The network location and what follows it. */
  function SplitNetloc(rest: string): (r: (string, string))
    ensures !StartsWith(rest, "//") ==> r == ("", rest)
  {
    if StartsWith(rest, "//") then
      var e := NetlocEnd(rest, 2);
      (rest[2..e], rest[e..])
    else ("", rest)
  }

  /** `url.split('#', 1)` then `url.split('?', 1)`: path (with params), query, fragment. */
  function SplitQueryFragment(rest: string): (r: (string, string, string))
    ensures '#' !in r.0 && '?' !in r.0
  {
    var beforeFragment := Before(rest, '#');
    var fragment := if '#' in rest then rest[|beforeFragment| + 1..] else "";
    var beforeQuery := Before(beforeFragment, '?');
    var query := if '?' in beforeFragment then beforeFragment[|beforeQuery| + 1..] else "";
    assert forall c :: c in beforeQuery ==> c in beforeFragment;
    (beforeQuery, query, fragment)
  }

  /** `urlparse(url)` */
  function Parse(url: string): (r: Result<Parts, UrlError>)
    ensures r.Success? ==> '#' !in r.value.path && '?' !in r.value.path
  {
    var (scheme, rest) := SplitScheme(Sanitize(url));
    var (netloc, rest') := SplitNetloc(rest);
    if ('[' in netloc && ']' !in netloc) || (']' in netloc && '[' !in netloc) then
      Failure(InvalidIPv6Url)
    else
      var (beforeParams, query, fragment) := SplitQueryFragment(rest');
      var (path, params) :=
        if scheme in UsesParams && ';' in beforeParams then SplitParams(beforeParams)
        else (beforeParams, "");
      assert forall c :: c in path ==> c in beforeParams;
      Success(Parts(scheme, netloc, path, params, query, fragment))
  }

  /** `urlparse(url).path` */
  function Path(url: string): (p: Result<string, UrlError>)
    ensures p.Success? <==> Parse(url).Success?
    ensures p.Success? ==> '?' !in p.value && '#' !in p.value
  {
    match Parse(url)
    case Success(parts) => Success(parts.path)
    case Failure(e) => Failure(e)
  }

  /** A network location without brackets, slashes, `?` or `#`. */
  predicate PlainHost(host: string) {
    forall c :: c in host ==> c !in "/?#[]"
  }

  /** A path as an HTTP URL writes it: empty or rooted, without a query,
      fragment or parameter delimiter. */
  predicate PlainPath(path: string) {
    (path == [] || path[0] == '/') && forall c :: c in path ==> c !in "?#;"
  }

  /** A well-formed scheme name. */
  predicate SchemeName(scheme: string) {
    |scheme| > 0 && IsAsciiAlpha(scheme[0]) && AllSchemeChars(scheme, |scheme|)
  }

  /** Scheme, host, query and fragment play no part in the path: for
      `scheme://host/path?query#fragment` written without tab, CR or LF,
      the path is `/path`. */
  lemma PathOfAbsoluteUrl(scheme: string, host: string, path: string, tail: string)
    requires SchemeName(scheme) && PlainHost(host) && PlainPath(path)
    requires tail == [] || tail[0] in "?#"
    requires NoUnsafe(scheme + "://" + host + path + tail)
    ensures Path(scheme + "://" + host + path + tail) == Success(path)
  {
    var url := scheme + "://" + host + path + tail;
    var rest := "//" + host + (path + tail);
    Regroup(scheme, host, path, tail);
    SchemeStage(scheme, host + path + tail);
    NetlocOfAbsoluteUrl(host, path + tail);
    QueryAndFragmentDropped(path, tail);
    PathFromStages(url, Lower(scheme), rest, host, path + tail, path);
  }

  /** The same URL, grouped the way each stage reads it. */
  lemma Regroup(scheme: string, host: string, path: string, tail: string)
    ensures scheme + "://" + host + path + tail == scheme + "://" + (host + path + tail)
    ensures "//" + (host + path + tail) == "//" + host + (path + tail)
  {
  }

  /** `Path` put together from its stages. */
  lemma PathFromStages(url: string, scheme: string, rest: string, netloc: string, rest': string, path: string)
    requires SplitScheme(Sanitize(url)) == (scheme, rest)
    requires SplitNetloc(rest) == (netloc, rest')
    requires PlainHost(netloc) && PlainPath(path)
    requires SplitQueryFragment(rest').0 == path
    ensures Path(url) == Success(path)
  {
    assert '[' !in netloc && ']' !in netloc;
    assert ';' !in path;
  }

  /** Sanitising and splitting off the scheme leave `//` and what follows it. */
  lemma SchemeStage(scheme: string, rest: string)
    requires SchemeName(scheme) && NoUnsafe(scheme + "://" + rest)
    ensures SplitScheme(Sanitize(scheme + "://" + rest)) == (Lower(scheme), "//" + rest)
  {
    var url := scheme + "://" + rest;
    SanitizeClean(url);
    SchemeOfAbsoluteUrl(scheme, rest);
  }

  /** Nothing to strip or delete in a URL that starts with a letter and has no tab, CR or LF. */
  lemma SanitizeClean(url: string)
    requires url != [] && IsAsciiAlpha(url[0])
    requires NoUnsafe(url)
    ensures Sanitize(url) == url
  {
    assert LStrip(url) == url;
  }

  /** The scheme ends at the colon of `://`. */
  lemma SchemeOfAbsoluteUrl(scheme: string, rest: string)
    requires SchemeName(scheme)
    ensures SplitScheme(scheme + "://" + rest) == (Lower(scheme), "//" + rest)
  {
    var url := scheme + "://" + rest;
    var i := |scheme|;
    assert url[..i] == scheme;
    assert forall k :: 0 <= k < i ==> url[k] == scheme[k];
    assert forall k :: 0 <= k < i ==> url[k] != ':' by {
      forall k | 0 <= k < i ensures url[k] != ':' {
        assert IsSchemeChar(scheme[k]);
      }
    }
    assert url[i] == ':';
    FindAt(url, ':', i);
    assert AllSchemeChars(url, i);
    assert url[i + 1..] == "//" + rest;
  }

  /** The network location ends at the first `/`, `?` or `#`. */
  lemma NetlocOfAbsoluteUrl(host: string, rest: string)
    requires PlainHost(host)
    requires rest == [] || rest[0] in "/?#"
    ensures SplitNetloc("//" + host + rest) == (host, rest)
  {
    var s := "//" + host + rest;
    assert StartsWith(s, "//");
    var e := 2 + |host|;
    forall j | 2 <= j < e ensures s[j] !in "/?#" {
      assert s[j] == host[j - 2];
      assert host[j - 2] in host;
    }
    NetlocEndAt(s, 2, e);
    assert s[2..e] == host;
    assert s[e..] == rest;
  }

  /** The fragment and the query are cut off a plain path. */
  lemma QueryAndFragmentDropped(path: string, tail: string)
    requires PlainPath(path)
    requires tail == [] || tail[0] in "?#"
    ensures SplitQueryFragment(path + tail).0 == path
  {
    if tail == [] {
      assert path + tail == path;
      assert Before(path, '#') == path && Before(path, '?') == path;
    } else if tail[0] == '#' {
      CutAtDelimiter(path, tail, '#');
      assert Before(path, '?') == path;
    } else {
      QueryDropped(path, tail);
    }
  }

  /** A query, and any fragment after it, are cut off a plain path. */
  lemma QueryDropped(path: string, tail: string)
    requires PlainPath(path)
    requires tail != [] && tail[0] == '?'
    ensures Before(Before(path + tail, '#'), '?') == path
  {
    var rest := path + tail;
    forall k | 0 <= k < |path| + 1 ensures rest[k] != '#' {
      if k < |path| {
        assert rest[k] == path[k];
        assert path[k] in path;
      }
    }
    BeforeKeepsPrefix(rest, '#', |path| + 1);
    var beforeFragment := Before(rest, '#');
    assert beforeFragment[..|path| + 1] == rest[..|path| + 1];
    assert path + beforeFragment[|path|..] == beforeFragment;
    CutAtDelimiter(path, beforeFragment[|path|..], '?');
  }

  /** A plain path followed by a delimiter is cut right before it. */
  lemma CutAtDelimiter(path: string, tail: string, c: char)
    requires PlainPath(path) && c in "?#"
    requires tail != [] && tail[0] == c
    ensures Before(path + tail, c) == path
  {
    var rest := path + tail;
    forall k | 0 <= k < |path| ensures rest[k] != c {
      assert rest[k] == path[k];
      assert path[k] in path;
    }
    FindAt(rest, c, |path|);
  }

  /** Cutting at `c` keeps a prefix that has no `c`. */
  lemma BeforeKeepsPrefix(s: string, c: char, n: nat)
    requires n <= |s| && forall k :: 0 <= k < n ==> s[k] != c
    ensures n <= |Before(s, c)| && Before(s, c)[..n] == s[..n]
  {
    var r := Before(s, c);
    assert s[..|r|] == r;
  }

  /** `NetlocEnd` stops at the first delimiter. */
  lemma {:induction false} NetlocEndAt(s: string, k: nat, e: nat)
    requires k <= e <= |s|
    requires forall j :: k <= j < e ==> s[j] !in "/?#"
    requires e == |s| || s[e] in "/?#"
    ensures NetlocEnd(s, k) == e
    decreases e - k
  {
    if k < e {
      NetlocEndAt(s, k + 1, e);
    }
  }

  /** `Find` returns the first occurrence. */
  lemma FindAt(s: string, c: char, i: nat)
    requires i < |s| && s[i] == c
    requires forall k :: 0 <= k < i ==> s[k] != c
    ensures Find(s, c) == i
  {
  }

  /** A URL put together from two pieces without tab, CR or LF has none. */
  lemma NoUnsafeJoin(a: string, b: string)
    requires NoUnsafe(a) && NoUnsafe(b)
    ensures NoUnsafe(a + b)
  {
    forall c | c in a + b ensures !IsUnsafe(c) {
      if c !in a {
        assert c in b;
      }
    }
  }
}
