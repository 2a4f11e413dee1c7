/** `extract_repo_info` (apps/api/app/utils/repo_utils.py, repeated in
    apps/api/app/services/background_tasks.py): owner and repository name
    are the first two segments of the URL's path, as Python 3.12's
    `urllib.parse.urlparse` splits the URL. */
module RepoUtils {
  import opened Wrappers
  import opened PyStrings

  /** What `urlparse` returns. */
  datatype ParsedUrl = ParsedUrl(scheme: string, netloc: string, path: string,
                                 params: string, query: string, fragment: string)

  /** The characters `urlsplit` strips from the front of a URL (C0 controls and space). */
  predicate IsC0OrSpace(c: char)
  {
    c <= ' '
  }

  /** The characters `urlsplit` deletes anywhere in a URL. */
  predicate IsUnsafe(c: char)
  {
    c == '\t' || c == '\r' || c == '\n'
  }

  function RemoveUnsafe(s: string): (r: string)
    ensures |r| <= |s|
    ensures forall i :: 0 <= i < |r| ==> !IsUnsafe(r[i])
  {
    if s == [] then [] else (if IsUnsafe(s[0]) then [] else [s[0]]) + RemoveUnsafe(s[1..])
  }

  predicate IsAsciiAlpha(c: char)
  {
    'a' <= c <= 'z' || 'A' <= c <= 'Z'
  }

  predicate IsSchemeChar(c: char)
  {
    IsAsciiAlpha(c) || '0' <= c <= '9' || c == '+' || c == '-' || c == '.'
  }

  /** The scheme before the first ':' (lower-cased) and the rest, when the
      text before that ':' is a scheme; otherwise no scheme. */
  function SplitScheme(url: string): (string, string)
  {
    if ':' !in url then ([], url)
    else
      var i := IndexOf(url, ':');
      if i > 0 && IsAsciiAlpha(url[0]) && forall j :: 0 <= j < i ==> IsSchemeChar(url[j])
      then (Lower(url[..i]), url[i + 1..])
      else ([], url)
  }

  /** Position of the first character of `s` in `cs`, or `|s|`. */
  function FirstOf(s: string, cs: set<char>): (i: nat)
    ensures i <= |s|
    ensures forall j :: 0 <= j < i ==> s[j] !in cs
    ensures i < |s| ==> s[i] in cs
  {
    if s == [] || s[0] in cs then 0 else 1 + FirstOf(s[1..], cs)
  }

  /** `s.split(c, 1)` when `c in s`: before and after the first `c`. */
  function SplitOnce(s: string, c: char): (r: (string, string))
    ensures c !in r.0
    ensures c in s ==> r.0 + [c] + r.1 == s
    ensures c !in s ==> r == (s, [])
  {
    if c in s then (s[..IndexOf(s, c)], s[IndexOf(s, c) + 1..]) else (s, [])
  }

  /** `urlsplit`, except the NFKC check of a non-ASCII network location
      (`_checknetloc`) and the validation of a bracketed host
      (`_check_bracketed_netloc`). */
  function UrlSplit(url: string): (r: Result<ParsedUrl>)
    ensures r.Err? ==> r.error == "Invalid IPv6 URL"
    ensures r.Ok? ==> && r.value.params == []
                      && ('[' in r.value.netloc <==> ']' in r.value.netloc)
                      && '/' !in r.value.netloc && '?' !in r.value.netloc && '#' !in r.value.netloc
                      && '?' !in r.value.path && '#' !in r.value.path && '#' !in r.value.query
  {
    var (scheme, rest) := SplitScheme(RemoveUnsafe(LStripBy(url, IsC0OrSpace)));
    if |rest| >= 2 && rest[..2] == "//" then SplitNetloc(scheme, rest[2..])
    else SplitFragmentAndQuery(scheme, [], rest)
  }

  /** The characters that end the network location. */
  const NetlocEnd: set<char> := {'/', '?', '#'}

  /** After "//": the network location runs up to the first '/', '?' or '#';
      a '[' without ']' (or the reverse) is refused. */
  function SplitNetloc(scheme: string, tail: string): (r: Result<ParsedUrl>)
    ensures r.Err? ==> r.error == "Invalid IPv6 URL"
    ensures r.Ok? ==> && r.value.netloc == tail[..FirstOf(tail, NetlocEnd)]
                      && ('[' in r.value.netloc <==> ']' in r.value.netloc)
                      && '/' !in r.value.netloc && '?' !in r.value.netloc && '#' !in r.value.netloc
  {
    var d := FirstOf(tail, NetlocEnd);
    var netloc := tail[..d];
    if ('[' in netloc) != (']' in netloc) then Err("Invalid IPv6 URL")
    else SplitFragmentAndQuery(scheme, netloc, tail[d..])
  }

  /** The fragment follows the first '#', the query the first '?' before it. */
  function SplitFragmentAndQuery(scheme: string, netloc: string, rest: string): (r: Result<ParsedUrl>)
    ensures r.Ok? && r.value.scheme == scheme && r.value.netloc == netloc && r.value.params == []
    ensures '?' !in r.value.path && '#' !in r.value.path && '#' !in r.value.query
  {
    var (beforeFragment, fragment) := SplitOnce(rest, '#');
    var (path, query) := SplitOnce(beforeFragment, '?');
    Ok(ParsedUrl(scheme, netloc, path, [], query, fragment))
  }

  /** The schemes whose URLs carry `;params` in their last path segment. */
  const UsesParams: set<string> := {
    "", "ftp", "hdl", "prospero", "http", "imap", "https", "shttp", "rtsp",
    "rtsps", "rtspu", "sip", "sips", "mms", "sftp", "tel"
  }

  /** `_splitparams`: the `;` that starts the parameters is searched from the last '/'. */
  function SplitParams(path: string): (r: (string, string))
    requires ';' in path
    ensures r == (path, []) || r.0 + ";" + r.1 == path
  {
    if '/' in path then
      var last := RFindChar(path, '/');
      var tail := path[last..];
      if ';' in tail then
        var i := last + IndexOf(tail, ';');
        (path[..i], path[i + 1..])
      else (path, [])
    else
      var i := IndexOf(path, ';');
      (path[..i], path[i + 1..])
  }

  /** Position of the last `c` in `s`. */
  function RFindChar(s: string, c: char): (i: nat)
    requires c in s
    ensures i < |s| && s[i] == c && c !in s[i + 1..]
  {
    if s[|s| - 1] == c then |s| - 1
    else
      assert c in s[..|s| - 1] by {
        var k :| 0 <= k < |s| && s[k] == c;
        assert s[..|s| - 1][k] == c;
      }
      RFindChar(s[..|s| - 1], c)
  }

  /** `urllib.parse.urlparse`. */
  function UrlParse(url: string): (r: Result<ParsedUrl>)
    ensures r.Err? <==> UrlSplit(url).Err?
    ensures r.Err? ==> r == UrlSplit(url)
    ensures r.Ok? ==> var p := UrlSplit(url).value;
                      && r.value.scheme == p.scheme && r.value.netloc == p.netloc
                      && r.value.query == p.query && r.value.fragment == p.fragment
                      && (r.value == p || r.value.path + ";" + r.value.params == p.path)
  {
    match UrlSplit(url)
    case Err(e) => Err(e)
    case Ok(p) =>
      if p.scheme in UsesParams && ';' in p.path then
        var (path, params) := SplitParams(p.path);
        Ok(p.(path := path, params := params))
      else Ok(p)
  }

  /** The dictionary `extract_repo_info` returns. */
  datatype RepoInfo = RepoInfo(owner: string, repoName: string, fullName: string, cloneUrl: string)

  /** Drop one trailing ".git". */
  function StripGitSuffix(url: string): (r: string)
    ensures EndsWith(url, ".git") ==> r + ".git" == url
    ensures !EndsWith(url, ".git") ==> r == url
  {
    if EndsWith(url, ".git") then url[..|url| - 4] else url
  }

  /** Everything `extract_repo_info` does after the ".git" suffix is gone. */
  function RepoInfoFromUrl(url: string): (r: Result<RepoInfo>)
    ensures r.Err? ==> StartsWith(r.error, InvalidUrl)
  {
    match UrlParse(url)
    case Err(e) =>
      PrefixOfConcat(InvalidUrl, e);
      Err(InvalidUrl + e)
    case Ok(parsed) => RepoInfoFromPath(parsed.path)
  }

  /** Owner and name are the first two '/'-separated segments of the path
      once its leading and trailing '/' are stripped. */
  function RepoInfoFromPath(path: string): (r: Result<RepoInfo>)
    ensures r.Ok? ==> && r.value.owner != []
                      && '/' !in r.value.owner && '/' !in r.value.repoName
                      && r.value.fullName == r.value.owner + "/" + r.value.repoName
                      && r.value.cloneUrl == "https://github.com/" + r.value.fullName + ".git"
    ensures r.Err? ==> StartsWith(r.error, InvalidUrl)
  {
    var parts := Split(StripChar(path, '/'), '/');
    if |parts| < 2 then
      PrefixOfConcat(InvalidUrl, "Invalid GitHub URL format");
      Err(InvalidUrl + "Invalid GitHub URL format")
    else
      SplitHead(StripChar(path, '/'), '/');
      var owner := parts[0];
      var repoName := parts[1];
      var fullName := owner + "/" + repoName;
      Ok(RepoInfo(owner, repoName, fullName, "https://github.com/" + fullName + ".git"))
  }

  const InvalidUrl: string := "Invalid GitHub URL: "

  lemma PrefixOfConcat(a: string, b: string)
    ensures StartsWith(a + b, a)
  {
    assert (a + b)[..|a|] == a;
  }

  /** `extract_repo_info(github_url)`; an error is the `ValueError` it raises. */
  function ExtractRepoInfo(githubUrl: string): (r: Result<RepoInfo>)
    ensures r.Ok? ==> && r.value.owner != []
                      && '/' !in r.value.owner && '/' !in r.value.repoName
                      && r.value.fullName == r.value.owner + "/" + r.value.repoName
                      && r.value.cloneUrl == "https://github.com/" + r.value.fullName + ".git"
    ensures r.Err? ==> StartsWith(r.error, InvalidUrl)
  {
    RepoInfoFromUrl(StripGitSuffix(githubUrl))
  }

  /** Exactly one ".git" is removed: a URL with ".git" appended is read as the
      URL itself, and a URL without that suffix is read unchanged. */
  lemma GitSuffixOnce(url: string)
    ensures ExtractRepoInfo(url + ".git") == RepoInfoFromUrl(url)
    ensures !EndsWith(url, ".git") ==> ExtractRepoInfo(url) == RepoInfoFromUrl(url)
  {
    assert EndsWith(url + ".git", ".git");
    assert (url + ".git")[..|url|] == url;
  }

  /** A segment of a URL path that no URL delimiter splits. */
  predicate PlainSegment(s: string)
  {
    s != [] && forall i :: 0 <= i < |s| ==> s[i] !in {'/', '?', '#', ';', '\t', '\r', '\n'}
  }

  /** A host that `urlsplit` accepts and ends at the first '/': ASCII, so
      that the NFKC check of `_checknetloc` passes it untouched, and free of
      brackets, so that `_check_bracketed_netloc` does not apply. */
  predicate PlainHost(h: string)
  {
    forall i :: 0 <= i < |h| ==> h[i] as int < 128 && h[i] !in {'/', '?', '#', '[', ']', '\t', '\r', '\n'}
  }

  lemma RemoveUnsafeNone(s: string)
    requires forall i :: 0 <= i < |s| ==> !IsUnsafe(s[i])
    ensures RemoveUnsafe(s) == s
  {
    if s != [] {
      RemoveUnsafeNone(s[1..]);
    }
  }

  lemma SplitTwo(a: string, b: string)
    requires a != [] && '/' !in a && '/' !in b
    ensures Split(a + "/" + b, '/') == [a, b]
  {
    var s := a + "/" + b;
    assert s[|a|] == '/';
    assert '/' in s;
    assert IndexOf(s, '/') == |a| by {
      assert s[..|a|] == a;
    }
    assert s[..|a|] == a && s[|a| + 1..] == b;
  }

  lemma LStripLeadingSlash(t: string)
    ensures LStripChar("/" + t, '/') == LStripChar(t, '/')
  {
    var s := "/" + t;
    assert s[0] == '/' && s[1..] == t;
  }

  /** Stripping '/' leaves a text alone that neither starts nor ends with '/'. */
  lemma StripNoSlash(t: string)
    requires t != [] && t[0] != '/' && t[|t| - 1] != '/'
    ensures StripChar(t, '/') == t
  {
  }

  lemma StripSlashes(owner: string, repo: string)
    requires PlainSegment(owner) && PlainSegment(repo)
    ensures StripChar("/" + owner + "/" + repo, '/') == owner + "/" + repo
  {
    var t := owner + "/" + repo;
    assert "/" + owner + "/" + repo == "/" + t;
    LStripLeadingSlash(t);
    assert t[0] == owner[0] && owner[0] != '/';
    assert t[|t| - 1] == repo[|repo| - 1] && repo[|repo| - 1] != '/';
    StripNoSlash(t);
  }

  lemma StripSlash(owner: string)
    requires PlainSegment(owner)
    ensures StripChar("/" + owner, '/') == owner
  {
    LStripLeadingSlash(owner);
    assert owner[0] != '/' && owner[|owner| - 1] != '/';
    StripNoSlash(owner);
  }

  /** The scheme "https" is split off an https URL. */
  lemma HttpsScheme(rest: string)
    ensures SplitScheme("https:" + rest) == ("https", rest)
  {
    var url := "https:" + rest;
    assert url[5] == ':' && ':' !in url[..5];
    assert IndexOf(url, ':') == 5;
    assert url[..5] == "https" && url[6..] == rest;
    assert Lower("https") == "https";
  }

  lemma FirstOfPrefix(a: string, b: string, cs: set<char>)
    requires forall i :: 0 <= i < |a| ==> a[i] !in cs
    requires b != [] && b[0] in cs
    ensures FirstOf(a + b, cs) == |a|
  {
    if a != [] {
      assert (a + b)[1..] == a[1..] + b;
      FirstOfPrefix(a[1..], b, cs);
    }
  }

  /** A path `urlsplit` leaves whole: it starts at a '/' and holds no query,
      fragment, parameters or deleted characters. */
  predicate PlainPath(path: string)
  {
    path != [] && path[0] == '/'
    && forall i :: 0 <= i < |path| ==> path[i] !in {'?', '#', ';', '\t', '\r', '\n'}
  }

  lemma HttpsUrlIsSafe(host: string, path: string)
    requires PlainHost(host) && PlainPath(path)
    ensures RemoveUnsafe(LStripBy("https://" + host + path, IsC0OrSpace)) == "https://" + host + path
  {
    var url := "https://" + host + path;
    assert url[0] == 'h';
    forall i | 0 <= i < |url| ensures !IsUnsafe(url[i]) {
      if i < 8 { } else if i < 8 + |host| { assert url[i] == host[i - 8]; }
      else { assert url[i] == path[i - 8 - |host|]; }
    }
    RemoveUnsafeNone(url);
  }

  lemma HostSplit(host: string, path: string)
    requires PlainHost(host) && PlainPath(path)
    ensures SplitNetloc("https", host + path) == Ok(ParsedUrl("https", host, path, [], [], []))
  {
    FirstOfPrefix(host, path, NetlocEnd);
    assert (host + path)[..|host|] == host && (host + path)[|host|..] == path;
    assert '[' !in host && ']' !in host;
    assert '#' !in path && '?' !in path;
  }

  /** `urlsplit` of a URL whose cleaned form has a scheme and a "//". */
  lemma UrlSplitWithNetloc(url: string, scheme: string, rest: string)
    requires SplitScheme(RemoveUnsafe(LStripBy(url, IsC0OrSpace))) == (scheme, rest)
    requires |rest| >= 2 && rest[..2] == "//"
    ensures UrlSplit(url) == SplitNetloc(scheme, rest[2..])
  {
  }

  lemma HttpsPrefix(host: string, path: string)
    ensures "https://" + host + path == "https:" + ("//" + host + path)
    ensures var rest := "//" + host + path; |rest| >= 2 && rest[..2] == "//" && rest[2..] == host + path
  {
  }

  /** Without a ';' in the path, `urlparse` is `urlsplit`. */
  lemma UrlParseNoParams(url: string, p: ParsedUrl)
    requires UrlSplit(url) == Ok(p) && ';' !in p.path
    ensures UrlParse(url) == Ok(p)
  {
  }

  lemma SplitHttps(host: string, path: string)
    requires PlainHost(host) && PlainPath(path)
    ensures UrlSplit("https://" + host + path) == Ok(ParsedUrl("https", host, path, [], [], []))
  {
    var rest := "//" + host + path;
    HttpsPrefix(host, path);
    HttpsUrlIsSafe(host, path);
    HttpsScheme(rest);
    UrlSplitWithNetloc("https://" + host + path, "https", rest);
    HostSplit(host, path);
  }

  /** How `urlparse` splits "https://" + host + path. */
  lemma ParseHttps(host: string, path: string)
    requires PlainHost(host) && PlainPath(path)
    ensures UrlParse("https://" + host + path) == Ok(ParsedUrl("https", host, path, [], [], []))
  {
    SplitHttps(host, path);
    assert ';' !in path;
    UrlParseNoParams("https://" + host + path, ParsedUrl("https", host, path, [], [], []));
  }

  /** ".git" has no '/', so a URL ends with it only if its last segment does. */
  lemma GitSuffixOfLastSegment(x: string, seg: string)
    ensures EndsWith(x + "/" + seg, ".git") ==> EndsWith(seg, ".git")
  {
    var s := x + "/" + seg;
    if EndsWith(s, ".git") {
      assert s[|x|] == '/';
      assert |seg| >= 4;
      assert s[|s| - 4..] == seg[|seg| - 4..];
    }
  }

  lemma PlainPathOf(owner: string, repo: string)
    requires PlainSegment(owner) && PlainSegment(repo)
    ensures PlainPath("/" + owner + "/" + repo)
  {
    var path := "/" + owner + "/" + repo;
    forall i | 0 <= i < |path| ensures path[i] !in {'?', '#', ';', '\t', '\r', '\n'} {
      if i == 0 { } else if i < 1 + |owner| { assert path[i] == owner[i - 1]; }
      else if i == 1 + |owner| { } else { assert path[i] == repo[i - 2 - |owner|]; }
    }
  }

  lemma TwoSegmentPath(owner: string, repo: string)
    requires PlainSegment(owner) && PlainSegment(repo)
    ensures var fullName := owner + "/" + repo;
      RepoInfoFromPath("/" + owner + "/" + repo)
      == Ok(RepoInfo(owner, repo, fullName, "https://github.com/" + fullName + ".git"))
  {
    StripSlashes(owner, repo);
    SplitTwo(owner, repo);
  }

  lemma OneSegmentPath(owner: string)
    requires PlainSegment(owner)
    ensures RepoInfoFromPath("/" + owner) == Err(InvalidUrl + "Invalid GitHub URL format")
  {
    StripSlash(owner);
    assert '/' !in owner;
  }

  /** The host is not checked: for any plain ASCII host and any plain owner and
      repository name, with or without ".git", the URL yields that owner and
      name. */
  lemma {:induction false} ExtractFromAnyHost(host: string, owner: string, repo: string, suffix: string)
    requires PlainHost(host) && PlainSegment(owner) && PlainSegment(repo)
    requires !EndsWith(repo, ".git")
    requires suffix == "" || suffix == ".git"
    ensures var fullName := owner + "/" + repo;
      ExtractRepoInfo("https://" + host + "/" + owner + "/" + repo + suffix)
      == Ok(RepoInfo(owner, repo, fullName, "https://github.com/" + fullName + ".git"))
  {
    var path := "/" + owner + "/" + repo;
    var url := "https://" + host + path;
    assert "https://" + host + "/" + owner + "/" + repo + suffix == url + suffix;
    if suffix == ".git" {
      GitSuffixOnce(url);
    } else {
      assert url + suffix == url;
      assert url == ("https://" + host + "/" + owner) + "/" + repo;
      GitSuffixOfLastSegment("https://" + host + "/" + owner, repo);
      assert StripGitSuffix(url) == url;
    }
    PlainPathOf(owner, repo);
    ParseHttps(host, path);
    TwoSegmentPath(owner, repo);
  }

  /** A path with a single segment is refused, whatever the (plain ASCII) host. */
  lemma {:induction false} OneSegmentRefused(host: string, owner: string)
    requires PlainHost(host) && PlainSegment(owner) && !EndsWith(owner, ".git")
    ensures ExtractRepoInfo("https://" + host + "/" + owner) == Err(InvalidUrl + "Invalid GitHub URL format")
  {
    var path := "/" + owner;
    var url := "https://" + host + path;
    assert "https://" + host + "/" + owner == url;
    GitSuffixOfLastSegment("https://" + host, owner);
    assert PlainPath(path) by {
      forall i | 0 <= i < |path| ensures path[i] !in {'?', '#', ';', '\t', '\r', '\n'} {
        if i > 0 { assert path[i] == owner[i - 1]; }
      }
    }
    ParseHttps(host, path);
    OneSegmentPath(owner);
  }
}
