/** `GitHubService` (apps/api/app/services/github_service.py): URL parsing,
    the fork wrapper and its error messages, clone arguments, applying file
    operations, and the fork, clone, commit, push and cleanup workflow.
    Every call to the GitHub API, to git and to the file system is an input
    outcome. */
module GitHub {
  import opened Wrappers
  import opened PyStrings
  import opened RepositoryInfoModel

  // ---------------------------------------------------------------------
  // _parse_github_url

  /** `github_url.strip().rstrip("/")` */
  function Trimmed(githubUrl: string): string
  {
    RStripChar(Strip(githubUrl), '/')
  }

  /** `url.split("://", 1)[1]` when the URL starts with "http://" or
      "https://": the first "://" is the scheme's. */
  function WithoutScheme(url: string): string
  {
    if StartsWith(url, "http://") then url[7..]
    else if StartsWith(url, "https://") then url[8..]
    else url
  }

  /** One leading "github.com/" or "www.github.com/" removed. */
  function WithoutHost(url: string): string
  {
    if StartsWith(url, "github.com/") then url[11..]
    else if StartsWith(url, "www.github.com/") then url[15..]
    else url
  }

  /** The text that `_parse_github_url` splits on "/". */
  function RepoPath(githubUrl: string): string
  {
    WithoutHost(WithoutScheme(Trimmed(githubUrl)))
  }

  datatype OwnerAndName = OwnerAndName(owner: string, repoName: string)

  function ParseGitHubUrl(githubUrl: string): (r: Option<OwnerAndName>)
    ensures r.Some? <==> '/' in RepoPath(githubUrl)
    ensures r.Some? ==> '/' !in r.value.owner && '/' !in r.value.repoName
  {
    var parts := Split(RepoPath(githubUrl), '/');
    if |parts| >= 2 then Some(OwnerAndName(parts[0], parts[1])) else None
  }

  /** `path` begins with `owner/repoName`, followed by nothing or by another "/". */
  predicate LeadingSegments(path: string, owner: string, repoName: string)
  {
    var n := |owner| + 1 + |repoName|;
    owner + "/" + repoName <= path && (|path| == n || path[n] == '/')
  }

  /** A segment followed by the end of the text or by "/" is the first part of the split. */
  lemma FirstSegment(s: string, segment: string)
    requires '/' !in segment && segment <= s && (|s| == |segment| || s[|segment|] == '/')
    ensures Split(s, '/')[0] == segment
  {
    SplitHead(s, '/');
    if |s| == |segment| {
      assert s == segment;
    } else {
      assert s[..|segment|] == segment;
      IndexOfUnique(s, '/', |segment|);
    }
  }

  /** The first part of a split is followed by the end of the text or by "/". */
  lemma FirstSegmentEnds(s: string)
    ensures var h := Split(s, '/')[0]; h <= s && (|s| == |h| || s[|h|] == '/')
  {
    SplitHead(s, '/');
  }

  /** Two leading segments are the first two parts of the split. */
  lemma LeadingSegmentsAreParts(path: string, owner: string, repoName: string)
    requires '/' !in owner && '/' !in repoName && LeadingSegments(path, owner, repoName)
    ensures var parts := Split(path, '/'); |parts| >= 2 && parts[0] == owner && parts[1] == repoName
  {
    assert owner <= path;
    FirstSegment(path, owner);
    IndexOfUnique(path, '/', |owner|);
    var rest := path[|owner| + 1..];
    assert Split(path, '/') == [owner] + Split(rest, '/');
    assert repoName <= rest;
    FirstSegment(rest, repoName);
  }

  /** The first two parts of a split are leading segments. */
  lemma PartsAreLeadingSegments(path: string)
    requires |Split(path, '/')| >= 2
    ensures LeadingSegments(path, Split(path, '/')[0], Split(path, '/')[1])
  {
    assert '/' in path;
    var i := IndexOf(path, '/');
    SplitAt(path, '/', i);
    var rest := path[i + 1..];
    FirstSegmentEnds(rest);
    var h := Split(rest, '/')[0];
    assert Split(path, '/')[0] == path[..i] && Split(path, '/')[1] == h;
    SegmentsJoin(path, i, h);
  }

  /** A first segment, its "/", and a segment that ends the rest lead the path. */
  lemma SegmentsJoin(path: string, i: nat, h: string)
    requires i < |path| && path[i] == '/'
    requires var rest := path[i + 1..]; h <= rest && (|rest| == |h| || rest[|h|] == '/')
    ensures LeadingSegments(path, path[..i], h)
  {
    var n := i + 1 + |h|;
    assert path[..i] + "/" + h == path[..n];
  }

  /** The parse succeeds with `owner` and `repoName` exactly when they are
      the path's first two "/"-segments; anything after them is ignored. */
  lemma ParseFindsLeadingSegments(githubUrl: string, owner: string, repoName: string)
    ensures ParseGitHubUrl(githubUrl) == Some(OwnerAndName(owner, repoName))
            <==> '/' !in owner && '/' !in repoName && LeadingSegments(RepoPath(githubUrl), owner, repoName)
  {
    var path := RepoPath(githubUrl);
    if '/' !in owner && '/' !in repoName && LeadingSegments(path, owner, repoName) {
      LeadingSegmentsAreParts(path, owner, repoName);
    }
    if ParseGitHubUrl(githubUrl) == Some(OwnerAndName(owner, repoName)) {
      PartsAreLeadingSegments(path);
    }
  }

  /** The spellings of a GitHub repository URL that the parser removes in front of the path. */
  predicate GitHubPrefix(prefix: string)
  {
    prefix in {"https://github.com/", "http://github.com/", "https://www.github.com/",
               "http://www.github.com/", "github.com/", "www.github.com/"}
  }

  /** A text with no surrounding whitespace and no trailing "/" survives the trimming. */
  lemma TrimmedKeeps(s: string)
    requires s != [] && !IsSpace(s[0]) && !IsSpace(s[|s| - 1]) && s[|s| - 1] != '/'
    ensures Trimmed(s) == s
  {
    assert LStripBy(s, IsSpace) == s;
  }

  /** Behind any of the accepted prefixes, the scheme is gone and a host remains. */
  lemma WithoutSchemeAfterPrefix(prefix: string, path: string)
    requires GitHubPrefix(prefix)
    ensures WithoutScheme(prefix + path) == "github.com/" + path
            || WithoutScheme(prefix + path) == "www.github.com/" + path
  {
    PrefixSpellings();
    if prefix == "https://github.com/" {
      SecureSchemeRemoved("github.com/", path);
    } else if prefix == "https://www.github.com/" {
      SecureSchemeRemoved("www.github.com/", path);
    } else if prefix == "http://github.com/" {
      PlainSchemeRemoved("github.com/", path);
    } else if prefix == "http://www.github.com/" {
      PlainSchemeRemoved("www.github.com/", path);
    } else {
      var s := prefix + path;
      assert !StartsWith(s, "http://") && !StartsWith(s, "https://") by { assert s[0] == prefix[0] != 'h'; }
    }
  }

  /** The accepted prefixes with a scheme are that scheme followed by a host. */
  lemma PrefixSpellings()
    ensures "https://github.com/" == "https://" + "github.com/"
    ensures "https://www.github.com/" == "https://" + "www.github.com/"
    ensures "http://github.com/" == "http://" + "github.com/"
    ensures "http://www.github.com/" == "http://" + "www.github.com/"
  {
  }

  lemma SecureSchemeRemoved(host: string, path: string)
    requires host == "github.com/" || host == "www.github.com/"
    ensures WithoutScheme("https://" + host + path) == host + path
  {
    var s := "https://" + host + path;
    assert !StartsWith(s, "http://") by { assert s[4] == 's'; }
    assert s[..8] == "https://";
    assert s[8..] == host + path;
  }

  lemma PlainSchemeRemoved(host: string, path: string)
    requires host == "github.com/" || host == "www.github.com/"
    ensures WithoutScheme("http://" + host + path) == host + path
  {
    var s := "http://" + host + path;
    assert s[..7] == "http://";
    assert s[7..] == host + path;
  }

  lemma WithoutHostAfterHost(path: string)
    ensures WithoutHost("github.com/" + path) == path
    ensures WithoutHost("www.github.com/" + path) == path
  {
    var t := "www.github.com/" + path;
    assert !StartsWith(t, "github.com/") by { assert t[0] != 'g'; }
    assert t[15..] == path;
    assert ("github.com/" + path)[11..] == path;
  }

  /** Behind any of the accepted prefixes, the path is what follows the prefix. */
  lemma RepoPathAfterPrefix(prefix: string, path: string)
    requires GitHubPrefix(prefix)
    requires path != [] && !IsSpace(path[|path| - 1]) && path[|path| - 1] != '/'
    ensures RepoPath(prefix + path) == path
  {
    var s := prefix + path;
    PrefixStartsPlain(prefix);
    assert s[0] == prefix[0] && s[|s| - 1] == path[|path| - 1];
    TrimmedKeeps(s);
    assert RepoPath(s) == WithoutHost(WithoutScheme(s));
    WithoutSchemeAfterPrefix(prefix, path);
    WithoutHostAfterHost(path);
  }

  lemma PrefixStartsPlain(prefix: string)
    requires GitHubPrefix(prefix)
    ensures prefix != [] && !IsSpace(prefix[0])
  {
  }

  /** Behind an accepted prefix, a path that begins with two segments parses to them. */
  lemma ParseAfterPrefix(prefix: string, path: string, owner: string, repoName: string)
    requires GitHubPrefix(prefix) && '/' !in owner && '/' !in repoName
    requires path != [] && !IsSpace(path[|path| - 1]) && path[|path| - 1] != '/'
    requires LeadingSegments(path, owner, repoName)
    ensures ParseGitHubUrl(prefix + path) == Some(OwnerAndName(owner, repoName))
  {
    RepoPathAfterPrefix(prefix, path);
    LeadingSegmentsAreParts(path, owner, repoName);
  }

  /** A ".git" suffix stays part of the repository name. */
  lemma GitSuffixKept(prefix: string, owner: string, repoName: string)
    requires GitHubPrefix(prefix) && '/' !in owner && '/' !in repoName
    ensures ParseGitHubUrl(prefix + owner + "/" + repoName + ".git") == Some(OwnerAndName(owner, repoName + ".git"))
  {
    var name := repoName + ".git";
    var path := owner + "/" + name;
    assert prefix + owner + "/" + repoName + ".git" == prefix + path;
    assert path[|path| - 1] == 't';
    assert '/' !in name;
    assert owner + "/" + name <= path;
    ParseAfterPrefix(prefix, path, owner, name);
  }

  /** Segments after the repository name (a branch, a sub-directory) are ignored. */
  lemma ExtraSegmentsIgnored(prefix: string, owner: string, repoName: string, more: string)
    requires GitHubPrefix(prefix) && '/' !in owner && '/' !in repoName
    requires more != [] && !IsSpace(more[|more| - 1]) && more[|more| - 1] != '/'
    ensures ParseGitHubUrl(prefix + owner + "/" + repoName + "/" + more) == Some(OwnerAndName(owner, repoName))
  {
    var path := owner + "/" + repoName + "/" + more;
    assert prefix + owner + "/" + repoName + "/" + more == prefix + path;
    assert path[|path| - 1] == more[|more| - 1];
    assert path[|owner| + 1 + |repoName|] == '/';
    assert owner + "/" + repoName <= path;
    ParseAfterPrefix(prefix, path, owner, repoName);
  }

  /** A single segment names no repository. */
  lemma SingleSegmentRejected(prefix: string, segment: string)
    requires GitHubPrefix(prefix) && '/' !in segment
    requires segment != [] && !IsSpace(segment[|segment| - 1])
    ensures ParseGitHubUrl(prefix + segment) == None
  {
    RepoPathAfterPrefix(prefix, segment);
  }

  // ---------------------------------------------------------------------
  // fork_repository and the messages of fork_repository_internal

  /** What `fork_repository_internal` reports: the fork's coordinates, its
      URL and the metadata dictionary, or the error text. */
  datatype ForkResult =
    | Forked(target: RepoFields, forkUrl: Option<string>, metadata: map<string, string>)
    | ForkFailed(error: Option<string>)

  /** The dictionary `fork_repository` returns; a key it does not set is `None`. */
  datatype ForkReply = ForkReply(success: bool, error: Option<string>, forkedUrl: Option<string>,
                                 forkFullName: Option<string>, defaultBranch: Option<string>)

  const InvalidUrlError := "Invalid GitHub URL format: "
  const UnknownForkFailure := "Unknown fork failure"

  /** `metadata.get(key)` */
  function Get(metadata: map<string, string>, key: string): Option<string>
  {
    if key in metadata then Some(metadata[key]) else None
  }

  /** `fork_repository`: parse the URL, then fork the repository it names
      (`fork` stands for `fork_repository_internal`). */
  function ForkRepository(githubUrl: string, fork: RepoFields -> ForkResult): (r: ForkReply)
    ensures ParseGitHubUrl(githubUrl).None? ==> r == ForkReply(false, Some(InvalidUrlError + githubUrl), None, None, None)
    ensures ParseGitHubUrl(githubUrl).Some? ==>
              var p := ParseGitHubUrl(githubUrl).value;
              (r.success <==> fork(FromOwnerAndName(p.owner, p.repoName, "main")).Forked?)
    ensures r.success ==> r.error.None?
    ensures !r.success ==> r.error.Some? && r.error.value != [] && r.forkedUrl.None?
  {
    match ParseGitHubUrl(githubUrl)
    case None => ForkReply(false, Some(InvalidUrlError + githubUrl), None, None, None)
    case Some(p) =>
      match fork(FromOwnerAndName(p.owner, p.repoName, DefaultBranch))
      case Forked(_, forkUrl, metadata) =>
        ForkReply(true, None, forkUrl, Get(metadata, "fork_full_name"), Get(metadata, "default_branch"))
      case ForkFailed(error) =>
        ForkReply(false, Some(if Falsy(error) then UnknownForkFailure else error.value), None, None, None)
  }

  /** An unparsable URL is answered without calling the fork at all: the
      reply is the same whatever the fork would have done. */
  lemma InvalidUrlMakesNoForkAttempt(githubUrl: string, fork1: RepoFields -> ForkResult, fork2: RepoFields -> ForkResult)
    requires ParseGitHubUrl(githubUrl).None?
    ensures ForkRepository(githubUrl, fork1) == ForkRepository(githubUrl, fork2)
  {
  }

  /** The exception `fork_repository_internal` catches: a GitHub API error
      with its text, status and data (the printed form of a truthy `e.data`,
      otherwise `None`), or any other exception. */
  datatype ForkError =
    | ApiError(text: string, status: Option<int>, data: Option<string>)
    | OtherError(text: string)

  const AlreadyForked := "Fork already exists or validation error: "
  const Forbidden := "Insufficient permissions or rate limited: "
  const NotFound := "Repository not found or private: "
  const ApiErrorPrefix := "GitHub API error: "
  const OtherErrorPrefix := "Error forking repository: "

  predicate Classified(status: Option<int>)
  {
    status == Some(422) || status == Some(403) || status == Some(404)
  }

  function StatusSuffix(status: Option<int>): string
  {
    if status.Some? && status.value != 0 then " (Status: " + IntToString(status.value) + ")" else ""
  }

  function DetailsSuffix(data: Option<string>): string
  {
    if Falsy(data) then "" else " (Details: " + data.value + ")"
  }

  /** The `error` that `fork_repository_internal` reports for an exception. */
  function ForkErrorMessage(e: ForkError): (r: string)
    ensures e.OtherError? ==> r == OtherErrorPrefix + e.text
    ensures e.ApiError? && e.status == Some(422) ==> r == AlreadyForked + e.text
    ensures e.ApiError? && e.status == Some(403) ==> r == Forbidden + e.text
    ensures e.ApiError? && e.status == Some(404) ==> r == NotFound + e.text
    ensures e.ApiError? && !Classified(e.status) ==>
              StartsWith(r, ApiErrorPrefix + e.text)
              && (!Falsy(e.data) ==> EndsWith(r, " (Details: " + e.data.value + ")"))
              && (Falsy(e.data) && e.status.Some? && e.status.value != 0 ==>
                    EndsWith(r, " (Status: " + IntToString(e.status.value) + ")"))
              && (Falsy(e.data) && (e.status.None? || e.status == Some(0)) ==> r == ApiErrorPrefix + e.text)
  {
    match e
    case OtherError(text) => OtherErrorPrefix + text
    case ApiError(text, status, data) =>
      if status == Some(422) then AlreadyForked + text
      else if status == Some(403) then Forbidden + text
      else if status == Some(404) then NotFound + text
      else ApiErrorPrefix + text + StatusSuffix(status) + DetailsSuffix(data)
  }

  /** The message's first words tell which kind of failure it was. */
  lemma ForkErrorMessageNamesKind(e: ForkError)
    ensures var r := ForkErrorMessage(e);
            && (StartsWith(r, AlreadyForked) <==> e.ApiError? && e.status == Some(422))
            && (StartsWith(r, Forbidden) <==> e.ApiError? && e.status == Some(403))
            && (StartsWith(r, NotFound) <==> e.ApiError? && e.status == Some(404))
            && (StartsWith(r, ApiErrorPrefix) <==> e.ApiError? && !Classified(e.status))
            && (StartsWith(r, OtherErrorPrefix) <==> e.OtherError?)
  {
    var r := ForkErrorMessage(e);
    assert AlreadyForked[0] == 'F' && Forbidden[0] == 'I' && NotFound[0] == 'R';
    assert ApiErrorPrefix[0] == 'G' && OtherErrorPrefix[0] == 'E';
    if e.OtherError? {
      assert r[0] == 'E';
    } else if e.status == Some(422) {
      assert r[0] == 'F';
    } else if e.status == Some(403) {
      assert r[0] == 'I';
    } else if e.status == Some(404) {
      assert r[0] == 'R';
    } else {
      assert r[0] == 'G';
    }
  }

  // ---------------------------------------------------------------------
  // clone_repository

  /** The `CloneConfig` settings that `fork_and_modify` passes on; it clones
      the fork whichever repository the config names. */
  datatype CloneSettings = CloneSettings(branch: Option<string>, depth: Option<int>, useSsh: bool)

  /** `CloneConfig(repo=...)` with its defaults. */
  const DefaultCloneSettings := CloneSettings(None, Some(1), false)

  /** The URL and the keyword arguments passed to `git.Repo.clone_from`. */
  datatype CloneArgs = CloneArgs(url: string, depth: Option<int>, branch: string)

  const CloneUrlRequired := "Clone URL is required"
  /** Python's message for `None > 0`. */
  const DepthNotComparable := "'>' not supported between instances of 'NoneType' and 'int'"

  function SelectedUrl(repo: RepoFields, useSsh: bool): Option<string>
  {
    if useSsh then repo.sshUrl else repo.cloneUrl
  }

  /** The checks and arguments of `clone_repository` before git runs. */
  function PrepareClone(repo: RepoFields, c: CloneSettings): (r: Result<CloneArgs>)
    ensures Falsy(SelectedUrl(repo, c.useSsh)) ==> r == Err(CloneUrlRequired)
    ensures !Falsy(SelectedUrl(repo, c.useSsh)) && c.depth.None? ==> r == Err(DepthNotComparable)
    ensures !Falsy(SelectedUrl(repo, c.useSsh)) && c.depth.Some? ==>
              && r.Ok? && r.value.url == SelectedUrl(repo, c.useSsh).value
              && (r.value.depth.Some? <==> c.depth.value > 0)
              && (r.value.depth.Some? ==> r.value.depth == c.depth)
              && r.value.branch == (if Falsy(c.branch) then repo.defaultBranch else c.branch.value)
  {
    var url := SelectedUrl(repo, c.useSsh);
    if Falsy(url) then Err(CloneUrlRequired)
    else if c.depth.None? then Err(DepthNotComparable)
    else
      Ok(CloneArgs(url.value,
                   if c.depth.value > 0 then c.depth else None,
                   if Falsy(c.branch) then repo.defaultBranch else c.branch.value))
  }

  /** `mkdtemp` runs, and its directory is recorded, once the URL check has passed. */
  predicate CreatesTempDir(repo: RepoFields, c: CloneSettings)
  {
    !Falsy(SelectedUrl(repo, c.useSsh))
  }

  /** After `model_post_init` both URLs are set, so only a missing depth can
      stop a clone before git runs. */
  lemma InitializedRepoIsClonable(f: RepoFields, c: CloneSettings)
    ensures CreatesTempDir(PostInit(f), c)
    ensures PrepareClone(PostInit(f), c).Ok? <==> c.depth.Some?
  {
  }

  /** The outcome of a git call: its value, or the text of the exception. */
  datatype GitStep = Done(value: string) | Raised(error: string)

  datatype CloneResult = Cloned(localPath: string) | CloneFailed(error: string)

  /** `clone_repository` into a fresh temporary directory `tempDir`. */
  function CloneOutcome(repo: RepoFields, c: CloneSettings, tempDir: string, git: GitStep): (r: CloneResult)
    ensures r.Cloned? <==> PrepareClone(repo, c).Ok? && git.Done?
    ensures r.Cloned? ==> r.localPath == tempDir
    ensures PrepareClone(repo, c).Err? ==> r == CloneFailed(PrepareClone(repo, c).error)
  {
    match PrepareClone(repo, c)
    case Err(e) => CloneFailed(e)
    case Ok(_) => if git.Raised? then CloneFailed(git.error) else Cloned(tempDir)
  }

  // ---------------------------------------------------------------------
  // apply_file_operations

  datatype Action = Create | Update | Delete

  datatype FileOperation = FileOperation(action: Action, path: string, content: Option<string>)

  /** The `created`, `updated` and `deleted` lists of `apply_file_operations`. */
  datatype FileLists = FileLists(created: seq<string>, updated: seq<string>, deleted: seq<string>)

  /** The working tree: the content of each file that exists, by path. */
  type Tree = map<string, string>

  /** One operation on the tree: a create or update writes `content or ""`,
      a delete removes the file if it exists. */
  function ApplyOne(op: FileOperation, tree: Tree): Tree
  {
    if op.action == Delete then tree - {op.path}
    else tree[op.path := if op.content.Some? then op.content.value else ""]
  }

  /** The tree after the operations, in order. */
  function TreeAfter(ops: seq<FileOperation>, tree: Tree): Tree
  {
    if ops == [] then tree else ApplyOne(ops[|ops| - 1], TreeAfter(ops[..|ops| - 1], tree))
  }

  /** The lists after one more operation on the tree `before`; a delete is
      listed only when the file existed. */
  function Record(op: FileOperation, before: Tree, lists: FileLists): FileLists
  {
    match op.action
    case Create => lists.(created := lists.created + [op.path])
    case Update => lists.(updated := lists.updated + [op.path])
    case Delete => if op.path in before then lists.(deleted := lists.deleted + [op.path]) else lists
  }

  /** The lists `apply_file_operations` returns. */
  function Listed(ops: seq<FileOperation>, tree: Tree): FileLists
  {
    if ops == [] then FileLists([], [], [])
    else
      var init := ops[..|ops| - 1];
      Record(ops[|ops| - 1], TreeAfter(init, tree), Listed(init, tree))
  }

  /** `apply_file_operations`: run the operations in order over the tree and
      collect the paths by action. */
  method ApplyFileOperations(tree0: Tree, ops: seq<FileOperation>) returns (lists: FileLists, tree: Tree)
    ensures lists == Listed(ops, tree0) && tree == TreeAfter(ops, tree0)
  {
    var created, updated, deleted := [], [], [];
    tree := tree0;
    var i := 0;
    while i < |ops|
      invariant 0 <= i <= |ops|
      invariant FileLists(created, updated, deleted) == Listed(ops[..i], tree0)
      invariant tree == TreeAfter(ops[..i], tree0)
    {
      var op := ops[i];
      assert ops[..i + 1][..i] == ops[..i];
      if op.action == Create || op.action == Update {
        tree := tree[op.path := if op.content.Some? then op.content.value else ""];
        if op.action == Create {
          created := created + [op.path];
        } else {
          updated := updated + [op.path];
        }
      } else if op.path in tree {
        tree := tree - {op.path};
        deleted := deleted + [op.path];
      } else {
        tree := tree - {op.path};
      }
      i := i + 1;
    }
    assert ops[..i] == ops;
    lists := FileLists(created, updated, deleted);
  }

  /** The paths of the operations with action `a`, in order. */
  function PathsOf(ops: seq<FileOperation>, a: Action): (r: seq<string>)
    ensures |r| <= |ops|
  {
    if ops == [] then []
    else PathsOf(ops[..|ops| - 1], a) + (if ops[|ops| - 1].action == a then [ops[|ops| - 1].path] else [])
  }

  /** Every operation has exactly one action. */
  lemma {:induction false} PathsPartition(ops: seq<FileOperation>)
    ensures |PathsOf(ops, Create)| + |PathsOf(ops, Update)| + |PathsOf(ops, Delete)| == |ops|
  {
    if ops != [] {
      PathsPartition(ops[..|ops| - 1]);
    }
  }

  /** Creates and updates are listed in order, each one; deletes at most once each. */
  lemma {:induction false} ListedWrites(ops: seq<FileOperation>, tree: Tree)
    ensures Listed(ops, tree).created == PathsOf(ops, Create)
    ensures Listed(ops, tree).updated == PathsOf(ops, Update)
    ensures |Listed(ops, tree).deleted| <= |PathsOf(ops, Delete)|
  {
    if ops != [] {
      ListedWrites(ops[..|ops| - 1], tree);
    }
  }

  /** The operation at `k` deletes `p`, and `p` exists when it runs. */
  predicate DeletesExisting(ops: seq<FileOperation>, tree: Tree, k: int, p: string)
  {
    0 <= k < |ops| && ops[k].action == Delete && ops[k].path == p && p in TreeAfter(ops[..k], tree)
  }

  /** A path is listed as deleted exactly when a delete found it existing. */
  lemma {:induction false} ListedDeletes(ops: seq<FileOperation>, tree: Tree, p: string)
    ensures p in Listed(ops, tree).deleted <==> exists k :: DeletesExisting(ops, tree, k, p)
  {
    if ops != [] {
      var n := |ops| - 1;
      ListedDeletes(ops[..n], tree, p);
      DeletedStep(ops, tree, p);
      DeletesExistingStep(ops, tree, p);
    }
  }

  /** The last operation adds its path to the deleted list only when it
      deletes a file that exists at that point. */
  lemma DeletedStep(ops: seq<FileOperation>, tree: Tree, p: string)
    requires ops != []
    ensures var n := |ops| - 1;
            p in Listed(ops, tree).deleted
            <==> p in Listed(ops[..n], tree).deleted || DeletesExisting(ops, tree, n, p)
  {
    var n := |ops| - 1;
  }

  /** A delete that found its file is one of the earlier operations or the last. */
  lemma DeletesExistingStep(ops: seq<FileOperation>, tree: Tree, p: string)
    requires ops != []
    ensures var n := |ops| - 1;
            (exists k :: DeletesExisting(ops, tree, k, p))
            <==> (exists k :: DeletesExisting(ops[..n], tree, k, p)) || DeletesExisting(ops, tree, n, p)
  {
    var n := |ops| - 1;
    var init := ops[..n];
    if exists k :: DeletesExisting(init, tree, k, p) {
      var k :| DeletesExisting(init, tree, k, p);
      assert init[..k] == ops[..k];
      assert DeletesExisting(ops, tree, k, p);
    }
    if exists k :: DeletesExisting(ops, tree, k, p) {
      var k :| DeletesExisting(ops, tree, k, p);
      if k < n {
        assert init[..k] == ops[..k];
        assert DeletesExisting(init, tree, k, p);
      }
    }
  }

  /** `files_modified`: created, then updated, then deleted. */
  function FilesModified(lists: FileLists): seq<string>
  {
    lists.created + lists.updated + lists.deleted
  }

  /** At most one entry per operation. */
  lemma FilesModifiedBound(ops: seq<FileOperation>, tree: Tree)
    ensures |FilesModified(Listed(ops, tree))| <= |ops|
  {
    ListedWrites(ops, tree);
    PathsPartition(ops);
  }

  // ---------------------------------------------------------------------
  // commit_changes

  datatype CommitInfo = CommitInfo(message: string, authorName: Option<string>, authorEmail: Option<string>,
                                   branch: string, files: seq<FileOperation>)

  /** The fields of `GitHubConfig` the workflow reads. */
  datatype GitConfig = GitConfig(token: string, userName: Option<string>, userEmail: Option<string>)

  datatype Actor = Actor(name: string, email: string)

  /** The commit author: the commit's own name and email when both are set,
      else the configured git user when both are set, else git's default. */
  function CommitActor(info: CommitInfo, config: GitConfig): (r: Option<Actor>)
    ensures r.Some? <==> (!Falsy(info.authorName) && !Falsy(info.authorEmail))
                         || (!Falsy(config.userName) && !Falsy(config.userEmail))
    ensures (Falsy(info.authorName) || Falsy(info.authorEmail)) && !Falsy(config.userName) && !Falsy(config.userEmail)
            ==> r == Some(Actor(config.userName.value, config.userEmail.value))
    ensures !Falsy(info.authorName) && !Falsy(info.authorEmail) ==> r == Some(Actor(info.authorName.value, info.authorEmail.value))
  {
    if !Falsy(info.authorName) && !Falsy(info.authorEmail) then Some(Actor(info.authorName.value, info.authorEmail.value))
    else if !Falsy(config.userName) && !Falsy(config.userEmail) then Some(Actor(config.userName.value, config.userEmail.value))
    else None
  }

  /** What git does in `commit_changes`: opening the repository fails, or
      staging and committing raises, or the commit is made with this SHA. */
  datatype CommitStep = NotARepository(error: string) | CommitRaised(error: string) | Committed(sha: string)

  datatype CommitResult = CommitResult(success: bool, error: Option<string>, commitSha: Option<string>,
                                       branch: string, author: Option<Actor>, files: FileLists,
                                       filesModified: seq<string>)

  /** `commit_changes`: the result and the working tree afterwards (files are
      written before git stages them, so a failed commit leaves them written). */
  function CommitSpec(info: CommitInfo, config: GitConfig, tree: Tree, git: CommitStep): (CommitResult, Tree)
  {
    match git
    case NotARepository(e) => (CommitResult(false, Some(e), None, info.branch, None, FileLists([], [], []), []), tree)
    case CommitRaised(e) =>
      (CommitResult(false, Some(e), None, info.branch, None, FileLists([], [], []), []), TreeAfter(info.files, tree))
    case Committed(sha) =>
      var lists := Listed(info.files, tree);
      (CommitResult(true, None, Some(sha), info.branch, CommitActor(info, config), lists, FilesModified(lists)),
       TreeAfter(info.files, tree))
  }

  /** A successful commit lists every created and updated file, in order,
      and the deletes that found their file, one entry per operation at most. */
  lemma CommitListsFiles(info: CommitInfo, config: GitConfig, tree: Tree, git: CommitStep)
    ensures var r := CommitSpec(info, config, tree, git).0;
            r.success ==> && r.filesModified == r.files.created + r.files.updated + r.files.deleted
                          && r.files.created == PathsOf(info.files, Create)
                          && r.files.updated == PathsOf(info.files, Update)
                          && |r.filesModified| <= |info.files|
    ensures var r := CommitSpec(info, config, tree, git).0;
            r.success <==> git.Committed?
  {
    ListedWrites(info.files, tree);
    FilesModifiedBound(info.files, tree);
  }

  /** `commit_changes` over the tree of the cloned repository. */
  method CommitChanges(info: CommitInfo, config: GitConfig, tree0: Tree, git: CommitStep)
    returns (r: CommitResult, tree: Tree)
    ensures (r, tree) == CommitSpec(info, config, tree0, git)
  {
    if git.NotARepository? {
      return CommitResult(false, Some(git.error), None, info.branch, None, FileLists([], [], []), []), tree0;
    }
    var lists;
    lists, tree := ApplyFileOperations(tree0, info.files);
    if git.CommitRaised? {
      r := CommitResult(false, Some(git.error), None, info.branch, None, FileLists([], [], []), []);
    } else {
      r := CommitResult(true, None, Some(git.sha), info.branch, CommitActor(info, config), lists,
                        lists.created + lists.updated + lists.deleted);
    }
  }

  // ---------------------------------------------------------------------
  // fork_and_modify

  /** The parts of a `ForkAndModifyRequest` the workflow reads besides the
      fork's own options. */
  datatype ForkAndModifyRequest = ForkAndModifyRequest(
    sourceRepo: RepoFields, cloneConfig: Option<CloneSettings>, commitInfo: CommitInfo,
    pushAfterCommit: bool, cleanupAfter: bool)

  /** The outcomes of the calls the workflow makes: the fork, the directory
      `mkdtemp` creates, `git clone`, the cloned working tree, the commit, the
      push, and whether `shutil.rmtree` removed the directory. */
  datatype Environment = Environment(fork: ForkResult, tempDir: string, clone: GitStep, tree: Tree,
                                     commit: CommitStep, push: GitStep, removed: bool)

  /** The steps whose results a workflow result carries. */
  datatype Stage = Forking | Cloning | Committing | Pushing

  datatype WorkflowResult = WorkflowResult(
    success: bool, error: Option<string>, forkUrl: Option<string>, commitSha: Option<string>,
    filesModified: seq<string>, tempDirectory: Option<string>, reached: seq<Stage>,
    workflowSteps: seq<string>)

  function Failed(error: string, reached: seq<Stage>): WorkflowResult
  {
    WorkflowResult(false, Some(error), None, None, [], None, reached, [])
  }

  /** `request.clone_config or CloneConfig(repo=...)` */
  function Settings(req: ForkAndModifyRequest): CloneSettings
  {
    if req.cloneConfig.Some? then req.cloneConfig.value else DefaultCloneSettings
  }

  /** `list.remove(x)`, when `x` is in the list. */
  function RemoveFirst(s: seq<string>, x: string): seq<string>
  {
    if s == [] then [] else if s[0] == x then s[1..] else [s[0]] + RemoveFirst(s[1..], x)
  }

  lemma {:induction false} RemoveFirstOfAppended(s: seq<string>, x: string)
    requires x !in s
    ensures RemoveFirst(s + [x], x) == s
  {
    if s != [] {
      assert (s + [x])[1..] == s[1..] + [x];
      RemoveFirstOfAppended(s[1..], x);
    }
  }

  /** The steps to run: fork, clone, commit, and push when asked. */
  function Planned(req: ForkAndModifyRequest): seq<Stage>
  {
    [Forking, Cloning, Committing] + (if req.pushAfterCommit then [Pushing] else [])
  }

  /** `fork_and_modify`: the result, and the service's list of temporary
      directories afterwards. */
  function Workflow(req: ForkAndModifyRequest, config: GitConfig, env: Environment, dirs: seq<string>)
    : (WorkflowResult, seq<string>)
  {
    match env.fork
    case ForkFailed(e) => (Failed("Fork failed: " + PyStr(e), [Forking]), dirs)
    case Forked(target, forkUrl, _) =>
      var c := Settings(req);
      var recorded := if CreatesTempDir(target, c) then dirs + [env.tempDir] else dirs;
      match CloneOutcome(target, c, env.tempDir, env.clone)
      case CloneFailed(e) => (Failed("Clone failed: " + e, [Forking, Cloning]), recorded)
      case Cloned(path) => AfterClone(req, config, env, forkUrl, path, recorded)
  }

  /** Commit, push and cleanup, once the fork is cloned at `path`. */
  function AfterClone(req: ForkAndModifyRequest, config: GitConfig, env: Environment,
                      forkUrl: Option<string>, path: string, dirs: seq<string>): (WorkflowResult, seq<string>)
  {
    var commit := CommitSpec(req.commitInfo, config, env.tree, env.commit).0;
    if !commit.success then (Failed("Commit failed: " + PyStr(commit.error), [Forking, Cloning, Committing]), dirs)
    else
      var push := if req.pushAfterCommit then Some(env.push) else None;
      if push.Some? && push.value.Raised? then
        (Failed("Push failed: " + push.value.error, [Forking, Cloning, Committing, Pushing]), dirs)
      else
        var cleaned := req.cleanupAfter && env.removed;
        var steps := ["fork", "clone", "commit",
                      if push.Some? && push.value.Done? then "push" else "push_skipped_or_failed",
                      if req.cleanupAfter then "cleanup" else "no_cleanup"];
        (WorkflowResult(true, None, forkUrl, commit.commitSha, commit.filesModified,
                        if cleaned then None else Some(path),
                        [Forking, Cloning, Committing] + (if push.Some? then [Pushing] else []), steps),
         if cleaned && path in dirs then RemoveFirst(dirs, path) else dirs)
  }

  /** Whether the given step fails in this environment. */
  predicate StageFails(s: Stage, req: ForkAndModifyRequest, config: GitConfig, env: Environment)
  {
    match s
    case Forking => env.fork.ForkFailed?
    case Cloning => env.fork.Forked? && CloneOutcome(env.fork.target, Settings(req), env.tempDir, env.clone).CloneFailed?
    case Committing => !env.commit.Committed?
    case Pushing => env.push.Raised?
  }

  function FailurePrefix(s: Stage): string
  {
    match s
    case Forking => "Fork failed: "
    case Cloning => "Clone failed: "
    case Committing => "Commit failed: "
    case Pushing => "Push failed: "
  }

  /** The workflow runs the planned steps in order and stops at the first
      that fails, reporting that step's error under its prefix; it succeeds
      exactly when no planned step fails. */
  predicate StopsAtFirstFailure(r: WorkflowResult, req: ForkAndModifyRequest, config: GitConfig, env: Environment)
  {
    && r.reached != [] && r.reached <= Planned(req)
    && (r.success <==> forall i :: 0 <= i < |Planned(req)| ==> !StageFails(Planned(req)[i], req, config, env))
    && (r.success ==> r.reached == Planned(req) && r.error.None?)
    && (!r.success ==> var last := r.reached[|r.reached| - 1];
          && StageFails(last, req, config, env)
          && (forall i :: 0 <= i < |r.reached| - 1 ==> !StageFails(r.reached[i], req, config, env))
          && r.error.Some? && StartsWith(r.error.value, FailurePrefix(last)))
  }

  lemma WorkflowStopsAtFirstFailure(req: ForkAndModifyRequest, config: GitConfig, env: Environment, dirs: seq<string>)
    ensures StopsAtFirstFailure(Workflow(req, config, env, dirs).0, req, config, env)
  {
    if env.fork.ForkFailed? {
      ForkFailureReported(req, config, env, dirs);
    } else if CloneOutcome(env.fork.target, Settings(req), env.tempDir, env.clone).CloneFailed? {
      CloneFailureReported(req, config, env, dirs);
    } else if !env.commit.Committed? {
      CommitFailureReported(req, config, env, dirs);
    } else if req.pushAfterCommit && env.push.Raised? {
      PushFailureReported(req, config, env, dirs);
    } else {
      NoFailureReported(req, config, env, dirs);
    }
  }

  lemma ForkFailureReported(req: ForkAndModifyRequest, config: GitConfig, env: Environment, dirs: seq<string>)
    requires env.fork.ForkFailed?
    ensures StopsAtFirstFailure(Workflow(req, config, env, dirs).0, req, config, env)
  {
    var r := Workflow(req, config, env, dirs).0;
    PrefixOfJoin("Fork failed: ", PyStr(env.fork.error));
    assert r == Failed("Fork failed: " + PyStr(env.fork.error), [Forking]);
    assert StageFails(Planned(req)[0], req, config, env);
  }

  lemma CloneFailureReported(req: ForkAndModifyRequest, config: GitConfig, env: Environment, dirs: seq<string>)
    requires env.fork.Forked? && CloneOutcome(env.fork.target, Settings(req), env.tempDir, env.clone).CloneFailed?
    ensures StopsAtFirstFailure(Workflow(req, config, env, dirs).0, req, config, env)
  {
    var r := Workflow(req, config, env, dirs).0;
    var e := CloneOutcome(env.fork.target, Settings(req), env.tempDir, env.clone).error;
    PrefixOfJoin("Clone failed: ", e);
    assert r == Failed("Clone failed: " + e, [Forking, Cloning]);
    assert StageFails(Planned(req)[1], req, config, env);
  }

  lemma CommitFailureReported(req: ForkAndModifyRequest, config: GitConfig, env: Environment, dirs: seq<string>)
    requires env.fork.Forked? && CloneOutcome(env.fork.target, Settings(req), env.tempDir, env.clone).Cloned?
    requires !env.commit.Committed?
    ensures StopsAtFirstFailure(Workflow(req, config, env, dirs).0, req, config, env)
  {
    var r := Workflow(req, config, env, dirs).0;
    var planned := Planned(req);
    assert planned[..3] == [Forking, Cloning, Committing];
    var commit := CommitSpec(req.commitInfo, config, env.tree, env.commit).0;
    assert !commit.success;
    PrefixOfJoin("Commit failed: ", PyStr(commit.error));
    assert r == Failed("Commit failed: " + PyStr(commit.error), [Forking, Cloning, Committing]);
    assert StageFails(planned[2], req, config, env);
  }

  lemma PushFailureReported(req: ForkAndModifyRequest, config: GitConfig, env: Environment, dirs: seq<string>)
    requires env.fork.Forked? && CloneOutcome(env.fork.target, Settings(req), env.tempDir, env.clone).Cloned?
    requires env.commit.Committed? && req.pushAfterCommit && env.push.Raised?
    ensures StopsAtFirstFailure(Workflow(req, config, env, dirs).0, req, config, env)
  {
    var r := Workflow(req, config, env, dirs).0;
    var planned := Planned(req);
    assert planned == [Forking, Cloning, Committing, Pushing];
    assert CommitSpec(req.commitInfo, config, env.tree, env.commit).0.success;
    PrefixOfJoin("Push failed: ", env.push.error);
    assert r == Failed("Push failed: " + env.push.error, [Forking, Cloning, Committing, Pushing]);
    assert StageFails(planned[3], req, config, env);
  }

  lemma NoFailureReported(req: ForkAndModifyRequest, config: GitConfig, env: Environment, dirs: seq<string>)
    requires env.fork.Forked? && CloneOutcome(env.fork.target, Settings(req), env.tempDir, env.clone).Cloned?
    requires env.commit.Committed? && !(req.pushAfterCommit && env.push.Raised?)
    ensures StopsAtFirstFailure(Workflow(req, config, env, dirs).0, req, config, env)
  {
    var r := Workflow(req, config, env, dirs).0;
    var planned := Planned(req);
    assert CommitSpec(req.commitInfo, config, env.tree, env.commit).0.success;
    assert r.success && r.reached == planned;
    forall i | 0 <= i < |planned|
      ensures !StageFails(planned[i], req, config, env)
    {
      if i == 3 {
        assert planned[i] == Pushing;
      }
    }
  }

  lemma PrefixOfJoin(a: string, b: string)
    ensures StartsWith(a + b, a)
  {
    assert (a + b)[..|a|] == a;
  }

  /** On success the reported steps say whether a push and a cleanup were
      asked for; the directory is reported only when it was not removed. */
  lemma WorkflowReportsSteps(req: ForkAndModifyRequest, config: GitConfig, env: Environment, dirs: seq<string>)
    ensures var r := Workflow(req, config, env, dirs).0;
            r.success ==> && |r.workflowSteps| == 5
                          && (r.workflowSteps[3] == "push" <==> req.pushAfterCommit)
                          && (r.workflowSteps[4] == "cleanup" <==> req.cleanupAfter)
                          && (r.tempDirectory.None? <==> req.cleanupAfter && env.removed)
                          && (Pushing in r.reached <==> req.pushAfterCommit)
    ensures var r := Workflow(req, config, env, dirs).0;
            !r.success ==> r.workflowSteps == [] && r.filesModified == [] && r.tempDirectory.None?
  {
    var r := Workflow(req, config, env, dirs).0;
    if r.success {
      assert r.reached == Planned(req) by { WorkflowStopsAtFirstFailure(req, config, env, dirs); }
    }
  }

  /** A directory the clone created stays recorded for later cleanup unless
      the workflow removed it; nothing else is recorded. */
  lemma WorkflowTracksTempDirectory(req: ForkAndModifyRequest, config: GitConfig, env: Environment, dirs: seq<string>)
    requires env.tempDir !in dirs
    ensures var (r, after) := Workflow(req, config, env, dirs);
            && (after == dirs || after == dirs + [env.tempDir])
            && (r.tempDirectory.Some? ==> r.tempDirectory.value == env.tempDir && env.tempDir in after)
            && (r.success && r.tempDirectory.None? ==> after == dirs)
            && ((!r.success && Cloning in r.reached && CreatesTempDir(env.fork.target, Settings(req)))
                  ==> after == dirs + [env.tempDir])
  {
    if env.fork.Forked? && CreatesTempDir(env.fork.target, Settings(req)) {
      RemoveFirstOfAppended(dirs, env.tempDir);
    }
  }

  /** The service object: its configuration and the temporary directories
      it has created and not yet removed. */
  class GitHubService {
    const config: GitConfig
    var tempDirectories: seq<string>

    constructor (config: GitConfig)
      ensures this.config == config && tempDirectories == []
    {
      this.config := config;
      tempDirectories := [];
    }

    /** `clone_repository` into the fresh directory `tempDir`. */
    method CloneRepository(repo: RepoFields, c: CloneSettings, tempDir: string, git: GitStep) returns (r: CloneResult)
      modifies this
      ensures r == CloneOutcome(repo, c, tempDir, git)
      ensures tempDirectories == old(tempDirectories) + (if CreatesTempDir(repo, c) then [tempDir] else [])
    {
      var url := SelectedUrl(repo, c.useSsh);
      if Falsy(url) {
        return CloneFailed(CloneUrlRequired);
      }
      tempDirectories := tempDirectories + [tempDir];
      if c.depth.None? {
        return CloneFailed(DepthNotComparable);
      }
      if git.Raised? {
        return CloneFailed(git.error);
      }
      return Cloned(tempDir);
    }

    /** `cleanup_temp_directories`: every recorded directory is forgotten. */
    method CleanupTempDirectories()
      modifies this
      ensures tempDirectories == []
    {
      tempDirectories := [];
    }

    /** `fork_and_modify` */
    method ForkAndModify(req: ForkAndModifyRequest, env: Environment) returns (r: WorkflowResult)
      modifies this
      ensures (r, tempDirectories) == Workflow(req, config, env, old(tempDirectories))
    {
      if env.fork.ForkFailed? {
        return Failed("Fork failed: " + PyStr(env.fork.error), [Forking]);
      }
      var c := Settings(req);
      ghost var dirs0 := tempDirectories;
      var clone := CloneRepository(env.fork.target, c, env.tempDir, env.clone);
      if clone.CloneFailed? {
        assert Workflow(req, config, env, dirs0).1 == tempDirectories;
        return Failed("Clone failed: " + clone.error, [Forking, Cloning]);
      }
      var commit, _ := CommitChanges(req.commitInfo, config, env.tree, env.commit);
      if !commit.success {
        return Failed("Commit failed: " + PyStr(commit.error), [Forking, Cloning, Committing]);
      }
      var push: Option<GitStep> := None;
      if req.pushAfterCommit {
        push := Some(env.push);
        if env.push.Raised? {
          return Failed("Push failed: " + env.push.error, [Forking, Cloning, Committing, Pushing]);
        }
      }
      var tempDir := Some(clone.localPath);
      if req.cleanupAfter && env.removed {
        if clone.localPath in tempDirectories {
          tempDirectories := RemoveFirst(tempDirectories, clone.localPath);
        }
        tempDir := None;
      }
      var steps := ["fork", "clone", "commit",
                    if push.Some? && push.value.Done? then "push" else "push_skipped_or_failed",
                    if req.cleanupAfter then "cleanup" else "no_cleanup"];
      r := WorkflowResult(true, None, env.fork.forkUrl, commit.commitSha, commit.filesModified, tempDir,
                          [Forking, Cloning, Committing] + (if push.Some? then [Pushing] else []), steps);
    }
  }
}
