/**
  The Dashboard's pure helpers: its own GitHub URL matcher, the
  normalisation of the repository record, the two listing requests, the
  folders expanded after loading, and the toggles of expanded folders and
  selected files.
 */
module Dashboard {
  import opened Base
  import opened Strings
  import opened Js
  import opened Url
  import opened GitHubApi
  import opened ReadmeService
  import opened FileTree

  /* ------------------------------------------------------ parseGitHubUrl */

  /** The two captured groups of `/github\.com\/([^\/]+)\/([^\/]+)/`. */
  datatype UrlMatch = UrlMatch(owner: string, name: string)

  /** What `parseGitHubUrl` returns. */
  datatype DashRepo = DashRepo(owner: string, repo: string)

  const Anchor := "github.com/"

  /** The longest prefix of `s` without a '/'. */
  function NonSlashRun(s: string): (r: string)
    ensures StartsWith(s, r) && '/' !in r
    ensures |r| == |s| || s[|r|] == '/'
    decreases |s|
  {
    if |s| == 0 || s[0] == '/' then "" else [s[0]] + NonSlashRun(s[1..])
  }

  /** The regular expression tried at index `p` of `url`: the anchor, a
      maximal non-empty run of non-'/' characters, a '/', and another one. */
  function MatchAt(url: string, p: nat): Option<UrlMatch>
  {
    if !OccursAt(url, Anchor, p) then None
    else
      var rest := url[p + |Anchor|..];
      var owner := NonSlashRun(rest);
      if owner == "" || |owner| == |rest| then None
      else
        var name := NonSlashRun(rest[|owner| + 1..]);
        if name == "" then None else Some(UrlMatch(owner, name))
  }

  /** The text a match covers: the anchor at `p`, the owner, a '/', and the
      name, which ends at a '/' or at the end of the input. */
  predicate MatchCovers(url: string, p: nat, m: UrlMatch)
  {
    var o := p + |Anchor|;
    var n := o + |m.owner| + 1;
    && m.owner != "" && m.name != "" && '/' !in m.owner && '/' !in m.name
    && OccursAt(url, Anchor, p) && OccursAt(url, m.owner, o) && OccursAt(url, m.name, n)
    && url[n - 1] == '/'
    && (n + |m.name| == |url| || url[n + |m.name|] == '/')
  }

  /** A match at `p` is exactly the anchor followed by two non-empty
      '/'-free runs separated by '/', the second one ending at a '/' or at the
      end of the input. */
  lemma MatchAtMeaning(url: string, p: nat, m: UrlMatch)
    ensures MatchAt(url, p) == Some(m) <==> MatchCovers(url, p, m)
  {
    if MatchAt(url, p) == Some(m) {
      MatchAtSound(url, p, m);
    }
    if MatchCovers(url, p, m) {
      MatchAtComplete(url, p, m);
    }
  }

  lemma MatchAtSound(url: string, p: nat, m: UrlMatch)
    requires MatchAt(url, p) == Some(m)
    ensures MatchCovers(url, p, m)
  {
    var o := p + |Anchor|;
    var rest := url[o..];
    assert rest[..|m.owner|] == url[o..o + |m.owner|];
    var tail := rest[|m.owner| + 1..];
    var n := o + |m.owner| + 1;
    assert tail == url[n..];
    assert tail[..|m.name|] == url[n..n + |m.name|];
  }

  lemma MatchAtComplete(url: string, p: nat, m: UrlMatch)
    requires MatchCovers(url, p, m)
    ensures MatchAt(url, p) == Some(m)
  {
    var o := p + |Anchor|;
    var rest := url[o..];
    assert rest[..|m.owner|] == url[o..o + |m.owner|];
    RunOfPrefix(rest, m.owner);
    var n := o + |m.owner| + 1;
    var tail := rest[|m.owner| + 1..];
    assert tail == url[n..];
    assert tail[..|m.name|] == url[n..n + |m.name|];
    RunOfPrefix(tail, m.name);
  }

  /** `prefix + "github.com/" + owner + "/" + name + suffix` is covered at the
      end of `prefix` when the suffix is empty or starts a new path segment. */
  lemma CoversConcat(prefix: string, owner: string, name: string, suffix: string)
    requires owner != "" && name != "" && '/' !in owner && '/' !in name
    requires suffix == "" || suffix[0] == '/'
    ensures MatchCovers(prefix + Anchor + owner + "/" + name + suffix, |prefix|, UrlMatch(owner, name))
  {
    var url := prefix + Anchor + owner + "/" + name + suffix;
    var o := |prefix| + |Anchor|;
    var n := o + |owner| + 1;
    assert url[|prefix|..o] == Anchor;
    assert url[o..o + |owner|] == owner;
    assert url[n - 1] == '/';
    assert url[n..n + |name|] == name;
    if suffix != "" {
      assert url[n + |name|] == suffix[0];
    }
  }

  /** A '/'-free prefix followed by '/' or by the end is the maximal run. */
  lemma {:induction false} RunOfPrefix(s: string, r: string)
    requires StartsWith(s, r) && '/' !in r && (|r| == |s| || s[|r|] == '/')
    ensures NonSlashRun(s) == r
    decreases |s|
  {
    if |r| > 0 {
      assert s[1..][..|r| - 1] == r[1..];
      RunOfPrefix(s[1..], r[1..]);
      assert r == [s[0]] + r[1..];
    }
  }

  /** A match and the index where it starts. */
  datatype Found = Found(at: nat, m: UrlMatch)

  /** The leftmost index from `p` on where the expression matches. */
  function FirstMatch(url: string, p: nat): (r: Option<Found>)
    ensures r.None? <==> forall q :: p <= q <= |url| ==> MatchAt(url, q).None?
    ensures r.Some? ==>
      && p <= r.value.at <= |url| && MatchAt(url, r.value.at) == Some(r.value.m)
      && forall q :: p <= q < r.value.at ==> MatchAt(url, q).None?
    decreases |url| + 1 - p
  {
    if p > |url| then None
    else
      match MatchAt(url, p)
      case Some(m) => Some(Found(p, m))
      case None => FirstMatch(url, p + 1)
  }

  /** `parseGitHubUrl`: the leftmost match anywhere in the input, with the
      first ".git" removed from the second group wherever it occurs. */
  function ParseGitHubUrl(url: string): (r: Option<DashRepo>)
    ensures r.None? <==> forall p :: 0 <= p <= |url| ==> MatchAt(url, p).None?
    ensures r.Some? ==>
      exists p, m :: 0 <= p <= |url| && MatchCovers(url, p, m)
        && (forall q :: 0 <= q < p ==> MatchAt(url, q).None?)
        && r.value == DashRepo(m.owner, ReplaceFirst(m.name, GitSuffix, ""))
  {
    match FirstMatch(url, 0)
    case None => None
    case Some(found) =>
      MatchAtMeaning(url, found.at, found.m);
      Some(DashRepo(found.m.owner, ReplaceFirst(found.m.name, GitSuffix, "")))
  }

  /** The match is not anchored: whatever precedes "github.com/", and whatever
      host that text sits in, the owner and name after it are found. */
  lemma AcceptsAnywhere(prefix: string, owner: string, name: string)
    requires owner != "" && name != "" && '/' !in owner && '/' !in name
    ensures ParseGitHubUrl(prefix + Anchor + owner + "/" + name).Some?
  {
    var url := prefix + Anchor + owner + "/" + name;
    CoversConcat(prefix, owner, name, "");
    assert url + "" == url;
    MatchAtMeaning(url, |prefix|, UrlMatch(owner, name));
  }

  /** The canonical `https://github.com/<owner>/<name>` form gives the owner,
      and the name with its first ".git" removed wherever it occurs. */
  lemma CanonicalUrlOnDashboard(owner: string, name: string)
    requires owner != "" && name != "" && '/' !in owner && '/' !in name
    ensures ParseGitHubUrl("https://" + Anchor + owner + "/" + name) ==
            Some(DashRepo(owner, ReplaceFirst(name, GitSuffix, "")))
  {
    var url := "https://" + Anchor + owner + "/" + name;
    CoversConcat("https://", owner, name, "");
    assert url + "" == url;
    SchemeHasNoMatch(url);
    LeftmostMatch(url, 8, UrlMatch(owner, name));
  }

  /** A match with none to its left is the one the Dashboard takes. */
  lemma LeftmostMatch(url: string, p: nat, m: UrlMatch)
    requires p <= |url| && MatchCovers(url, p, m)
    requires forall q :: 0 <= q < p ==> MatchAt(url, q).None?
    ensures ParseGitHubUrl(url) == Some(DashRepo(m.owner, ReplaceFirst(m.name, GitSuffix, "")))
  {
    MatchAtMeaning(url, p, m);
    var found := FirstMatch(url, 0);
    assert found.Some?;
    assert found.value.at == p;
  }

  /** No match starts inside a leading "https://": it holds no 'g'. */
  lemma SchemeHasNoMatch(url: string)
    requires StartsWith(url, "https://")
    ensures forall q :: 0 <= q < 8 ==> MatchAt(url, q).None?
  {
    forall q | 0 <= q < 8
      ensures !OccursAt(url, Anchor, q)
    {
      assert url[q] == "https://"[q];
    }
  }

  /** The backend reads the same canonical URL with only a trailing ".git"
      removed, given that the URL parser splits it as expected. */
  lemma CanonicalUrlOnBackend(parse: Parser, owner: string, name: string)
    requires owner != "" && name != "" && '/' !in owner && '/' !in name
    requires parse("https://" + Anchor + owner + "/" + name) == Some(ParsedUrl(GitHubHost, "/" + owner + "/" + name))
    ensures GitHubUrlInfo(parse, "https://" + Anchor + owner + "/" + name) ==
            Ok(RepoRef(owner, StripSuffix(name, GitSuffix)))
  {
    SegmentsOfCanonicalPath([owner, name]);
    assert [owner, name][1..] == [name];
    assert Join([owner, name], "/") == owner + "/" + name;
    assert CanonicalPath([owner, name]) == "/" + owner + "/" + name;
    assert PathSegments("/" + owner + "/" + name) == [owner, name];
  }

  /** The two readings differ on "https://github.com/foo/my.github.io": the
      Dashboard asks for repository "myhub.io", the backend for "my.github.io". */
  lemma GitInsideNameDiffers()
    ensures ReplaceFirst("my.github.io", GitSuffix, "") == "myhub.io"
    ensures StripSuffix("my.github.io", GitSuffix) == "my.github.io"
  {
    var s := "my.github.io";
    assert OccursAt(s, GitSuffix, 2) by {
      assert s[2..6] == GitSuffix;
    }
    assert !OccursAt(s, GitSuffix, 0) by { assert s[0] != '.'; }
    assert !OccursAt(s, GitSuffix, 1) by { assert s[1] != '.'; }
    assert FirstOccurrence(s, GitSuffix, 2);
    assert s[..2] + "" + s[6..] == "myhub.io";
    assert !EndsWith(s, GitSuffix) by { assert s[|s| - 1] == 'o'; }
  }

  /* ------------------------------------------------------ normalisation */

  /** The repository record the Dashboard keeps. */
  datatype DashRepoData = DashRepoData(
    name: string,
    owner: string,
    description: string,
    language: Option<string>,
    topics: seq<string>,
    license: string,
    stars: Option<int>,
    isPrivate: bool,
    defaultBranch: string)

  const DefaultLicense := "MIT"
  const DefaultBranch := "main"

  /** The object `fetchRepositoryData` builds from the API record. */
  function NormalizeRepository(data: RepoJson): (r: DashRepoData)
    ensures r.description == (if Present(data.description) then data.description.value else "")
    ensures r.topics == (if data.topics.Some? then data.topics.value else [])
    ensures r.license == (if data.license.Some? then data.license.value.key else DefaultLicense)
    ensures r.defaultBranch == (if Present(data.defaultBranch) then data.defaultBranch.value else DefaultBranch)
    ensures r.defaultBranch != ""
    ensures r.name == data.name && r.owner == data.ownerLogin && r.language == data.language
    ensures r.stars == data.stargazersCount && r.isPrivate == data.isPrivate
  {
    DashRepoData(
      data.name,
      data.ownerLogin,
      TextOr(data.description, ""),
      data.language,
      data.topics.GetOr([]),
      match data.license case Some(l) => l.key case None => DefaultLicense,
      data.stargazersCount,
      data.isPrivate,
      TextOr(data.defaultBranch, DefaultBranch))
  }

  /* -------------------------------------------------------- the fetches */

  /** A `fetch` response: `ok`, `statusText` and the decoded body. */
  datatype HttpReply<T> = HttpReply(ok: bool, statusText: string, body: T)

  type RepoFetcher = string -> HttpReply<RepoJson>
  type TreeFetcher = string -> HttpReply<seq<TreeEntry>>

  const RepoDataError := "Failed to fetch repository data: "
  const RepoFilesError := "Failed to fetch repository files: "

  function FetchRepositoryData(fetch: RepoFetcher, owner: string, repo: string): (r: Result<DashRepoData, string>)
    ensures fetch(RepoUrl(owner, repo)).ok <==> r.Ok?
    ensures r.Ok? ==> r.value == NormalizeRepository(fetch(RepoUrl(owner, repo)).body)
    ensures r.Fail? ==> r.error == RepoDataError + fetch(RepoUrl(owner, repo)).statusText
  {
    var res := fetch(RepoUrl(owner, repo));
    if !res.ok then Fail(RepoDataError + res.statusText) else Ok(NormalizeRepository(res.body))
  }

  /** `.../git/trees/<branch>?recursive=1`. */
  function TreeUrl(owner: string, repo: string, branch: string): string
  {
    RepoUrl(owner, repo) + "/git/trees/" + branch + "?recursive=1"
  }

  /** `fetchRepositoryFiles`; the listing is taken in the order it is given. */
  function FetchRepositoryFiles(fetch: TreeFetcher, owner: string, repo: string, branch: string)
    : (r: Result<seq<Node>, string>)
    ensures fetch(TreeUrl(owner, repo, branch)).ok <==> r.Ok?
    ensures r.Ok? ==> r.value == BuildTree(fetch(TreeUrl(owner, repo, branch)).body)
    ensures r.Fail? ==> r.error == RepoFilesError + fetch(TreeUrl(owner, repo, branch)).statusText
  {
    var res := fetch(TreeUrl(owner, repo, branch));
    if !res.ok then Fail(RepoFilesError + res.statusText) else Ok(BuildTree(res.body))
  }

  /** The folders expanded after loading: the paths of the top-level folders. */
  function FirstLevelFolders(files: seq<Node>): (r: set<string>)
    ensures forall p :: p in r <==> exists k :: 0 <= k < |files| && files[k].Folder? && files[k].path == p
  {
    set k | 0 <= k < |files| && files[k].Folder? :: files[k].path
  }

  /** For a tree built from a listing without blob prefixes, the expanded
      paths are exactly the names of the top-level folders. */
  lemma ExpandedAreTopFolders(entries: seq<TreeEntry>)
    requires NoBlobPrefix(entries)
    ensures var tree := BuildTree(entries);
      forall p :: p in FirstLevelFolders(tree) <==>
        exists k :: 0 <= k < |tree| && tree[k].Folder? && tree[k].name == p
  {
    var tree := BuildTree(entries);
    BuildTreePaths(entries);
    forall k | 0 <= k < |tree|
      ensures tree[k].path == tree[k].name
    {
      assert [] + [tree[k].name] == [tree[k].name];
      assert Join([tree[k].name], "/") == tree[k].name;
    }
  }

  /** What `handleFetchRepository` leaves behind on success. */
  datatype Loaded = Loaded(data: DashRepoData, files: seq<Node>, expanded: set<string>, notice: string)

  const InvalidDashUrl := "Invalid GitHub URL. Please use format: https://github.com/owner/repo"

  /** `handleFetchRepository`: parse, fetch the record, then fetch the tree of
      its default branch; the first failure's message is shown. */
  function LoadRepository(fetchRepo: RepoFetcher, fetchTree: TreeFetcher, githubUrl: string)
    : (r: Result<Loaded, string>)
    ensures ParseGitHubUrl(githubUrl).None? ==> r == Fail(InvalidDashUrl)
    ensures ParseGitHubUrl(githubUrl).Some? ==>
      var parsed := ParseGitHubUrl(githubUrl).value;
      var record := FetchRepositoryData(fetchRepo, parsed.owner, parsed.repo);
      && (record.Fail? ==> r == Fail(record.error))
      && (record.Ok? ==>
            var files := FetchRepositoryFiles(fetchTree, parsed.owner, parsed.repo, record.value.defaultBranch);
            && (files.Fail? ==> r == Fail(files.error))
            && (files.Ok? ==> r.Ok?))
    ensures r.Ok? ==>
      var parsed := ParseGitHubUrl(githubUrl).value;
      && FetchRepositoryData(fetchRepo, parsed.owner, parsed.repo) == Ok(r.value.data)
      && FetchRepositoryFiles(fetchTree, parsed.owner, parsed.repo, r.value.data.defaultBranch) == Ok(r.value.files)
      && r.value.expanded == FirstLevelFolders(r.value.files)
      && r.value.notice == "Successfully loaded " + r.value.data.name + " repository!"
  {
    match ParseGitHubUrl(githubUrl)
    case None => Fail(InvalidDashUrl)
    case Some(parsed) =>
      match FetchRepositoryData(fetchRepo, parsed.owner, parsed.repo)
      case Fail(e) => Fail(e)
      case Ok(data) =>
        match FetchRepositoryFiles(fetchTree, parsed.owner, parsed.repo, data.defaultBranch)
        case Fail(e) => Fail(e)
        case Ok(files) =>
          Ok(Loaded(data, files, FirstLevelFolders(files), "Successfully loaded " + data.name + " repository!"))
  }

  /** A successful load asked for the tree of the record's default branch,
      or of "main" when the record has none; never of an empty branch. */
  lemma LoadRequestsDefaultBranch(fetchRepo: RepoFetcher, fetchTree: TreeFetcher, githubUrl: string)
    requires LoadRepository(fetchRepo, fetchTree, githubUrl).Ok?
    ensures var parsed := ParseGitHubUrl(githubUrl).value;
      var record := fetchRepo(RepoUrl(parsed.owner, parsed.repo)).body;
      var branch := if Present(record.defaultBranch) then record.defaultBranch.value else DefaultBranch;
      && branch != ""
      && fetchTree(TreeUrl(parsed.owner, parsed.repo, branch)).ok
      && LoadRepository(fetchRepo, fetchTree, githubUrl).value.files ==
         BuildTree(fetchTree(TreeUrl(parsed.owner, parsed.repo, branch)).body)
  {
    var parsed := ParseGitHubUrl(githubUrl).value;
    var data := FetchRepositoryData(fetchRepo, parsed.owner, parsed.repo).value;
    assert data == NormalizeRepository(fetchRepo(RepoUrl(parsed.owner, parsed.repo)).body);
  }

  /* ------------------------------------------------------------ toggles */

  /** `toggleFolder` and `toggleFileSelection`: the path leaves the set when
      it is in it and joins it otherwise; no other element changes. */
  function Toggle(s: set<string>, path: string): (r: set<string>)
    ensures path in r <==> path !in s
    ensures forall q :: q != path ==> (q in r <==> q in s)
  {
    if path in s then s - {path} else s + {path}
  }

  /** Toggling the same path twice restores the set. */
  lemma ToggleTwice(s: set<string>, path: string)
    ensures Toggle(Toggle(s, path), path) == s
  {
  }

  /** Toggles of different paths commute. */
  lemma TogglesCommute(s: set<string>, a: string, b: string)
    ensures Toggle(Toggle(s, a), b) == Toggle(Toggle(s, b), a)
  {
  }
}
