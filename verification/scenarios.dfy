/**
  Concrete inputs that show the edge cases of the resolvers, the middleware
  and the tree builder. The URL parser stays abstract: each scenario states
  what it is assumed to return for the URL in question.
 */
module Scenarios {
  import opened Base
  import opened Strings
  import opened Js
  import opened Url
  import opened GitHubApi
  import opened ReadmeService
  import opened AuthMiddleware
  import opened FileTree
  import opened Dashboard

  /** Runs of slashes count as one: the path "//<owner>//<name>" (for
      instance "//foo//bar") names owner/name. */
  lemma DoubleSlashesResolve(parse: Parser, url: string, owner: string, name: string)
    requires owner != "" && name != "" && '/' !in owner && '/' !in name && !EndsWith(name, GitSuffix)
    requires parse(url) == Some(ParsedUrl(GitHubHost, "//" + owner + "//" + name))
    ensures GitHubUrlInfo(parse, url) == Ok(RepoRef(owner, name))
  {
    var tail := owner + "/" + ("" + "/" + name);
    assert "//" + owner + "//" + name == "" + "/" + ("" + "/" + tail);
    SegmentsConcat("", "" + "/" + tail);
    SegmentsConcat("", tail);
    SegmentsConcat(owner, "" + "/" + name);
    SegmentsConcat("", name);
    SegmentsOfSlashFree("");
    SegmentsOfSlashFree(owner);
    SegmentsOfSlashFree(name);
  }

  /** Only one trailing ".git" goes: "<name>.git.git" (for instance
      "bar.git.git") names the repository "<name>.git". */
  lemma DoubleGitStripsOnce(parse: Parser, url: string, owner: string, name: string)
    requires owner != "" && '/' !in owner && '/' !in name
    requires parse(url) == Some(ParsedUrl(GitHubHost, "/" + owner + "/" + name + GitSuffix + GitSuffix))
    ensures GitHubUrlInfo(parse, url) == Ok(RepoRef(owner, name + GitSuffix))
  {
    var second := name + GitSuffix + GitSuffix;
    assert '/' !in second by {
      assert forall k :: 0 <= k < |second| ==>
        second[k] == (if k < |name| then name[k] else GitSuffix[(k - |name|) % 4]);
    }
    assert "/" + owner + "/" + second == "" + "/" + (owner + "/" + second);
    SegmentsConcat("", owner + "/" + second);
    SegmentsConcat(owner, second);
    SegmentsOfSlashFree("");
    SegmentsOfSlashFree(owner);
    SegmentsOfSlashFree(second);
    assert PathSegments("/" + owner + "/" + second) == [owner, second];
    assert "/" + owner + "/" + name + GitSuffix + GitSuffix == "/" + owner + "/" + second;
    assert second == (name + GitSuffix) + GitSuffix;
    StripSuffixOfAppended(name + GitSuffix, GitSuffix);
  }

  /** Segments after the second are ignored: a link to a branch page still
      names the repository. */
  lemma BranchPageResolves(parse: Parser, url: string)
    requires parse(url) == Some(ParsedUrl(GitHubHost, CanonicalPath(["foo", "bar", "tree", "main"])))
    ensures GitHubUrlInfo(parse, url) == Ok(RepoRef("foo", "bar"))
  {
    assert ["foo", "bar", "tree", "main"] == ["foo", "bar"] + ["tree", "main"];
    ResolveCanonicalPath(parse, url, "foo", "bar", ["tree", "main"], false);
  }

  /** A GitHub Pages repository: the Dashboard asks for "myhub.io", where the
      backend keeps "my.github.io" (see `GitInsideNameDiffers`). */
  lemma PagesRepositoryOnDashboard()
    ensures ParseGitHubUrl("https://github.com/foo/my.github.io") == Some(DashRepo("foo", "myhub.io"))
  {
    assert "https://github.com/foo/my.github.io" == "https://" + Anchor + "foo" + "/" + "my.github.io";
    CanonicalUrlOnDashboard("foo", "my.github.io");
    GitInsideNameDiffers();
  }

  /** An empty header token gives way to the body's token. */
  lemma EmptyHeaderTokenSkipped(headers: map<string, JsValue>)
    requires headers == map[TokenHeader := Str("")]
    ensures RequireGitHubToken(TokenRequest(headers, Some(Carrier(Str("abc"))), None, None)) ==
            Forwarded(Str("abc"))
  {
    TokenPriority(TokenRequest(headers, Some(Carrier(Str("abc"))), None, None));
  }

  /** A blob listed before an entry below it is not turned into a folder: the
      later entry's last part lands beside it, with the full path. This is why
      the path property of the tree needs that no blob path be a proper prefix
      of another entry's path. */
  lemma BlobPrefixFlattens(a: string, b: string)
    requires a != "" && b != "" && a != b && '/' !in a && '/' !in b
    ensures BuildTree([TreeEntry(a, true), TreeEntry(a + "/" + b, true)]) ==
            [File(a, a, FileLanguage(a)), File(b, a + "/" + b, FileLanguage(b))]
  {
    var es := [TreeEntry(a, true), TreeEntry(a + "/" + b, true)];
    assert es[..1] == [TreeEntry(a, true)] && es[..1][..0] == [];
    SplitSeparatorFree(a, '/');
    assert [a][..1] == [a] && Join([a], "/") == a;
    assert a + "/" + b == a + ['/'] + b;
    SplitConcat(a, b, '/');
    SplitSeparatorFree(b, '/');
    var parts := [a, b];
    assert Split(a + "/" + b, '/') == parts;
    assert parts[..2] == parts && parts[1..] == [b];
    assert Join(parts, "/") == a + "/" + b;
    var root := [File(a, a, FileLanguage(a))];
    assert InsertParts([], [a], 0, true) == root;
    assert BuildTree(es[..1]) == root;
    assert FindByName(root, a) == Some(0);
    assert FindByName(root, b) == None;
    assert InsertParts(root, parts, 1, true) == root + [File(b, a + "/" + b, FileLanguage(b))];
  }
}
