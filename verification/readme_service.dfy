/**
  The backend README service: it resolves a GitHub URL to an (owner, repo)
  pair, fetches the repository's metadata, renders the prompt, asks Gemini for
  the README text and assembles the response. The GitHub fetch and the Gemini
  call are oracles passed in as functions; the service reports, besides its
  result, the external calls it issued, in order.
 */
module ReadmeService {
  import opened Base
  import opened Strings
  import opened Js
  import opened Url
  import opened GitHubApi

  /** The errors the service throws; each is identified by its message. */
  datatype ServiceError =
    | InvalidUrlFormat        // `new URL` threw
    | UnsupportedHost         // the hostname is not github.com
    | InvalidRepositoryPath   // fewer than two path segments
    | RepositoryNotFound      // GitHub answered 404
    | FetchFailed             // any other failure of the GitHub call
    | GenerationFailed        // any failure of the Gemini call
  {
    function Message(): string
    {
      match this
      case InvalidUrlFormat => "Invalid repository URL format"
      case UnsupportedHost => "Only GitHub repositories are supported"
      case InvalidRepositoryPath => "Invalid GitHub repository URL"
      case RepositoryNotFound => "Repository not found"
      case FetchFailed => "Failed to fetch repository data"
      case GenerationFailed => "Failed to generate README with AI"
    }

    /** The three errors of URL resolution. */
    predicate IsUrlError()
    {
      InvalidUrlFormat? || UnsupportedHost? || InvalidRepositoryPath?
    }
  }

  const GitHubHost := "github.com"
  const GitSuffix := ".git"

  /* ------------------------------------------------------ URL resolution */

  /** `GitHubUrlInfo`: the host check comes before the path check, and the
      repository name loses at most one trailing ".git". */
  function GitHubUrlInfo(parse: Parser, repoUrl: string): (r: Result<RepoRef, ServiceError>)
    ensures parse(repoUrl).None? <==> r == Fail(InvalidUrlFormat)
    ensures (parse(repoUrl).Some? && parse(repoUrl).value.hostname != GitHubHost) <==>
      r == Fail(UnsupportedHost)
    ensures (parse(repoUrl).Some? && parse(repoUrl).value.hostname == GitHubHost &&
             |PathSegments(parse(repoUrl).value.pathname)| < 2) <==> r == Fail(InvalidRepositoryPath)
    ensures r.Fail? ==> r.error.IsUrlError()
    ensures r.Ok? ==>
      var segments := PathSegments(parse(repoUrl).value.pathname);
      && |segments| >= 2
      && r.value.owner == segments[0]
      && r.value.repo + (if EndsWith(segments[1], GitSuffix) then GitSuffix else "") == segments[1]
  {
    match parse(repoUrl)
    case None => Fail(InvalidUrlFormat)
    case Some(url) =>
      if url.hostname != GitHubHost then Fail(UnsupportedHost)
      else
        var segments := PathSegments(url.pathname);
        if |segments| < 2 then Fail(InvalidRepositoryPath)
        else Ok(RepoRef(segments[0], StripSuffix(segments[1], GitSuffix)))
  }

  /** Resolving the canonical URL path of an (owner, name) pair gives the pair
      back, for a name that does not itself end in ".git"; with ".git" appended
      to the name, the same pair comes back. Later segments are ignored. */
  lemma ResolveCanonicalPath(parse: Parser, repoUrl: string, owner: string, name: string,
                             rest: seq<string>, withGit: bool)
    requires owner != "" && '/' !in owner
    requires name != "" && '/' !in name && !EndsWith(name, GitSuffix)
    requires forall k :: 0 <= k < |rest| ==> rest[k] != "" && '/' !in rest[k]
    requires parse(repoUrl) ==
      Some(ParsedUrl(GitHubHost, CanonicalPath([owner, if withGit then name + GitSuffix else name] + rest)))
    ensures GitHubUrlInfo(parse, repoUrl) == Ok(RepoRef(owner, name))
  {
    var second := if withGit then name + GitSuffix else name;
    assert '/' !in second by {
      assert forall k :: 0 <= k < |GitSuffix| ==> GitSuffix[k] != '/';
      assert forall k :: 0 <= k < |name + GitSuffix| ==>
        (name + GitSuffix)[k] == (if k < |name| then name[k] else GitSuffix[k - |name|]);
    }
    SegmentsOfCanonicalPath([owner, second] + rest);
    if withGit {
      StripSuffixOfAppended(name, GitSuffix);
    }
  }

  /* ------------------------------------------------------- GitHub fetch */

  /** The request the service sends to GitHub. */
  datatype ApiRequest = ApiRequest(url: string, accept: string, userAgent: string)

  /** What axios reports: the body of a 2xx response, or a rejection carrying
      the HTTP status when there was a response at all. */
  datatype FetchOutcome = Fetched(body: RepoJson) | FetchRejected(status: Option<int>)

  type Fetcher = ApiRequest -> FetchOutcome

  function RepoRequest(owner: string, repo: string): ApiRequest
  {
    ApiRequest(RepoUrl(owner, repo), "application/vnd.github+json", "README-Generator")
  }

  /** `fetchRepoData`: a 404 becomes "Repository not found", every other failure
      (other statuses, no response at all) the generic fetch failure. */
  function FetchRepoData(fetch: Fetcher, owner: string, repo: string): (r: Result<RepoJson, ServiceError>)
    ensures fetch(RepoRequest(owner, repo)).Fetched? ==> r == Ok(fetch(RepoRequest(owner, repo)).body)
    ensures fetch(RepoRequest(owner, repo)) == FetchRejected(Some(404)) ==> r == Fail(RepositoryNotFound)
    ensures (fetch(RepoRequest(owner, repo)).FetchRejected? &&
             fetch(RepoRequest(owner, repo)).status != Some(404)) ==> r == Fail(FetchFailed)
    ensures r.Fail? ==> r.error in {RepositoryNotFound, FetchFailed}
  {
    match fetch(RepoRequest(owner, repo))
    case Fetched(body) => Ok(body)
    case FetchRejected(status) =>
      if status == Some(404) then Fail(RepositoryNotFound) else Fail(FetchFailed)
  }

  /* --------------------------------------------------------- the prompt */

  const DefaultTone := "professional"

  // The placeholders the template substitutes for absent fields.
  const NoDescription := "No description provided"
  const NotSpecified := "Not specified"
  const NoLicense := "No license specified"
  const NoneText := "None"

  const FirstLine := "You are a expert Readme generator AI."
  const LastLine := "Generate ONLY the markdown content for the README.md file:"

  /** The tone after `tone = 'professional'`: the default replaces only an
      undefined tone; any other value is rendered as the template renders it. */
  function EffectiveTone(tone: JsValue): string
  {
    if tone.Undefined? then DefaultTone else TemplateText(tone)
  }

  /** `${n || 0}` for a count that may be missing. */
  function CountText(n: Option<int>): string
  {
    IntToDecimal(n.GetOr(0))
  }

  /** `${repoData.license?.name || 'No license specified'}`. */
  function LicenseText(license: Option<LicenseJson>): string
  {
    match license
    case None => NoLicense
    case Some(l) => TextOr(l.name, NoLicense)
  }

  /** `${repoData.topics?.join(', ') || 'None'}`. */
  function TopicsText(topics: Option<seq<string>>): string
  {
    match topics
    case None => NoneText
    case Some(ts) => TextOr(Some(Join(ts, ", ")), NoneText)
  }

  /** The opening lines of the template. */
  const Preamble: seq<string> := [
    FirstLine,
    "  Create a professional README.md file for this GitHub repository.",
    "",
    "Repository Information:"]

  /** The repository's fields, one per line. */
  function InfoLines(data: RepoJson): seq<string>
  {
    [ "- Name: " + data.name,
      "- Description: " + TextOr(data.description, NoDescription),
      "- Language: " + TextOr(data.language, NotSpecified),
      "- Stars: " + CountText(data.stargazersCount),
      "- Forks: " + CountText(data.forksCount),
      "- License: " + LicenseText(data.license),
      "- Homepage: " + TextOr(data.homepage, NoneText),
      "- Topics: " + TopicsText(data.topics),
      "- Created: " + data.createdAt,
      "- Last Updated: " + data.updatedAt ]
  }

  /** The fixed instructions after the tone line. */
  const Guidelines: seq<string> := [
    "- Add a Project title and description, features",
    "- Installation instructions",
    "- Tech Stack used",
    "- Project structure",
    "- Include license information",
    "- Add badges for stars, forks, and license if applicable",
    "- Make it well-structured with proper markdown formatting",
    "- Keep it concise but informative",
    "",
    LastLine]

  /** The lines of the prompt template, top to bottom. */
  function PromptLines(data: RepoJson, tone: string): seq<string>
  {
    Preamble + InfoLines(data) + ["", "Instructions:", "- Write in a " + tone + " tone"] + Guidelines
  }

  /** `buildPrompt`: the template with every field substituted. */
  function BuildPrompt(data: RepoJson, tone: string): string
  {
    Join(PromptLines(data, tone), "\n")
  }

  /** The prompt holds `line` as a whole line. */
  predicate HasLine(prompt: string, line: string)
  {
    Contains(prompt, "\n" + line + "\n")
  }

  /** Each interior line of the template is a whole line of the prompt. */
  lemma PromptHasLine(data: RepoJson, tone: string, k: nat, line: string)
    requires 0 < k < |PromptLines(data, tone)| - 1 && PromptLines(data, tone)[k] == line
    ensures HasLine(BuildPrompt(data, tone), line)
  {
    JoinHasInterior(PromptLines(data, tone), "\n", k);
  }

  /** Each field line is a whole line of the prompt. */
  lemma PromptInfoLine(data: RepoJson, tone: string, j: nat)
    requires j < |InfoLines(data)|
    ensures HasLine(BuildPrompt(data, tone), InfoLines(data)[j])
  {
    var lines := PromptLines(data, tone);
    assert |Preamble| == 4 && |InfoLines(data)| == 10 && |Guidelines| == 10;
    assert lines[4 + j] == InfoLines(data)[j];
    PromptHasLine(data, tone, 4 + j, InfoLines(data)[j]);
  }

  /** The prompt opens with the role line and closes with the output instruction. */
  lemma PromptFrame(data: RepoJson, tone: string)
    ensures StartsWith(BuildPrompt(data, tone), FirstLine + "\n")
    ensures EndsWith(BuildPrompt(data, tone), "\n" + LastLine)
  {
    var lines := PromptLines(data, tone);
    JoinStartsWithFirst(lines, "\n");
    JoinEndsWithLast(lines, "\n");
    assert |Guidelines| == 10 && lines[|lines| - 1] == Guidelines[9];
  }

  /** The name, creation and update times are copied verbatim. */
  lemma PromptNameLine(data: RepoJson, tone: string)
    ensures HasLine(BuildPrompt(data, tone), "- Name: " + data.name)
  {
    PromptInfoLine(data, tone, 0);
  }

  lemma PromptDatesLines(data: RepoJson, tone: string)
    ensures HasLine(BuildPrompt(data, tone), "- Created: " + data.createdAt)
    ensures HasLine(BuildPrompt(data, tone), "- Last Updated: " + data.updatedAt)
  {
    PromptInfoLine(data, tone, 8);
    PromptInfoLine(data, tone, 9);
  }

  /** The tone appears verbatim in the writing instruction. */
  lemma PromptToneLine(data: RepoJson, tone: string)
    ensures HasLine(BuildPrompt(data, tone), "- Write in a " + tone + " tone")
  {
    assert |Preamble| == 4 && |InfoLines(data)| == 10;
    PromptHasLine(data, tone, 16, "- Write in a " + tone + " tone");
  }

  /** The description when it is a non-empty string, otherwise the placeholder. */
  lemma PromptDescriptionLine(data: RepoJson, tone: string)
    ensures HasLine(BuildPrompt(data, tone),
      "- Description: " + (if Present(data.description) then data.description.value else NoDescription))
  {
    PromptInfoLine(data, tone, 1);
  }

  lemma PromptLanguageLine(data: RepoJson, tone: string)
    ensures HasLine(BuildPrompt(data, tone),
      "- Language: " + (if Present(data.language) then data.language.value else NotSpecified))
  {
    PromptInfoLine(data, tone, 2);
  }

  /** A missing count is rendered as 0, a present one (0 included) as its decimal text. */
  lemma PromptStarsLine(data: RepoJson, tone: string)
    ensures HasLine(BuildPrompt(data, tone),
      "- Stars: " + (if data.stargazersCount.Some? then IntToDecimal(data.stargazersCount.value) else "0"))
  {
    ZeroDecimal();
    PromptInfoLine(data, tone, 3);
  }

  lemma PromptForksLine(data: RepoJson, tone: string)
    ensures HasLine(BuildPrompt(data, tone),
      "- Forks: " + (if data.forksCount.Some? then IntToDecimal(data.forksCount.value) else "0"))
  {
    ZeroDecimal();
    PromptInfoLine(data, tone, 4);
  }

  /** The license's name when there is a license with a non-empty name. */
  lemma PromptLicenseLine(data: RepoJson, tone: string)
    ensures HasLine(BuildPrompt(data, tone),
      "- License: " + (if data.license.Some? && Present(data.license.value.name)
                       then data.license.value.name.value else NoLicense))
  {
    PromptInfoLine(data, tone, 5);
  }

  lemma PromptHomepageLine(data: RepoJson, tone: string)
    ensures HasLine(BuildPrompt(data, tone),
      "- Homepage: " + (if Present(data.homepage) then data.homepage.value else NoneText))
  {
    PromptInfoLine(data, tone, 6);
  }

  /** Topics are joined with ", "; a missing list, or one that joins to the
      empty string (no topics, or a single empty topic), gives the placeholder. */
  lemma PromptTopicsLine(data: RepoJson, tone: string)
    ensures HasLine(BuildPrompt(data, tone),
      "- Topics: " + (if data.topics.Some? && Join(data.topics.value, ", ") != ""
                      then Join(data.topics.value, ", ") else NoneText))
  {
    PromptInfoLine(data, tone, 7);
  }

  /* ------------------------------------------------------ the Gemini call */

  const GeminiModel := "gemini-2.5-flash"

  datatype GeminiRequest = GeminiRequest(model: string, prompt: string)

  /** The outcome of `generateContent(prompt)` followed by `response.text()`. */
  datatype GenerateOutcome = Generated(text: string) | GenerateRejected

  type Generator = GeminiRequest -> GenerateOutcome

  /** `generateWithGemini`: the text of the answer, or one generic failure
      whatever went wrong. */
  function GenerateWithGemini(generate: Generator, prompt: string): (r: Result<string, ServiceError>)
    ensures generate(GeminiRequest(GeminiModel, prompt)).Generated? <==> r.Ok?
    ensures r.Ok? ==> r.value == generate(GeminiRequest(GeminiModel, prompt)).text
    ensures r.Fail? ==> r.error == GenerationFailed
  {
    match generate(GeminiRequest(GeminiModel, prompt))
    case Generated(text) => Ok(text)
    case GenerateRejected => Fail(GenerationFailed)
  }

  /* -------------------------------------------------------- orchestration */

  /** The argument object of `generateReadmeForRepo`. */
  datatype ServiceRequest = ServiceRequest(repoUrl: string, tone: JsValue, includeBadges: bool)

  datatype RepoSummary = RepoSummary(owner: string, name: string, url: string)

  datatype RepoMeta = RepoMeta(
    name: string,
    description: Option<string>,
    language: Option<string>,
    stars: Option<int>,
    forks: Option<int>)

  /** The object the service returns on success. */
  datatype GenerationResult = GenerationResult(markdown: string, repo: RepoSummary, meta: RepoMeta)

  /** A call to one of the two external services. */
  datatype ExternalCall = GitHubCall(request: ApiRequest) | GeminiCall(prompt: GeminiRequest)

  /** The outcome of one run of the service and the calls it made, in order. */
  datatype ServiceRun = ServiceRun(result: Result<GenerationResult, ServiceError>, calls: seq<ExternalCall>)

  /** The response assembled from the resolved pair, the metadata and the text. */
  function Assemble(ref: RepoRef, data: RepoJson, markdown: string): GenerationResult
  {
    GenerationResult(
      markdown,
      RepoSummary(ref.owner, ref.repo, data.htmlUrl),
      RepoMeta(data.name, data.description, data.language, data.stargazersCount, data.forksCount))
  }

  /** `generateReadmeForRepo`: resolve, fetch, build the prompt, generate,
      assemble; the first failure ends the run and is passed on unchanged. */
  function GenerateReadmeForRepo(parse: Parser, fetch: Fetcher, generate: Generator,
                                 req: ServiceRequest): (run: ServiceRun)
    ensures var info := GitHubUrlInfo(parse, req.repoUrl);
      info.Fail? ==> run == ServiceRun(Fail(info.error), [])
    ensures var info := GitHubUrlInfo(parse, req.repoUrl);
      info.Ok? ==> |run.calls| >= 1 && run.calls[0] == GitHubCall(RepoRequest(info.value.owner, info.value.repo))
    ensures var info := GitHubUrlInfo(parse, req.repoUrl);
      info.Ok? && FetchRepoData(fetch, info.value.owner, info.value.repo).Fail? ==>
        run.result == Fail(FetchRepoData(fetch, info.value.owner, info.value.repo).error) && |run.calls| == 1
    ensures var info := GitHubUrlInfo(parse, req.repoUrl);
      info.Ok? && FetchRepoData(fetch, info.value.owner, info.value.repo).Ok? ==>
        var data := FetchRepoData(fetch, info.value.owner, info.value.repo).value;
        var prompt := GeminiRequest(GeminiModel, BuildPrompt(data, EffectiveTone(req.tone)));
        && run.calls == [GitHubCall(RepoRequest(info.value.owner, info.value.repo)), GeminiCall(prompt)]
        && (generate(prompt).GenerateRejected? ==> run.result == Fail(GenerationFailed))
        && (generate(prompt).Generated? ==> run.result == Ok(Assemble(info.value, data, generate(prompt).text)))
    ensures |run.calls| <= 2
  {
    match GitHubUrlInfo(parse, req.repoUrl)
    case Fail(e) => ServiceRun(Fail(e), [])
    case Ok(ref) =>
      var fetchCall := GitHubCall(RepoRequest(ref.owner, ref.repo));
      match FetchRepoData(fetch, ref.owner, ref.repo)
      case Fail(e) => ServiceRun(Fail(e), [fetchCall])
      case Ok(data) =>
        var prompt := BuildPrompt(data, EffectiveTone(req.tone));
        var genCall := GeminiCall(GeminiRequest(GeminiModel, prompt));
        match GenerateWithGemini(generate, prompt)
        case Fail(e) => ServiceRun(Fail(e), [fetchCall, genCall])
        case Ok(markdown) => ServiceRun(Ok(Assemble(ref, data, markdown)), [fetchCall, genCall])
  }

  /** On success the result carries the model's text unchanged, the owner and
      name from the URL (not from the API) and the metadata copied field by
      field from the API record. */
  lemma SuccessfulRunAssembles(parse: Parser, fetch: Fetcher, generate: Generator, req: ServiceRequest)
    requires GenerateReadmeForRepo(parse, fetch, generate, req).result.Ok?
    ensures var run := GenerateReadmeForRepo(parse, fetch, generate, req);
      var res := run.result.value;
      var ref := GitHubUrlInfo(parse, req.repoUrl);
      && ref.Ok?
      && |run.calls| == 2
      && fetch(run.calls[0].request).Fetched?
      && var data := fetch(run.calls[0].request).body;
      && res.markdown == generate(run.calls[1].prompt).text
      && res.repo == RepoSummary(ref.value.owner, ref.value.repo, data.htmlUrl)
      && res.meta.name == data.name && res.meta.description == data.description
      && res.meta.language == data.language && res.meta.stars == data.stargazersCount
      && res.meta.forks == data.forksCount
  {
  }

  /** When the run reaches Gemini, the prompt it sends names the repository
      as GitHub reported it and carries the requested tone, or "professional"
      when none was given. */
  lemma GeminiPromptDescribesRepository(parse: Parser, fetch: Fetcher, generate: Generator,
                                        req: ServiceRequest)
    requires |GenerateReadmeForRepo(parse, fetch, generate, req).calls| == 2
    ensures var run := GenerateReadmeForRepo(parse, fetch, generate, req);
      && run.calls[0].GitHubCall? && fetch(run.calls[0].request).Fetched?
      && run.calls[1].GeminiCall? && run.calls[1].prompt.model == GeminiModel
      && var data := fetch(run.calls[0].request).body;
      && var text := run.calls[1].prompt.prompt;
      && HasLine(text, "- Name: " + data.name)
      && HasLine(text, "- Write in a " + (if req.tone.Undefined? then DefaultTone else TemplateText(req.tone)) + " tone")
  {
    var info := GitHubUrlInfo(parse, req.repoUrl);
    var data := FetchRepoData(fetch, info.value.owner, info.value.repo).value;
    var tone := EffectiveTone(req.tone);
    PromptNameLine(data, tone);
    PromptToneLine(data, tone);
  }

  /** `includeBadges` reaches the service but changes nothing it does. */
  lemma BadgesIgnored(parse: Parser, fetch: Fetcher, generate: Generator, req: ServiceRequest, b: bool)
    ensures GenerateReadmeForRepo(parse, fetch, generate, req.(includeBadges := b)) ==
            GenerateReadmeForRepo(parse, fetch, generate, req)
  {
  }

  /** Once the URL resolves, the service calls GitHub first and can only fail
      on the fetch or on the generation. */
  lemma ResolvedRunFailures(parse: Parser, fetch: Fetcher, generate: Generator, req: ServiceRequest)
    requires GitHubUrlInfo(parse, req.repoUrl).Ok?
    ensures var run := GenerateReadmeForRepo(parse, fetch, generate, req);
      && |run.calls| >= 1 && run.calls[0].GitHubCall?
      && (run.result.Fail? ==> run.result.error in {RepositoryNotFound, FetchFailed, GenerationFailed})
  {
  }
}
