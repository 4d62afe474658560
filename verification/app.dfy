/**
  The single-page client: `isValidGithubUrl`, and `generateReadme`, which
  checks the URL, posts it to the backend with fixed options and shows either
  the returned markdown or an error text.
 */
module App {
  import opened Base
  import opened Strings
  import opened Js
  import opened Url
  import opened ReadmeService
  import opened RepoRoute

  /** `isValidGithubUrl`: a parsed URL on github.com with at least two
      non-empty path segments; a URL the parser rejects is invalid. */
  function IsValidGithubUrl(parse: Parser, url: string): (r: bool)
    ensures parse(url).None? ==> !r
    ensures r ==> parse(url).value.hostname == GitHubHost
    ensures r ==> |PathSegments(parse(url).value.pathname)| >= 2
  {
    match parse(url)
    case None => false
    case Some(u) => u.hostname == GitHubHost && |PathSegments(u.pathname)| >= 2
  }

  /** The client accepts exactly the URLs the backend resolver accepts. */
  lemma ClientAgreesWithResolver(parse: Parser, url: string)
    ensures IsValidGithubUrl(parse, url) <==> GitHubUrlInfo(parse, url).Ok?
  {
  }

  const GenerateEndpoint := "http://localhost:5050/api/generate"
  const InvalidUrlHint := "Please enter a valid GitHub repository URL (e.g., https://github.com/owner/repo)"
  const GenericFailure := "Failed to generate README"
  /** The `catch` block's fallback when the thrown message is empty. */
  const RetryHint := "Failed to generate README. Please try again."

  /** The JSON body the client posts. */
  datatype Payload = Payload(repoUrl: string, tone: string, includeBadges: bool)

  /** What pressing "generate" does: show a hint, or post a payload. */
  datatype ClientAction = ShowHint(message: string) | Post(endpoint: string, payload: Payload)

  /** The guard and the request of `generateReadme`. */
  function GenerateReadme(parse: Parser, repoUrl: string): (a: ClientAction)
    ensures !IsValidGithubUrl(parse, repoUrl) <==> a == ShowHint(InvalidUrlHint)
    ensures a.Post? ==> a == Post(GenerateEndpoint, Payload(repoUrl, DefaultTone, true))
  {
    if !IsValidGithubUrl(parse, repoUrl) then ShowHint(InvalidUrlHint)
    else Post(GenerateEndpoint, Payload(repoUrl, DefaultTone, true))
  }

  /** The body the route reads from the posted payload. */
  function PayloadAsBody(p: Payload): Body
  {
    Body(Str(p.repoUrl), Str(p.tone), Bool(p.includeBadges))
  }

  /** The decoded JSON of a response: its `error` and `markdown` properties. */
  datatype ResponseJson = ResponseJson(error: JsValue, markdown: JsValue)

  /** What the client ends up showing. */
  datatype ClientView = Content(markdown: JsValue) | ErrorText(message: string)

  /** The response handling of `generateReadme`: a status outside 200-299
      throws `data.error || 'Failed to generate README'`, and the `catch`
      block shows the thrown message, or a retry hint when it is empty. */
  function HandleResponse(status: int, data: ResponseJson): (v: ClientView)
    ensures 200 <= status <= 299 <==> v.Content?
    ensures v.Content? ==> v.markdown == data.markdown
    ensures v.ErrorText? ==> v.message != ""
    ensures v.ErrorText? && Truthy(data.error) ==> v.message == TemplateText(data.error)
    ensures v.ErrorText? && !Truthy(data.error) ==> v.message == GenericFailure
  {
    if 200 <= status <= 299 then Content(data.markdown)
    else
      var thrown := TemplateText(Or(data.error, Str(GenericFailure)));
      ErrorText(if thrown == "" then RetryHint else thrown)
  }

  /** The JSON the route's reply decodes to. */
  function AsJson(body: ReplyBody): ResponseJson
  {
    match body
    case ErrorBody(e) => ResponseJson(Str(e), Undefined)
    case ResultBody(r) => ResponseJson(Undefined, Str(r.markdown))
  }

  /** A URL the client lets through always passes the route's `repoUrl`
      check and resolution, given that the parser rejects the empty string:
      the backend never answers 400 and never reports a URL error to it. */
  lemma ValidatedUrlsReachGitHub(parse: Parser, fetch: Fetcher, generate: Generator, url: string)
    requires parse("").None?
    requires GenerateReadme(parse, url).Post?
    ensures var out := HandleGenerate(parse, fetch, generate, Some(PayloadAsBody(GenerateReadme(parse, url).payload)));
      && out.reply.status != 400
      && |out.calls| >= 1 && out.calls[0].GitHubCall?
      && (out.reply.body.ErrorBody? ==>
            out.reply.body.error in {NotFoundPhrase, AiConfigError, FetchFailed.Message()})
  {
    var p := GenerateReadme(parse, url).payload;
    assert url != "";
    ClientAgreesWithResolver(parse, url);
    var run := GenerateReadmeForRepo(parse, fetch, generate, ServiceRequest(url, Str(p.tone), true));
    ResolvedRunFailures(parse, fetch, generate, ServiceRequest(url, Str(p.tone), true));
    if run.result.Fail? {
      ServiceErrorReply(run.result.error);
    }
  }

  /** End to end: when the service succeeds, the client shows the generated
      markdown exactly as Gemini returned it. */
  lemma ClientShowsGeneratedText(parse: Parser, fetch: Fetcher, generate: Generator, url: string)
    requires GenerateReadme(parse, url).Post?
    requires url != ""
    requires |GenerateReadmeForRepo(parse, fetch, generate, ServiceRequest(url, Str(DefaultTone), true)).calls| == 2
    requires generate(GenerateReadmeForRepo(parse, fetch, generate,
                                            ServiceRequest(url, Str(DefaultTone), true)).calls[1].prompt).Generated?
    ensures var out := HandleGenerate(parse, fetch, generate, Some(PayloadAsBody(GenerateReadme(parse, url).payload)));
      var prompt := out.calls[1].prompt;
      HandleResponse(out.reply.status, AsJson(out.reply.body)) == Content(Str(generate(prompt).text))
  {
  }
}
