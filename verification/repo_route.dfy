/**
  The `POST /generate` route: it checks that the body carries a non-empty
  string `repoUrl`, hands the request to the README service and turns a thrown
  error into an HTTP status by looking for fixed phrases in its message.
 */
module RepoRoute {
  import opened Base
  import opened Strings
  import opened Js
  import opened Url
  import opened ReadmeService

  /** The three fields the route reads from the JSON body. */
  datatype Body = Body(repoUrl: JsValue, tone: JsValue, includeBadges: JsValue)

  /** What the route sends: an error object, or the service's result. */
  datatype ReplyBody = ErrorBody(error: string) | ResultBody(result: GenerationResult)

  datatype JsonReply = JsonReply(status: int, body: ReplyBody)

  /** The reply and the external calls made while producing it. */
  datatype RouteRun = RouteRun(reply: JsonReply, calls: seq<ExternalCall>)

  const MissingRepoUrl := "repoUrl is required and must be a string"
  const AiConfigError := "AI service configuration error"
  const RateLimitError := "GitHub API rate limit exceeded"
  const InternalError := "Internal Server Error"

  // The phrases the error classification looks for, in the order it tests them.
  const NotFoundPhrase := "Repository not found"
  const MissingKeyPhrase := "API key is missing"
  const GenerationPhrase := "Failed to generate README with AI"
  const RateLimitPhrase := "rate limit"

  /** `req.body || {}`: a missing body reads as a body whose fields are all undefined. */
  function Fields(body: Option<Body>): (b: Body)
    ensures body.Some? ==> b == body.value
    ensures body.None? ==> b.repoUrl.Undefined? && b.tone.Undefined? && b.includeBadges.Undefined?
  {
    body.GetOr(Body(Undefined, Undefined, Undefined))
  }

  /** `!repoUrl || typeof repoUrl !== 'string'` rejects the value. */
  predicate AcceptedRepoUrl(v: JsValue)
  {
    Truthy(v) && v.Str?
  }

  /** The accepted values are exactly the non-empty strings. */
  lemma AcceptedRepoUrlMeaning(v: JsValue)
    ensures AcceptedRepoUrl(v) <==> (v.Str? && v.s != "")
  {
  }

  /** The catch block: a status and error text chosen by the first phrase
      found in the message. */
  function ClassifyError(message: string): (r: JsonReply)
    ensures r.status in {403, 404, 500} && r.body.ErrorBody?
    ensures r.status == 404 <==> Contains(message, NotFoundPhrase)
    ensures r.status == 404 ==> r.body.error == message
    ensures (!Contains(message, NotFoundPhrase) &&
             (Contains(message, MissingKeyPhrase) || Contains(message, GenerationPhrase))) ==>
      r == JsonReply(500, ErrorBody(AiConfigError))
    ensures r.status == 403 <==>
      (!Contains(message, NotFoundPhrase) && !Contains(message, MissingKeyPhrase) &&
       !Contains(message, GenerationPhrase) && Contains(message, RateLimitPhrase))
    ensures r.status == 403 ==> r.body.error == RateLimitError
    ensures (!Contains(message, NotFoundPhrase) && !Contains(message, MissingKeyPhrase) &&
             !Contains(message, GenerationPhrase) && !Contains(message, RateLimitPhrase)) ==>
      r == JsonReply(500, ErrorBody(if message == "" then InternalError else message))
  {
    if Contains(message, NotFoundPhrase) then JsonReply(404, ErrorBody(message))
    else if Contains(message, MissingKeyPhrase) || Contains(message, GenerationPhrase) then
      JsonReply(500, ErrorBody(AiConfigError))
    else if Contains(message, RateLimitPhrase) then JsonReply(403, ErrorBody(RateLimitError))
    else JsonReply(500, ErrorBody(if message == "" then InternalError else message))
  }

  /** The route handler. An unaccepted `repoUrl` is answered with 400 before
      the service is called; otherwise the service's result is sent with 200,
      or its error is classified. `includeBadges` is passed on as `!!includeBadges`. */
  function HandleGenerate(parse: Parser, fetch: Fetcher, generate: Generator,
                          body: Option<Body>): (out: RouteRun)
    ensures !AcceptedRepoUrl(Fields(body).repoUrl) ==>
      out == RouteRun(JsonReply(400, ErrorBody(MissingRepoUrl)), [])
    ensures AcceptedRepoUrl(Fields(body).repoUrl) ==>
      var b := Fields(body);
      var run := GenerateReadmeForRepo(parse, fetch, generate,
                                       ServiceRequest(b.repoUrl.s, b.tone, Truthy(b.includeBadges)));
      && out.calls == run.calls
      && (run.result.Ok? ==> out.reply == JsonReply(200, ResultBody(run.result.value)))
      && (run.result.Fail? ==> out.reply == ClassifyError(run.result.error.Message()))
  {
    var b := Fields(body);
    if !AcceptedRepoUrl(b.repoUrl) then
      RouteRun(JsonReply(400, ErrorBody(MissingRepoUrl)), [])
    else
      var run := GenerateReadmeForRepo(parse, fetch, generate,
                                       ServiceRequest(b.repoUrl.s, b.tone, Truthy(b.includeBadges)));
      match run.result
      case Ok(result) => RouteRun(JsonReply(200, ResultBody(result)), run.calls)
      case Fail(e) => RouteRun(ClassifyError(e.Message()), run.calls)
  }

  /** The message contains itself. */
  lemma ContainsItself(s: string)
    ensures Contains(s, s)
  {
    assert OccursAt(s, s, 0);
  }

  /** The four phrases the classification looks for are all absent from `m`. */
  predicate NoPhrase(m: string)
  {
    && !Contains(m, NotFoundPhrase) && !Contains(m, MissingKeyPhrase)
    && !Contains(m, GenerationPhrase) && !Contains(m, RateLimitPhrase)
  }

  /** A message that lacks a letter of "Repository not found" and a letter of
      the generation phrase holds neither; lacking 'k' rules out the missing-key
      phrase, and lacking 'm' rules out both it and "rate limit". */
  lemma NoPhraseByLetters(m: string, c: char, d: char)
    requires c in NotFoundPhrase && c !in m && d in GenerationPhrase && d !in m
    ensures !Contains(m, NotFoundPhrase) && !Contains(m, GenerationPhrase)
    ensures 'k' !in m ==> !Contains(m, MissingKeyPhrase)
    ensures 'm' !in m ==> NoPhrase(m)
  {
    AbsentCharacter(m, NotFoundPhrase, c);
    AbsentCharacter(m, GenerationPhrase, d);
    if 'k' !in m {
      AbsentCharacter(m, MissingKeyPhrase, 'k');
    }
    if 'm' !in m {
      AbsentCharacter(m, MissingKeyPhrase, 'm');
      AbsentCharacter(m, RateLimitPhrase, 'm');
    }
  }

  /** "Invalid repository URL format" holds every letter of "rate limit"; its
      only 'm' lines up with the phrase's 'm' in a single window, which does not match. */
  lemma InvalidFormatHasNoPhrase()
    ensures NoPhrase(InvalidUrlFormat.Message())
  {
    InvalidFormatLacksKW();
    NoPhraseByLetters(InvalidUrlFormat.Message(), 'u', 'w');
    InvalidFormatNoRateLimit();
  }

  lemma InvalidFormatLacksKW()
    ensures 'k' !in InvalidUrlFormat.Message() && 'w' !in InvalidUrlFormat.Message()
  {
  }

  lemma InvalidFormatNoRateLimit()
    ensures !Contains(InvalidUrlFormat.Message(), RateLimitPhrase)
  {
    var a, b := "Invalid repository URL for", "at";
    InvalidFormatAroundM();
    InvalidFormatWindow();
    SoleCharacter(InvalidUrlFormat.Message(), RateLimitPhrase, a, b, 'm', 7);
  }

  lemma InvalidFormatAroundM()
    ensures InvalidUrlFormat.Message() == "Invalid repository URL for" + ['m'] + "at"
  {
  }

  lemma InvalidFormatWindow()
    ensures !OccursAt(InvalidUrlFormat.Message(), RateLimitPhrase, 19)
  {
    assert InvalidUrlFormat.Message()[19..29][0] == 'U';
  }

  lemma UnsupportedHostHasNoPhrase()
    ensures NoPhrase(UnsupportedHost.Message())
  {
    UnsupportedHostLacksMW();
    NoPhraseByLetters(UnsupportedHost.Message(), 'f', 'w');
  }

  lemma UnsupportedHostLacksMW()
    ensures 'm' !in UnsupportedHost.Message() && 'w' !in UnsupportedHost.Message()
  {
  }

  lemma InvalidPathHasNoPhrase()
    ensures NoPhrase(InvalidRepositoryPath.Message())
  {
    InvalidPathLacksMW();
    NoPhraseByLetters(InvalidRepositoryPath.Message(), 'f', 'w');
  }

  lemma InvalidPathLacksMW()
    ensures 'm' !in InvalidRepositoryPath.Message() && 'w' !in InvalidRepositoryPath.Message()
  {
  }

  lemma FetchFailedHasNoPhrase()
    ensures NoPhrase(FetchFailed.Message())
  {
    FetchFailedLacksMW();
    NoPhraseByLetters(FetchFailed.Message(), 'u', 'w');
  }

  lemma FetchFailedLacksMW()
    ensures 'm' !in FetchFailed.Message() && 'w' !in FetchFailed.Message()
  {
  }

  /** None of the service's messages other than "Repository not found" and the
      generation failure contains any of the four phrases. */
  lemma PlainMessage(e: ServiceError)
    requires e != RepositoryNotFound && e != GenerationFailed
    ensures NoPhrase(e.Message())
  {
    match e
    case InvalidUrlFormat => InvalidFormatHasNoPhrase();
    case UnsupportedHost => UnsupportedHostHasNoPhrase();
    case InvalidRepositoryPath => InvalidPathHasNoPhrase();
    case FetchFailed => FetchFailedHasNoPhrase();
  }

  /** The reply each service error turns into: a missing repository is a 404
      with the service's message, a generation failure is reported as an AI
      configuration error, and every other error is a 500 carrying its message. */
  lemma ServiceErrorReply(e: ServiceError)
    ensures e == RepositoryNotFound ==> ClassifyError(e.Message()) == JsonReply(404, ErrorBody(NotFoundPhrase))
    ensures e == GenerationFailed ==> ClassifyError(e.Message()) == JsonReply(500, ErrorBody(AiConfigError))
    ensures e != RepositoryNotFound && e != GenerationFailed ==>
      ClassifyError(e.Message()) == JsonReply(500, ErrorBody(e.Message()))
  {
    if e == RepositoryNotFound {
      ContainsItself(e.Message());
    } else if e == GenerationFailed {
      AbsentCharacter(e.Message(), NotFoundPhrase, 'u');
      ContainsItself(e.Message());
    } else {
      PlainMessage(e);
    }
  }

  /** The service never throws a rate-limit error, so the route never answers
      403; every reply is 200, 400, 404 or 500. */
  lemma NoRateLimitReply(parse: Parser, fetch: Fetcher, generate: Generator, body: Option<Body>)
    ensures HandleGenerate(parse, fetch, generate, body).reply.status in {200, 400, 404, 500}
    ensures HandleGenerate(parse, fetch, generate, body).reply.status == 200 <==>
      HandleGenerate(parse, fetch, generate, body).reply.body.ResultBody?
  {
    var b := Fields(body);
    if AcceptedRepoUrl(b.repoUrl) {
      var run := GenerateReadmeForRepo(parse, fetch, generate,
                                       ServiceRequest(b.repoUrl.s, b.tone, Truthy(b.includeBadges)));
      if run.result.Fail? {
        ServiceErrorReply(run.result.error);
      }
    }
  }

  /** A URL the service cannot resolve comes back as a 500 whose error is the
      service's own message, and no external call is made. */
  lemma UrlErrorsAreServerErrors(parse: Parser, fetch: Fetcher, generate: Generator, url: string,
                                 tone: JsValue, badges: JsValue)
    requires url != "" && GitHubUrlInfo(parse, url).Fail?
    ensures var out := HandleGenerate(parse, fetch, generate, Some(Body(Str(url), tone, badges)));
      && out.calls == []
      && out.reply == JsonReply(500, ErrorBody(GitHubUrlInfo(parse, url).error.Message()))
  {
    ServiceErrorReply(GitHubUrlInfo(parse, url).error);
  }
}
