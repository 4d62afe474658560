/**
  `requireGitHubToken`: an Express middleware that looks for a GitHub access
  token in the `x-github-token` header, the body, the query string and the
  session, in that order, and either stores the first one found on the request
  and passes control on, or answers 401.
 */
module AuthMiddleware {
  import opened Base
  import opened Js

  /** An object that may carry a `githubToken` property (Undefined when absent). */
  datatype Carrier = Carrier(githubToken: JsValue)

  datatype GitHubAccount = GitHubAccount(token: JsValue)
  datatype SessionUser = SessionUser(github: Option<GitHubAccount>)
  datatype Session = Session(user: Option<SessionUser>)

  /** The parts of the request the middleware reads; `None` stands for a
      missing (null or undefined) object on an optional chain. */
  datatype TokenRequest = TokenRequest(
    headers: map<string, JsValue>,
    body: Option<Carrier>,
    query: Option<Carrier>,
    session: Option<Session>)

  /** The middleware either replies 401 and stops, or records the token and
      calls `next()` exactly once. */
  datatype AuthOutcome = Rejected(status: int, message: string) | Forwarded(githubToken: JsValue)

  const TokenHeader := "x-github-token"
  const MissingToken := "Missing GitHub access token"

  /** `req.headers["x-github-token"]`. */
  function HeaderToken(req: TokenRequest): JsValue
  {
    if TokenHeader in req.headers then req.headers[TokenHeader] else Undefined
  }

  /** `carrier?.githubToken`. */
  function CarriedToken(c: Option<Carrier>): JsValue
  {
    match c
    case None => Undefined
    case Some(x) => x.githubToken
  }

  /** `req.session?.user?.github?.token`. */
  function SessionToken(s: Option<Session>): JsValue
  {
    match s
    case None => Undefined
    case Some(session) =>
      match session.user
      case None => Undefined
      case Some(user) =>
        match user.github
        case None => Undefined
        case Some(account) => account.token
  }

  /** The four places a token may come from, in the order they are tried. */
  function TokenSources(req: TokenRequest): (r: seq<JsValue>)
    ensures |r| == 4
  {
    [HeaderToken(req), CarriedToken(req.body), CarriedToken(req.query), SessionToken(req.session)]
  }

  /** `requireGitHubToken`: the `||` chain over the four sources decides. */
  function RequireGitHubToken(req: TokenRequest): (r: AuthOutcome)
    ensures r.Forwarded? <==> exists k :: 0 <= k < 4 && Truthy(TokenSources(req)[k])
    ensures r.Forwarded? ==> Truthy(r.githubToken)
    ensures r.Forwarded? ==> r.githubToken == FirstTruthy(TokenSources(req)).value
    ensures r.Rejected? ==> r == Rejected(401, MissingToken)
  {
    OrAllIsFirstTruthy(TokenSources(req));
    var token := OrAll(TokenSources(req));
    if !Truthy(token) then Rejected(401, MissingToken) else Forwarded(token)
  }

  /** The sources are tried in the order header, body, query, session: each is
      used exactly when it is truthy and every earlier one is falsy. */
  lemma TokenPriority(req: TokenRequest)
    ensures var h, b, q, s := HeaderToken(req), CarriedToken(req.body), CarriedToken(req.query),
                              SessionToken(req.session);
      && (Truthy(h) ==> RequireGitHubToken(req) == Forwarded(h))
      && (!Truthy(h) && Truthy(b) ==> RequireGitHubToken(req) == Forwarded(b))
      && (!Truthy(h) && !Truthy(b) && Truthy(q) ==> RequireGitHubToken(req) == Forwarded(q))
      && (!Truthy(h) && !Truthy(b) && !Truthy(q) && Truthy(s) ==> RequireGitHubToken(req) == Forwarded(s))
      && (!Truthy(h) && !Truthy(b) && !Truthy(q) && !Truthy(s) ==>
            RequireGitHubToken(req) == Rejected(401, MissingToken))
  {
    var h, b, q, s := HeaderToken(req), CarriedToken(req.body), CarriedToken(req.query),
                      SessionToken(req.session);
    assert [h, b, q, s][1..] == [b, q, s] && [b, q, s][1..] == [q, s] && [q, s][1..] == [s];
    assert [s][1..] == [];
    assert FirstTruthy([s]) == if Truthy(s) then Some(s) else None;
    assert FirstTruthy([q, s]) == if Truthy(q) then Some(q) else FirstTruthy([s]);
    assert FirstTruthy([b, q, s]) == if Truthy(b) then Some(b) else FirstTruthy([q, s]);
    assert TokenSources(req) == [h, b, q, s];
    assert FirstTruthy([h, b, q, s]) == if Truthy(h) then Some(h) else FirstTruthy([b, q, s]);
  }

  /** Empty strings, `null` and `false` are not tokens: a request whose every
      source is one of them is rejected even though the header is present. */
  lemma FalsyTokensRejected(req: TokenRequest)
    requires forall k :: 0 <= k < 4 ==> TokenSources(req)[k] in {Str(""), Null, Bool(false), Num(0), Undefined}
    ensures RequireGitHubToken(req) == Rejected(401, MissingToken)
  {
    forall k | 0 <= k < 4
      ensures !Truthy(TokenSources(req)[k])
    {
    }
  }
}
