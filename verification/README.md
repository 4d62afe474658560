# ReadmeGenerator, modelled in Dafny

ReadmeGenerator writes a README for a public GitHub repository. The backend
service resolves a repository URL to an owner and name, fetches the
repository record from the GitHub REST API, renders a fixed prompt from it,
asks Gemini for the markdown and returns it with a summary of the
repository. An Express route validates the request body and maps service
errors to HTTP statuses. A middleware picks the GitHub token from four
places. The single-page client checks the URL before posting it. The
Dashboard page has its own URL matcher, normalises the repository record,
builds a nested file tree from the flat listing of the Git tree API, and
folds over that tree to compute statistics.

The model is functional. Every entity is an immutable datatype and every
operation is a pure function. Everything the code cannot compute itself is
a function parameter:

- the WHATWG URL parser behind `new URL(s)` (`Url.Parser`);
- the GitHub fetch (`ReadmeService.Fetcher`, and `Dashboard.RepoFetcher` and
  `Dashboard.TreeFetcher`);
- the Gemini call (`ReadmeService.Generator`).

The service and the route also return the list of external calls they made.
That way, statements like "a parse failure means no fetch" are stated about
that list.

JavaScript semantics are spelled out explicitly in module `Js`:

- truthiness;
- `||` and chains of it;
- how template literals render values.

The modules follow the program's files:

| module | file |
|---|---|
| `ReadmeService` | `Backend/src/services/readmeService.js` |
| `RepoRoute` | `Backend/src/routes/repo.js` |
| `AuthMiddleware` | `Backend/src/middlewares/AuthMiddleware.js` |
| `App` | `Frontend/src/App.jsx` |
| `Dashboard`, `Languages`, `FileTree`, `RepoAnalysis` | `Frontend/src/Dashboard.jsx` |

The shared modules are:

- `Base`: Option and Result;
- `Strings`: split, join, `includes`, `replace`, lower case, decimal rendering;
- `Js`;
- `Url`: path segments;
- `GitHubApi`: the repository record.

`Scenarios` collects concrete cases.

## Model

| member | source | states |
|---|---|---|
| ReadmeService.GitHubUrlInfo | Backend/src/services/readmeService.js:13-34 | Fails with "Invalid repository URL format" exactly when the parser rejects the URL. A parsed URL fails with "Only GitHub repositories are supported" exactly when its host is not exactly github.com, before any path check. With fewer than two non-empty path segments it fails with "Invalid GitHub repository URL". Otherwise the owner is the first segment and the repository is the second with one trailing ".git" removed. |
| ReadmeService.ResolveCanonicalPath | Backend/src/services/readmeService.js:25-33 | For the path "/owner/name[.git]/..." of non-empty slash-free names, the resolver returns exactly (owner, name). Extra segments and one ".git" make no difference. |
| Url.SegmentsConcat | Backend/src/services/readmeService.js:25 | Splitting on '/' and dropping empty pieces treats any run of slashes, and leading or trailing ones, as a single separator. |
| Url.SegmentsOfCanonicalPath | Backend/src/services/readmeService.js:25 | The segments of "/p0/p1/..." built from non-empty slash-free names are exactly those names. |
| ReadmeService.FetchRepoData | Backend/src/services/readmeService.js:37-53 | A fetched body is returned unchanged. A 404 rejection gives "Repository not found". Every other rejection, including one with no response, gives "Failed to fetch repository data". |
| ReadmeService.PromptFrame | Backend/src/services/readmeService.js:57-83 | The prompt starts with the role line and ends with the output instruction line. |
| ReadmeService.PromptNameLine | Backend/src/services/readmeService.js:61 | The prompt has the line "- Name: " followed by the repository name. |
| ReadmeService.PromptDescriptionLine | Backend/src/services/readmeService.js:62 | The description line shows the description when it is present and non-empty, and "No description provided" otherwise. |
| ReadmeService.PromptLanguageLine | Backend/src/services/readmeService.js:63 | The language line shows the language, or "Not specified". |
| ReadmeService.PromptStarsLine | Backend/src/services/readmeService.js:64 | The stars line shows the count in decimal, or "0" when it is missing. |
| ReadmeService.PromptForksLine | Backend/src/services/readmeService.js:65 | The forks line shows the count in decimal, or "0" when it is missing. |
| ReadmeService.PromptLicenseLine | Backend/src/services/readmeService.js:66 | The license line shows the license name, or "No license specified" when the license or its name is absent or empty. |
| ReadmeService.PromptHomepageLine | Backend/src/services/readmeService.js:67 | The homepage line shows the homepage, or "None". |
| ReadmeService.PromptTopicsLine | Backend/src/services/readmeService.js:68 | The topics line shows the topics joined with ", ", or "None" when they are missing or join to the empty string. |
| ReadmeService.PromptDatesLines | Backend/src/services/readmeService.js:69-70 | The creation time and the last-update time are copied verbatim into their lines. |
| ReadmeService.PromptToneLine | Backend/src/services/readmeService.js:73 | The tone appears verbatim in the line "- Write in a <tone> tone". |
| ReadmeService.GenerateWithGemini | Backend/src/services/readmeService.js:89-105 | The request goes to model gemini-2.5-flash. Success returns the generated text unchanged. Any failure becomes "Failed to generate README with AI". |
| ReadmeService.GenerateReadmeForRepo | Backend/src/services/readmeService.js:108-142 | The steps run in the order parse, fetch, prompt, generate. A resolution failure makes no call and is rethrown unchanged. A fetch failure stops before Gemini is called. The Gemini prompt is built from the fetched record and the tone, which defaults to "professional" only when it is undefined. At most two calls are made. |
| ReadmeService.SuccessfulRunAssembles | Backend/src/services/readmeService.js:124-138 | On success the markdown is Gemini's text. The owner and name come from the URL. The url is the record's html_url. The meta fields are copied from the record. |
| ReadmeService.GeminiPromptDescribesRepository | Backend/src/services/readmeService.js:114-120 | Whenever Gemini is asked, the record was fetched, and the prompt names the repository and the effective tone. |
| ReadmeService.BadgesIgnored | Backend/src/services/readmeService.js:108 | The includeBadges flag has no influence on the run. |
| ReadmeService.ResolvedRunFailures | Backend/src/services/readmeService.js:111-120 | Once the URL resolves, the first call goes to GitHub. The run can then fail only with "Repository not found", the generic fetch failure or the Gemini failure. |
| RepoRoute.AcceptedRepoUrlMeaning | Backend/src/routes/repo.js:15-16 | The body check passes exactly for a non-empty string repoUrl. |
| RepoRoute.ClassifyError | Backend/src/routes/repo.js:24-35 | A message containing "Repository not found" gives 404 with the message, ahead of every other test. A message without it that contains "API key is missing" or "Failed to generate README with AI" gives 500 "AI service configuration error". "rate limit" gives 403 "GitHub API rate limit exceeded", exactly under the conditions the earlier tests leave. Anything else gives 500 with the message, or "Internal Server Error" when the message is empty. |
| RepoRoute.HandleGenerate | Backend/src/routes/repo.js:11-37 | A body without an accepted repoUrl gives 400 "repoUrl is required and must be a string" and no service call. Otherwise the service runs with includeBadges coerced to a boolean. Its result is sent with status 200, and its error goes through the classifier. |
| RepoRoute.ServiceErrorReply | Backend/src/routes/repo.js:24-35 | Composed with the service's six messages: "Repository not found" gives 404; "Failed to generate README with AI" gives 500 "AI service configuration error"; the other four give 500 with their own text. |
| RepoRoute.NoRateLimitReply | Backend/src/routes/repo.js:32-34 | The route never answers 403. Every reply is 200, 400, 404 or 500, and it is 200 exactly when it carries a result. |
| RepoRoute.UrlErrorsAreServerErrors | Backend/src/routes/repo.js:24-35 | A non-empty URL the resolver rejects gives 500 with the resolver's message, not 400, and no external call is made. |
| AuthMiddleware.RequireGitHubToken | Backend/src/middlewares/AuthMiddleware.js:2-20 | Control passes on exactly when one of the four sources is truthy. The token stored is the first truthy one. Otherwise the reply is 401 "Missing GitHub access token". |
| AuthMiddleware.TokenPriority | Backend/src/middlewares/AuthMiddleware.js:4-8 | The order is header x-github-token, then body, then query, then session.user.github.token. Each source is used exactly when it is truthy and all earlier ones are falsy. |
| AuthMiddleware.FalsyTokensRejected | Backend/src/middlewares/AuthMiddleware.js:11-13 | Empty strings, null, false, 0 and missing objects in every source give 401. |
| App.IsValidGithubUrl | Frontend/src/App.jsx:13-20 | A URL the parser rejects is invalid. A valid URL has host github.com and at least two non-empty path segments. |
| App.ClientAgreesWithResolver | Frontend/src/App.jsx:13-20 | The client's check holds exactly when the backend resolver succeeds. |
| App.GenerateReadme | Frontend/src/App.jsx:24-46 | An invalid URL shows the hint and sends nothing. A valid one is posted to the backend with tone "professional" and includeBadges true. |
| App.HandleResponse | Frontend/src/App.jsx:48-57 | A 2xx status shows data.markdown. Any other status shows the text of data.error when it is truthy and "Failed to generate README" when it is not. The message shown is never empty. |
| App.ValidatedUrlsReachGitHub | Frontend/src/App.jsx:27-46 | A URL the client posts is never answered with 400, always reaches GitHub, and can only fail with "Repository not found", the AI configuration error or the generic fetch failure. This holds given that the parser rejects the empty string. |
| App.ClientShowsGeneratedText | Frontend/src/App.jsx:48-54 | End to end, a successful run shows Gemini's text exactly. |
| Languages.GetLanguageFromExt | Frontend/src/Dashboard.jsx:67-87 | The label is never empty. It is "unknown" exactly when the lower-cased extension is not one of the table's keys. |
| Languages.LanguageIgnoresCase | Frontend/src/Dashboard.jsx:86 | Extensions that differ only in letter case get the same label. |
| Languages.LabelsOfTable | Frontend/src/Dashboard.jsx:68-85 | "image" belongs to exactly png, jpg, jpeg, svg and ico. "text" belongs to exactly txt, gitignore and env. js, ts and md map to javascript, typescript and markdown, and the rest map to themselves. |
| Dashboard.MatchAtMeaning | Frontend/src/Dashboard.jsx:55 | The expression matches at an index exactly when "github.com/" is followed there by a non-empty '/'-free owner, a '/', and a non-empty '/'-free name. The owner and the name are maximal runs. |
| Dashboard.ParseGitHubUrl | Frontend/src/Dashboard.jsx:54-64 | The result is null exactly when the expression matches nowhere. Otherwise it comes from the leftmost match, with the first ".git" removed from the name. |
| Dashboard.AcceptsAnywhere | Frontend/src/Dashboard.jsx:55-56 | The match is unanchored, so any text before "github.com/owner/name" is accepted. |
| Dashboard.LeftmostMatch | Frontend/src/Dashboard.jsx:56-61 | A match with no match to its left is the one returned. |
| Dashboard.CanonicalUrlOnDashboard | Frontend/src/Dashboard.jsx:54-64 | "https://github.com/owner/name" gives the owner, and the name with its first ".git" removed. |
| Dashboard.CanonicalUrlOnBackend | Backend/src/services/readmeService.js:30-33 | The backend reads the same URL with only a trailing ".git" removed. |
| Dashboard.GitInsideNameDiffers | Frontend/src/Dashboard.jsx:60 | For "my.github.io" the Dashboard's rule gives "myhub.io", while the backend keeps "my.github.io". |
| Dashboard.NormalizeRepository | Frontend/src/Dashboard.jsx:96-106 | The defaults: description "", topics [], the license key or "MIT", default_branch or "main", which is therefore never empty. The owner is owner.login. The other fields are copied. |
| Dashboard.FetchRepositoryData | Frontend/src/Dashboard.jsx:90-107 | A response that is not ok gives "Failed to fetch repository data: " followed by the status text. Otherwise the body is normalised. |
| Dashboard.FetchRepositoryFiles | Frontend/src/Dashboard.jsx:110-145 | The recursive tree of the given branch is requested. A response that is not ok gives "Failed to fetch repository files: " followed by the status text. Otherwise the result is the nested tree of the listing. |
| Dashboard.ExpandedAreTopFolders | Frontend/src/Dashboard.jsx:235-237 | For a tree built from a listing in which no blob path is a proper prefix of another entry's path, the expanded paths are exactly the names of the top-level folders. |
| Dashboard.LoadRepository | Frontend/src/Dashboard.jsx:215-243 | An unparsable URL gives the format hint. A failed record fetch gives that fetch's message. A failed tree fetch of the record's default branch gives that fetch's message. When both fetches succeed the load succeeds. On success, the first-level folders are expanded and the success notice names the repository. |
| Dashboard.LoadRequestsDefaultBranch | Frontend/src/Dashboard.jsx:229-230 | A successful load requested the tree of the record's default_branch, or of "main" when that is missing or empty. The requested branch is never empty. The files shown are the tree built from that reply. |
| Dashboard.Toggle | Frontend/src/Dashboard.jsx:268-291 | The given path's membership flips, and every other element is unchanged. |
| Dashboard.ToggleTwice | Frontend/src/Dashboard.jsx:268-291 | Toggling the same path twice restores the set. |
| Dashboard.TogglesCommute | Frontend/src/Dashboard.jsx:268-291 | Toggles of two paths commute. |
| FileTree.FindByName | Frontend/src/Dashboard.jsx:124 | `find` gives the first sibling with the name, or nothing exactly when there is none. |
| FileTree.InsertKeepsWellFormed | Frontend/src/Dashboard.jsx:121-141 | Placing one entry keeps sibling names unique at every level. |
| FileTree.BuildTreeWellFormed | Frontend/src/Dashboard.jsx:117-144 | No two siblings in the built tree share a name. |
| FileTree.InsertKeepsFiles | Frontend/src/Dashboard.jsx:125-137 | Placing one entry creates files only for blobs, at their last part. |
| FileTree.BuildTreeFiles | Frontend/src/Dashboard.jsx:117-144 | Every file at any depth of the built tree stands for a blob entry with the same path. |
| FileTree.FilesComeFromBlobs | Frontend/src/Dashboard.jsx:126-136 | Every file node comes from a blob entry with its path. Its name is the last '/'-piece of that path, and its language is the label of the text after the name's last '.'. |
| FileTree.InsertKeepsPaths | Frontend/src/Dashboard.jsx:126-137 | Placing one entry keeps every node's path equal to the '/'-join of the names from the root down. |
| FileTree.BuildTreePaths | Frontend/src/Dashboard.jsx:117-144 | When no blob path is a proper prefix of another entry's path, every node's path is the '/'-join of the names from the root down to it. |
| FileTree.InsertKeepsHasPath | Frontend/src/Dashboard.jsx:123-140 | Placing one entry removes no node and changes no node's path. |
| FileTree.InsertPlacesPath | Frontend/src/Dashboard.jsx:121-141 | Placing an entry whose path has no blob as a proper prefix leaves a node whose path is the '/'-join of its parts. |
| FileTree.BuildTreeCovers | Frontend/src/Dashboard.jsx:117-144 | When no blob path is a proper prefix of another entry's path, every listed path is the path of a node at some depth of the tree. |
| FileTree.ListingEndsUpInTree | Frontend/src/Dashboard.jsx:117-144 | Under the same condition, every listed path is the path of a node in the flattened tree, so no entry is lost. |
| RepoAnalysis.TraverseIsFold | Frontend/src/Dashboard.jsx:158-170 | The depth-first walk visits the nodes in pre-order, each folder before its children. |
| RepoAnalysis.FoldStepsFacts | Frontend/src/Dashboard.jsx:159-169 | Over a list of nodes, the steps count the files and the folders, collect the non-empty languages, and record a tests folder or a README.md. |
| RepoAnalysis.AnalyzeRepository | Frontend/src/Dashboard.jsx:148-181 | totalFiles counts the files at every depth, and totalFiles plus totalFolders is the number of nodes. The languages are those of the files. hasTests holds exactly when some folder is "tests" or "__tests__", and hasDocumentation exactly when some file is "README.md". hasCICD is false. frameworks is {React} exactly when jsx or tsx was seen, and empty otherwise. |
| Scenarios.DoubleSlashesResolve | Backend/src/services/readmeService.js:25-33 | The path "//owner//name" resolves to owner/name. |
| Scenarios.DoubleGitStripsOnce | Backend/src/services/readmeService.js:31 | "name.git.git" resolves to "name.git". |
| Scenarios.BranchPageResolves | Backend/src/services/readmeService.js:25-33 | "/foo/bar/tree/main" resolves to foo/bar. |
| Scenarios.PagesRepositoryOnDashboard | Frontend/src/Dashboard.jsx:54-64 | "https://github.com/foo/my.github.io" gives the repository "myhub.io" on the Dashboard. |
| Scenarios.EmptyHeaderTokenSkipped | Backend/src/middlewares/AuthMiddleware.js:4-8 | An empty header token gives way to the body's token. |
| Scenarios.BlobPrefixFlattens | Frontend/src/Dashboard.jsx:123-140 | A blob "a" listed before "a/b" stays a file, and "b" is placed beside it with path "a/b". So the path property needs its precondition. |

## Left out

- Network I/O. The axios and fetch calls to GitHub, the backend calls of the client and the Gemini `generateContent` call are oracles passed in as parameters. The request headers are recorded but not interpreted. A fetch that fails without any HTTP response on the Dashboard or in the client (a rejected promise, or invalid JSON) is not modelled.
- The URL parser (`new URL`, section 4.4 of the WHATWG URL Standard). It is the parameter `Url.Parser`, and host normalisation is not re-derived. `App.ValidatedUrlsReachGitHub` assumes only that it rejects the empty string.
- The API-key check at module load (readmeService.js:6-8, and the same check at 91-93). It stops the process at startup rather than failing one request. The route's "API key is missing" test is still modelled.
- The `localeCompare` sort of the tree listing (Dashboard.jsx:119). Its order depends on the locale, so the tree builder takes the entries in the order given. The tree properties proved hold for every order.
- `generateReadmeWithGemini` in Dashboard.jsx (184-212). It is a network wrapper whose local analysis is computed and then not used.
- `renderMarkdownPreview`, `getFileIcon`, React state, rendering, the clipboard, downloads and timers. This is UI work.
- The Firebase configuration and the `verifyFirebase` middleware. They are SDK and environment I/O.
- The server bootstrap (CORS, mounting, ports) and all console logging.
- Languages.GetLanguageFromExt: `toLowerCase` is modelled for ASCII letters only. An extension equal to an inherited object key such as "constructor" would yield a function in JavaScript; that case is not modelled.
- Strings.IntToDecimal: counts render in plain decimal. JavaScript switches to exponent notation from 10^21 on, and such counts are not modelled.
- Js.TemplateText: arrays and objects that reach a template literal render as a fixed placeholder. Their `toString` is not modelled.
- App.HandleResponse: an error value that is truthy but renders as "" (an empty array) cannot occur, since arrays are not modelled. So the retry hint "Failed to generate README. Please try again." is kept in the model but is never shown.
- ReadmeService.EffectiveTone: `Js.JsValue.Num` holds integers only. A non-integer tone such as 1.5, which JavaScript renders as "- Write in a 1.5 tone", cannot be represented.
- The Dashboard's extension table has 16 keys in the code. The table here follows the code.
