/**
  What the code reads from GitHub's repository endpoint, shared by the
  backend service and the dashboard.
 */
module GitHubApi {
  import opened Base

  /** An (owner, repository name) pair taken from a repository URL. */
  datatype RepoRef = RepoRef(owner: string, repo: string)

  /** The `license` object of a repository. */
  datatype LicenseJson = LicenseJson(key: string, name: Option<string>)

  /** The fields of a `GET /repos/{owner}/{repo}` response that the code reads.
      `None` stands for a JSON `null` or a missing field. */
  datatype RepoJson = RepoJson(
    name: string,
    ownerLogin: string,
    description: Option<string>,
    language: Option<string>,
    stargazersCount: Option<int>,
    forksCount: Option<int>,
    license: Option<LicenseJson>,
    homepage: Option<string>,
    topics: Option<seq<string>>,
    createdAt: string,
    updatedAt: string,
    htmlUrl: string,
    isPrivate: bool,
    defaultBranch: Option<string>)

  const ReposEndpoint := "https://api.github.com/repos/"

  /** The repository endpoint, built by plain interpolation (no escaping). */
  function RepoUrl(owner: string, repo: string): string
  {
    ReposEndpoint + owner + "/" + repo
  }
}
