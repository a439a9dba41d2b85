/** What the package manager reads from the network, as oracles: raw
    downloads (axios GET with an arraybuffer response) and the two GitHub
    API calls of GitHubService (src/services/githubService.ts). Every call
    is appended to a request log, so that the model can say which sources
    were tried and in what order. Record shapes follow src/types/index.ts,
    keeping only the fields the core reads. */
module Remote {
  import opened Wrappers
  import opened FileSystem

  type Url = string

  /** GithubAsset: a file attached to a release. */
  datatype Asset = Asset(name: string, browserDownloadUrl: Url)

  /** GithubRelease. */
  datatype Release = Release(assets: seq<Asset>)

  /** GithubContent: one entry of a repository directory listing. */
  datatype Content = Content(name: string, downloadUrl: Url)

  function ReleaseUrl(owner: string, repo: string): Url {
    "https://api.github.com/repos/" + owner + "/" + repo + "/releases/latest"
  }

  function ContentsUrl(owner: string, repo: string): Url {
    "https://api.github.com/repos/" + owner + "/" + repo + "/contents/"
  }

  class Web {
    /** What a GET of each URL yields: the body, or the error's message. */
    const fetch: Url -> Result<Bytes>
    /** What the latest-release endpoint yields, per request URL. */
    const releases: Url -> Result<Release>
    /** What the contents endpoint yields, per request URL. */
    const listings: Url -> Result<seq<Content>>
    /** Every URL requested so far, in order. */
    var requests: seq<Url>

    constructor (fetch: Url -> Result<Bytes>, releases: Url -> Result<Release>,
                 listings: Url -> Result<seq<Content>>)
      ensures this.fetch == fetch && this.releases == releases && this.listings == listings
      ensures requests == []
    {
      this.fetch, this.releases, this.listings := fetch, releases, listings;
      requests := [];
    }

    /** `axios.get(url, {responseType: 'arraybuffer'})` and
        `GitHubService.downloadFile`. */
    method Get(url: Url) returns (r: Result<Bytes>)
      modifies this
      ensures r == fetch(url) && requests == old(requests) + [url]
    {
      r := fetch(url);
      requests := requests + [url];
    }

    /** `GitHubService.getLatestRelease`. */
    method GetLatestRelease(owner: string, repo: string) returns (r: Result<Release>)
      modifies this
      ensures r == releases(ReleaseUrl(owner, repo))
      ensures requests == old(requests) + [ReleaseUrl(owner, repo)]
    {
      r := releases(ReleaseUrl(owner, repo));
      requests := requests + [ReleaseUrl(owner, repo)];
    }

    /** `GitHubService.getRepositoryContent` at the repository root. */
    method GetRepositoryContent(owner: string, repo: string) returns (r: Result<seq<Content>>)
      modifies this
      ensures r == listings(ContentsUrl(owner, repo))
      ensures requests == old(requests) + [ContentsUrl(owner, repo)]
    {
      r := listings(ContentsUrl(owner, repo));
      requests := requests + [ContentsUrl(owner, repo)];
    }
  }
}
