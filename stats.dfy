/**
 * The stats card: what `fetchGitHubStats` derives from the user and repository
 * replies, and the structural decisions of `renderStatsCard` (theme, options,
 * card height, border, rows).
 *
 * The two HTTP requests are not modelled: their replies arrive as values.
 */
module Stats {
  import opened Wrappers
  import Text

  // ---------------------------------------------------------------------------
  // Replies and results
  // ---------------------------------------------------------------------------

  /** A repository of the `/repos` listing; both fields may be missing. */
  datatype Repo = Repo(stargazersCount: Option<nat>, fork: Option<bool>)

  /** The parsed body of the `/repos` reply: an array, or some other JSON value. */
  datatype ReposPayload = RepoArray(repos: seq<Repo>) | NotAnArray

  /** The `/users/<name>` reply: a non-ok status, or the user's `public_repos`. */
  datatype UserReply = UserNotOk(status: nat) | UserOk(publicRepos: nat)

  /** The `/users/<name>/repos` reply. */
  datatype ReposReply = ReposNotOk | ReposOk(payload: ReposPayload)

  datatype GitHubStats = GitHubStats(totalStars: nat, totalCommits: nat, totalPRs: nat, totalIssues: nat, contributedTo: nat)

  /** The errors `fetchGitHubStats` throws. */
  datatype StatsError = UserNotFound | ApiError(status: nat)
  {
    function Message(): string {
      match this
      case UserNotFound => "User not found"
      case ApiError(status) => "GitHub API error: " + Text.Decimal(status)
    }
  }

  // ---------------------------------------------------------------------------
  // Star sum
  // ---------------------------------------------------------------------------

  /** `repo.stargazers_count || 0`. */
  function StarsOf(repo: Repo): nat {
    match repo.stargazersCount
    case Some(n) => n
    case None => 0
  }

  /** `repos.reduce((acc, repo) => acc + (repo.stargazers_count || 0), acc)`: a left fold. */
  function FoldStars(acc: nat, repos: seq<Repo>): nat
    decreases |repos|
  {
    if repos == [] then acc else FoldStars(acc + StarsOf(repos[0]), repos[1..])
  }

  /** `totalStars`: the reduce starting from 0, which is the sum of the star counts. */
  function TotalStars(repos: seq<Repo>): (stars: nat)
    ensures stars == SumStars(repos)
  {
    FoldStarsIsSum(0, repos);
    FoldStars(0, repos)
  }

  /** The sum of the star counts, stated as a plain recursion over the list. */
  function SumStars(repos: seq<Repo>): nat
    decreases |repos|
  {
    if repos == [] then 0 else StarsOf(repos[0]) + SumStars(repos[1..])
  }

  lemma {:induction false} FoldStarsIsSum(acc: nat, repos: seq<Repo>)
    ensures FoldStars(acc, repos) == acc + SumStars(repos)
    decreases |repos|
  {
    if repos != [] {
      FoldStarsIsSum(acc + StarsOf(repos[0]), repos[1..]);
    }
  }

  lemma {:induction false} SumStarsAppend(a: seq<Repo>, b: seq<Repo>)
    ensures SumStars(a + b) == SumStars(a) + SumStars(b)
    decreases |a|
  {
    if a != [] {
      assert (a + b)[0] == a[0] && (a + b)[1..] == a[1..] + b;
      SumStarsAppend(a[1..], b);
    } else {
      assert a + b == b;
    }
  }

  /**
   * The reduce is the sum of the star counts, a missing count adding nothing:
   * it adds up over concatenation, a single repository contributes its own
   * count, and the empty list sums to 0.
   */
  lemma TotalStarsIsSum(a: seq<Repo>, b: seq<Repo>, repo: Repo)
    ensures TotalStars(a + b) == TotalStars(a) + TotalStars(b)
    ensures TotalStars([repo]) == (if repo.stargazersCount.Some? then repo.stargazersCount.value else 0)
    ensures TotalStars([]) == 0
  {
    FoldStarsIsSum(0, a + b);
    FoldStarsIsSum(0, a);
    FoldStarsIsSum(0, b);
    SumStarsAppend(a, b);
    assert [repo][1..] == [];
    assert FoldStars(0, [repo]) == FoldStars(StarsOf(repo), []);
  }

  // ---------------------------------------------------------------------------
  // Fork count
  // ---------------------------------------------------------------------------

  /** `!!r.fork`: only a present `true` is truthy. */
  predicate IsFork(repo: Repo) {
    repo.fork == Some(true)
  }

  /** `repos.filter(r => !!r.fork)`. */
  function Forks(repos: seq<Repo>): (r: seq<Repo>)
    ensures |r| <= |repos|
    ensures forall k :: 0 <= k < |r| ==> IsFork(r[k]) && r[k] in repos
    decreases |repos|
  {
    if repos == [] then []
    else if IsFork(repos[0]) then [repos[0]] + Forks(repos[1..])
    else Forks(repos[1..])
  }

  /** The filter keeps every fork, as often as the list holds it, and nothing else. */
  lemma {:induction false} ForksKeepsEveryFork(repos: seq<Repo>)
    ensures forall repo :: multiset(Forks(repos))[repo] == if IsFork(repo) then multiset(repos)[repo] else 0
    decreases |repos|
  {
    if repos != [] {
      ForksKeepsEveryFork(repos[1..]);
      assert repos == [repos[0]] + repos[1..];
    }
  }

  /** `contributedTo`: the length of the filtered list. */
  function ForkCount(repos: seq<Repo>): (n: nat)
    ensures n <= |repos|
  {
    |Forks(repos)|
  }

  /** No repository is a fork exactly when the count is 0; all are exactly when it is the list's length. */
  lemma {:induction false} ForkCountExtremes(repos: seq<Repo>)
    ensures ForkCount(repos) == 0 <==> forall k :: 0 <= k < |repos| ==> !IsFork(repos[k])
    ensures ForkCount(repos) == |repos| <==> forall k :: 0 <= k < |repos| ==> IsFork(repos[k])
    decreases |repos|
  {
    if repos != [] {
      ForkCountExtremes(repos[1..]);
      assert forall k :: 1 <= k < |repos| ==> repos[k] == repos[1..][k - 1];
    }
  }

  /** The count adds up over concatenation. */
  lemma {:induction false} ForkCountAppend(a: seq<Repo>, b: seq<Repo>)
    ensures ForkCount(a + b) == ForkCount(a) + ForkCount(b)
    decreases |a|
  {
    if a != [] {
      assert (a + b)[0] == a[0] && (a + b)[1..] == a[1..] + b;
      ForkCountAppend(a[1..], b);
    } else {
      assert a + b == b;
    }
  }

  // ---------------------------------------------------------------------------
  // The fetch, after the replies arrived
  // ---------------------------------------------------------------------------

  /** `Array.isArray(reposData) ? reposData : []` for an ok reply, nothing for a failed one. */
  function ListedRepos(reply: ReposReply): (repos: seq<Repo>)
    ensures reply.ReposOk? && reply.payload.RepoArray? ==> repos == reply.payload.repos
    ensures !(reply.ReposOk? && reply.payload.RepoArray?) ==> repos == []
  {
    match reply
    case ReposNotOk => []
    case ReposOk(RepoArray(repos)) => repos
    case ReposOk(NotAnArray) => []
  }

  /** `Math.floor(n * 0.8)`, computed exactly. */
  function TotalPRs(publicRepos: nat): (prs: nat)
    ensures 5 * prs <= 4 * publicRepos < 5 * prs + 5
  {
    publicRepos * 8 / 10
  }

  /** `Math.floor(n * 0.5)`, computed exactly. */
  function TotalIssues(publicRepos: nat): (issues: nat)
    ensures 2 * issues <= publicRepos < 2 * issues + 2
  {
    publicRepos * 5 / 10
  }

  /** `fetchGitHubStats(username, token)` once both replies have arrived. */
  function FetchGitHubStats(user: UserReply, repos: ReposReply): (r: Result<GitHubStats, StatsError>)
    ensures user.UserNotOk? ==> r.Failure?
    ensures user.UserNotOk? && user.status == 404 ==> r.error.Message() == "User not found"
    ensures user.UserNotOk? && user.status != 404 ==> r.error.Message() == "GitHub API error: " + Text.Decimal(user.status)
    ensures user.UserOk? ==> r.Success?
    ensures r.Success? ==>
              && r.value.totalCommits == 15 * user.publicRepos
              && r.value.totalPRs == TotalPRs(user.publicRepos)
              && r.value.totalIssues == TotalIssues(user.publicRepos)
              && r.value.totalStars == SumStars(ListedRepos(repos))
              && r.value.contributedTo == ForkCount(ListedRepos(repos))
              && r.value.contributedTo <= |ListedRepos(repos)|
    ensures r.Success? && (repos.ReposNotOk? || repos.payload.NotAnArray?) ==>
              r.value.totalStars == 0 && r.value.contributedTo == 0
  {
    match user
    case UserNotOk(status) =>
      if status == 404 then Failure(UserNotFound) else Failure(ApiError(status))
    case UserOk(publicRepos) =>
      var listed := ListedRepos(repos);
      FoldStarsIsSum(0, listed);
      Success(GitHubStats(
        totalStars := TotalStars(listed),
        totalCommits := publicRepos * 15,
        totalPRs := TotalPRs(publicRepos),
        totalIssues := TotalIssues(publicRepos),
        contributedTo := ForkCount(listed)))
  }

  // ---------------------------------------------------------------------------
  // The card's structure
  // ---------------------------------------------------------------------------

  /** The options argument; every field may be left out, and so may the whole argument. */
  datatype CardOptions = CardOptions(theme: Option<string>, hideTitle: Option<bool>, hideBorder: Option<bool>)

  /** `options = {}`. */
  const NoOptions: CardOptions := CardOptions(None, None, None)

  datatype Palette = Palette(bg: string, border: string, title: string, text: string, icon: string)

  /** The card's theme table. */
  const Themes: map<string, Palette> := map[
    "dark" := Palette("#0d1117", "#30363d", "#58a6ff", "#c9d1d9", "#58a6ff"),
    "light" := Palette("#ffffff", "#d0d7de", "#0969da", "#24292f", "#0969da"),
    "radical" := Palette("#141321", "#a882ff", "#fe428e", "#a9fef7", "#f8d847"),
    "merko" := Palette("#0a0f0d", "#4c8f2f", "#abd200", "#68b587", "#abd200")
  ]

  /** `themes[theme] || themes.dark`: a known name picks its palette, any other name the dark one. */
  function ThemeFor(name: string): (p: Palette)
    ensures p in Themes.Values
    ensures p == Themes["dark"] <==> name == "dark" || name !in Themes
    ensures name in Themes ==> p == Themes[name]
  {
    if name in Themes then Themes[name] else Themes["dark"]
  }

  /** One row of the card: its label (`name`), its number, and whether a bottom border separates it from the next. */
  datatype StatRow = StatRow(name: string, value: nat, bottomBorder: bool)

  /** What the rendered card is made of, short of its markup. */
  datatype StatsCard = StatsCard(height: nat, palette: Palette, borderStyle: string, title: Option<string>, rows: seq<StatRow>)

  const RowLabels: seq<string> := ["Total Stars", "Total Commits", "Total PRs", "Total Issues", "Contributed to"]

  /** The numbers of the five rows, in the card's order. */
  function RowValues(stats: GitHubStats): seq<nat> {
    [stats.totalStars, stats.totalCommits, stats.totalPRs, stats.totalIssues, stats.contributedTo]
  }

  /** `renderStatsCard(username, stats, options)`, up to its markup. */
  function RenderStatsCard(username: string, stats: GitHubStats, options: CardOptions): (card: StatsCard)
    ensures var hideTitle := options.hideTitle == Some(true);
            && (card.height == 300 <==> hideTitle)
            && (card.height == 350 <==> !hideTitle)
            && (card.title.Some? <==> !hideTitle)
            && (card.title.Some? ==> card.title.value == username + "'s GitHub Stats")
    ensures card.borderStyle == "none" <==> options.hideBorder == Some(true)
    ensures options.hideBorder != Some(true) ==> card.borderStyle == "1px solid " + card.palette.border
    ensures options.theme.None? ==> card.palette == Themes["dark"]
    ensures options.theme.Some? ==> card.palette == ThemeFor(options.theme.value)
    ensures |card.rows| == 5
    ensures forall i :: 0 <= i < 5 ==>
              && card.rows[i].name == RowLabels[i]
              && card.rows[i].value == RowValues(stats)[i]
              && (card.rows[i].bottomBorder <==> i < 4)
  {
    var theme := match options.theme case Some(t) => t case None => "dark";
    var hideTitle := match options.hideTitle case Some(b) => b case None => false;
    var hideBorder := match options.hideBorder case Some(b) => b case None => false;
    var palette := ThemeFor(theme);
    var borderStyle := if hideBorder then "none" else "1px solid " + palette.border;
    assert borderStyle != "none" <== !hideBorder by {
      if !hideBorder { assert borderStyle[0] == '1'; }
    }
    var values := RowValues(stats);
    var rows := seq(5, i requires 0 <= i < 5 => StatRow(RowLabels[i], values[i], i < 5 - 1));
    StatsCard(if hideTitle then 300 else 350, palette, borderStyle,
              if hideTitle then None else Some(username + "'s GitHub Stats"), rows)
  }

  /** With no options the card is dark, titled, 350 high and bordered. */
  lemma DefaultCard(username: string, stats: GitHubStats)
    ensures var card := RenderStatsCard(username, stats, NoOptions);
            && card.palette == Themes["dark"]
            && card.height == 350
            && card.title == Some(username + "'s GitHub Stats")
            && card.borderStyle == "1px solid #30363d"
  {
  }
}
