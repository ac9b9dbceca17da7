/**
 * The language card: the per-language byte totals `fetchLanguageStats` adds up
 * from the GraphQL reply (registering colours of newly seen languages in the
 * shared colour table), the top-6 selection of `prepareLanguageData`, and the
 * greedy line packing of `renderCloudLayout`.
 *
 * The HTTP round trip is not modelled: the reply arrives as a value. The
 * module-level colour table is the field of a `LanguageColors` object.
 */
module TopLangs {
  import opened Wrappers
  import Text

  // ---------------------------------------------------------------------------
  // The shape of the GraphQL reply
  // ---------------------------------------------------------------------------

  /** A language node; `color` may be missing (null) or empty. */
  datatype LanguageNode = LanguageNode(color: Option<string>, name: string)

  /** An edge of `languages.edges`: the bytes of one language in one repository. */
  datatype LanguageEdge = LanguageEdge(size: nat, node: LanguageNode)

  datatype LanguageConnection = LanguageConnection(edges: Option<seq<LanguageEdge>>)
  datatype RepoNode = RepoNode(name: string, languages: Option<LanguageConnection>)
  datatype RepoConnection = RepoConnection(nodes: Option<seq<RepoNode>>)
  datatype LangsUser = LangsUser(repositories: Option<RepoConnection>)
  datatype LangsData = LangsData(user: Option<LangsUser>)

  /** A GraphQL error; an empty `message` stands for a missing or empty one (both are falsy). */
  datatype GraphQLError = GraphQLError(message: string, errorType: Option<string>)

  datatype LangsResponse = LangsResponse(data: Option<LangsData>, errors: Option<seq<GraphQLError>>)

  /** The HTTP reply: a non-ok status, or an ok status with the parsed JSON. */
  datatype HttpReply = NotOk(status: nat) | Ok(result: LangsResponse)

  /** The errors `fetchLanguageStats` throws. */
  datatype FetchError =
    | ApiError(status: nat)
    | UserNotFound(login: string)
    | QueryFailed(message: string)
    | ReadOfUndefined
  {
    function Message(): string {
      match this
      case ApiError(status) => "GitHub API error: " + Text.Decimal(status)
      case UserNotFound(login) => "User '" + login + "' not found"
      case QueryFailed(message) => message
      case ReadOfUndefined => "Cannot read properties of undefined (reading 'type')"
    }
  }

  const FallbackMessage: string := "Error fetching from GitHub GraphQL API"

  // ---------------------------------------------------------------------------
  // Classification of GraphQL errors
  // ---------------------------------------------------------------------------

  /**
   * `if (result.errors) { const error = result.errors[0]; ... }` as written: an
   * empty list is truthy, so the first element read is `undefined` and reading
   * its `type` throws a TypeError.
   */
  function QueryErrorAsWritten(username: string, errors: Option<seq<GraphQLError>>): (e: Option<FetchError>)
    ensures e.None? <==> errors.None?
  {
    match errors
    case None => None
    case Some(list) =>
      if list == [] then Some(ReadOfUndefined)
      else if list[0].errorType == Some("NOT_FOUND") then Some(UserNotFound(username))
      else Some(QueryFailed(if list[0].message != "" then list[0].message else FallbackMessage))
  }

  /** The classification with the guard `errors.length > 0` that the contribution fetch uses. */
  function QueryErrorOf(username: string, errors: Option<seq<GraphQLError>>): (e: Option<FetchError>)
    ensures e.None? <==> errors.None? || errors.value == []
    ensures e.Some? ==> !e.value.ReadOfUndefined?
    ensures e.Some? && errors.value[0].errorType == Some("NOT_FOUND") ==>
              e.value.Message() == "User '" + username + "' not found"
    ensures e.Some? && errors.value[0].errorType != Some("NOT_FOUND") ==>
              e.value.Message() == if errors.value[0].message != "" then errors.value[0].message else FallbackMessage
    ensures errors.Some? && errors.value != [] ==> e == QueryErrorAsWritten(username, errors)
  {
    match errors
    case None => None
    case Some(list) =>
      if list == [] then None
      else if list[0].errorType == Some("NOT_FOUND") then Some(UserNotFound(username))
      else Some(QueryFailed(if list[0].message != "" then list[0].message else FallbackMessage))
  }

  /** An ok reply whose `errors` is an empty list throws as written, and goes on to the data once guarded. */
  lemma EmptyErrorListThrows(username: string)
    ensures QueryErrorAsWritten(username, Some([])) == Some(ReadOfUndefined)
    ensures QueryErrorOf(username, Some([])) == None
  {
  }

  // ---------------------------------------------------------------------------
  // Edges, totals, first-seen order
  // ---------------------------------------------------------------------------

  /** `result.data?.user?.repositories?.nodes`, with a missing list read as empty (both yield `{}`). */
  function RepoNodes(result: LangsResponse): (repos: seq<RepoNode>)
    ensures var complete :=
              && result.data.Some?
              && result.data.value.user.Some?
              && result.data.value.user.value.repositories.Some?
              && result.data.value.user.value.repositories.value.nodes.Some?;
            && (complete ==> repos == result.data.value.user.value.repositories.value.nodes.value)
            && (!complete ==> repos == [])
  {
    match result.data
    case None => []
    case Some(data) =>
      match data.user
      case None => []
      case Some(user) =>
        match user.repositories
        case None => []
        case Some(repositories) =>
          match repositories.nodes
          case None => []
          case Some(nodes) => nodes
  }

  /** `repo.languages?.edges`, with a missing list read as empty (the repository is skipped). */
  function RepoEdges(repo: RepoNode): (edges: seq<LanguageEdge>)
    ensures repo.languages.Some? && repo.languages.value.edges.Some? ==> edges == repo.languages.value.edges.value
    ensures repo.languages.None? || repo.languages.value.edges.None? ==> edges == []
  {
    match repo.languages
    case None => []
    case Some(connection) =>
      match connection.edges
      case None => []
      case Some(edges) => edges
  }

  /** The edges of all repositories, in the order the loops visit them. */
  function AllEdges(repos: seq<RepoNode>): seq<LanguageEdge>
    decreases |repos|
  {
    if repos == [] then [] else AllEdges(repos[..|repos| - 1]) + RepoEdges(repos[|repos| - 1])
  }

  /** The sum of `size` over the edges naming `lang`. */
  function BytesFor(edges: seq<LanguageEdge>, lang: string): nat
    decreases |edges|
  {
    if edges == [] then 0
    else
      var last := edges[|edges| - 1];
      BytesFor(edges[..|edges| - 1], lang) + (if last.node.name == lang then last.size else 0)
  }

  /** The languages the edges name. */
  function Names(edges: seq<LanguageEdge>): set<string>
    decreases |edges|
  {
    if edges == [] then {} else Names(edges[..|edges| - 1]) + {edges[|edges| - 1].node.name}
  }

  ghost predicate Distinct(s: seq<string>) {
    forall i, j :: 0 <= i < j < |s| ==> s[i] != s[j]
  }

  /** The languages the edges name, each once, in the order of their first edge. */
  function FirstSeen(edges: seq<LanguageEdge>): seq<string>
    decreases |edges|
  {
    if edges == [] then []
    else
      var earlier := FirstSeen(edges[..|edges| - 1]);
      var lang := edges[|edges| - 1].node.name;
      if lang in earlier then earlier else earlier + [lang]
  }

  /** The first-seen order lists every language the edges name, and each once. */
  lemma {:induction false} FirstSeenNames(edges: seq<LanguageEdge>)
    ensures Distinct(FirstSeen(edges))
    ensures forall lang :: lang in FirstSeen(edges) <==> lang in Names(edges)
    decreases |edges|
  {
    if edges != [] {
      FirstSeenNames(edges[..|edges| - 1]);
    }
  }

  lemma {:induction false} NamesAt(edges: seq<LanguageEdge>, j: nat)
    requires j < |edges|
    ensures edges[j].node.name in Names(edges)
    decreases |edges|
  {
    if j < |edges| - 1 {
      NamesAt(edges[..|edges| - 1], j);
    }
  }

  lemma {:induction false} NotInNames(edges: seq<LanguageEdge>, lang: string)
    requires forall j :: 0 <= j < |edges| ==> edges[j].node.name != lang
    ensures lang !in Names(edges)
    decreases |edges|
  {
    if edges != [] {
      NotInNames(edges[..|edges| - 1], lang);
    }
  }

  /** A language no edge names has no bytes. */
  lemma {:induction false} BytesForAbsent(edges: seq<LanguageEdge>, lang: string)
    requires lang !in Names(edges)
    ensures BytesFor(edges, lang) == 0
    decreases |edges|
  {
    if edges != [] {
      BytesForAbsent(edges[..|edges| - 1], lang);
    }
  }

  /** The totals add up over concatenation: bytes from separate repositories are summed. */
  lemma {:induction false} BytesForAppend(a: seq<LanguageEdge>, b: seq<LanguageEdge>, lang: string)
    ensures BytesFor(a + b, lang) == BytesFor(a, lang) + BytesFor(b, lang)
    decreases |b|
  {
    if b == [] {
      assert a + b == a;
    } else {
      assert (a + b)[..|a + b| - 1] == a + b[..|b| - 1];
      BytesForAppend(a, b[..|b| - 1], lang);
    }
  }

  // ---------------------------------------------------------------------------
  // Colour registration
  // ---------------------------------------------------------------------------

  const DefaultColor: string := "#858585"

  /** The colour table before any registration (`LANGUAGE_COLORS`). */
  const InitialLanguageColors: map<string, string> := map[
    "JavaScript" := "#f1e05a", "TypeScript" := "#3178c6", "Python" := "#3572A5", "Java" := "#b07219",
    "Go" := "#00ADD8", "Rust" := "#dea584", "C" := "#555555", "C++" := "#f34b7d", "C#" := "#178600",
    "PHP" := "#4F5D95", "Ruby" := "#701516", "Swift" := "#F05138", "Kotlin" := "#A97BFF", "Dart" := "#00B4AB",
    "HTML" := "#e34c26", "CSS" := "#563d7c", "Vue" := "#41b883", "Shell" := "#89e051", "Objective-C" := "#438eff",
    "Scala" := "#c22d40"
  ]

  /** `LANGUAGE_COLORS[lang]` is truthy: present and non-empty. */
  predicate HasColor(colors: map<string, string>, lang: string) {
    lang in colors && colors[lang] != ""
  }

  /** `edge.node.color || '#858585'`. */
  function EdgeColor(edge: LanguageEdge): (c: string)
    ensures c != ""
    ensures edge.node.color.Some? && edge.node.color.value != "" ==> c == edge.node.color.value
    ensures edge.node.color.None? || edge.node.color.value == "" ==> c == DefaultColor
  {
    match edge.node.color
    case Some(c) => if c != "" then c else DefaultColor
    case None => DefaultColor
  }

  /** The table after one edge: a language without a colour gets its edge's colour. */
  function Register(colors: map<string, string>, edge: LanguageEdge): map<string, string> {
    if HasColor(colors, edge.node.name) then colors else colors[edge.node.name := EdgeColor(edge)]
  }

  /** The table after all edges, in order. */
  function RegisterAll(colors: map<string, string>, edges: seq<LanguageEdge>): map<string, string>
    decreases |edges|
  {
    if edges == [] then colors else Register(RegisterAll(colors, edges[..|edges| - 1]), edges[|edges| - 1])
  }

  /** A colour already in the table is never overwritten. */
  lemma {:induction false} RegisterKeepsColors(colors: map<string, string>, edges: seq<LanguageEdge>, lang: string)
    requires HasColor(colors, lang)
    ensures HasColor(RegisterAll(colors, edges), lang)
    ensures RegisterAll(colors, edges)[lang] == colors[lang]
    decreases |edges|
  {
    if edges != [] {
      RegisterKeepsColors(colors, edges[..|edges| - 1], lang);
    }
  }

  /** Languages no edge names keep their entry, or their absence. */
  lemma {:induction false} RegisterLeavesOthers(colors: map<string, string>, edges: seq<LanguageEdge>, lang: string)
    requires lang !in Names(edges)
    ensures lang in RegisterAll(colors, edges) <==> lang in colors
    ensures lang in colors ==> RegisterAll(colors, edges)[lang] == colors[lang]
    decreases |edges|
  {
    if edges != [] {
      RegisterLeavesOthers(colors, edges[..|edges| - 1], lang);
    }
  }

  /** A language without a colour gets the colour of the first edge naming it, or the default. */
  lemma {:induction false} RegisterFirstSeen(colors: map<string, string>, edges: seq<LanguageEdge>, i: nat)
    requires i < |edges|
    requires !HasColor(colors, edges[i].node.name)
    requires forall j :: 0 <= j < i ==> edges[j].node.name != edges[i].node.name
    ensures HasColor(RegisterAll(colors, edges), edges[i].node.name)
    ensures RegisterAll(colors, edges)[edges[i].node.name] == EdgeColor(edges[i])
    decreases |edges|
  {
    var lang := edges[i].node.name;
    var earlier := edges[..|edges| - 1];
    if i == |edges| - 1 {
      NotInNames(earlier, lang);
      RegisterLeavesOthers(colors, earlier, lang);
    } else {
      RegisterFirstSeen(colors, earlier, i);
    }
  }

  // ---------------------------------------------------------------------------
  // The aggregation
  // ---------------------------------------------------------------------------

  /**
   * The `languageStats` object: its keys in insertion order (the order
   * `Object.entries` and `Object.values` list them in) and its values.
   */
  datatype LanguageStats = LanguageStats(order: seq<string>, bytes: map<string, nat>)

  ghost predicate WellFormed(stats: LanguageStats) {
    && Distinct(stats.order)
    && (forall k :: 0 <= k < |stats.order| ==> stats.order[k] in stats.bytes)
    && (forall lang :: lang in stats.bytes ==> lang in stats.order)
  }

  /** `order` and `bytes` are the `languageStats` object once the loops have visited `edges`. */
  ghost predicate Tallied(order: seq<string>, bytes: map<string, nat>, edges: seq<LanguageEdge>) {
    && order == FirstSeen(edges)
    && bytes.Keys == Names(edges)
    && (forall lang :: lang in bytes ==> bytes[lang] == BytesFor(edges, lang))
  }

  /** `languageStats[lang] = (languageStats[lang] || 0) + edge.size` visits one more edge. */
  lemma TallyStep(order: seq<string>, bytes: map<string, nat>, edges: seq<LanguageEdge>, edge: LanguageEdge)
    requires Tallied(order, bytes, edges)
    ensures var lang := edge.node.name;
            Tallied(if lang in bytes then order else order + [lang],
                    bytes[lang := (if lang in bytes then bytes[lang] else 0) + edge.size],
                    edges + [edge])
  {
    var longer := edges + [edge];
    assert longer[..|longer| - 1] == edges && longer[|longer| - 1] == edge;
    var lang := edge.node.name;
    FirstSeenNames(edges);
    assert lang in bytes <==> lang in FirstSeen(edges);
    var after := bytes[lang := (if lang in bytes then bytes[lang] else 0) + edge.size];
    forall other | other in after
      ensures after[other] == BytesFor(longer, other)
    {
      assert BytesFor(longer, other) == BytesFor(edges, other) + (if lang == other then edge.size else 0);
      if other != lang {
        assert other in bytes;
      } else if lang !in bytes {
        BytesForAbsent(edges, lang);
      }
    }
  }

  /** The colour registration visits one more edge. */
  lemma RegisterStep(initial: map<string, string>, colors: map<string, string>, edges: seq<LanguageEdge>, edge: LanguageEdge)
    requires colors == RegisterAll(initial, edges)
    ensures RegisterAll(initial, edges + [edge]) ==
              if HasColor(colors, edge.node.name) then colors else colors[edge.node.name := EdgeColor(edge)]
  {
    assert (edges + [edge])[..|edges|] == edges;
  }

  /** The edges of the first `i + 1` repositories. */
  lemma RepoStep(repos: seq<RepoNode>, i: nat)
    requires i < |repos|
    ensures AllEdges(repos[..i + 1]) == AllEdges(repos[..i]) + RepoEdges(repos[i])
  {
    assert repos[..i + 1][..i] == repos[..i];
  }

  /** The edges visited once the inner loop has passed edge `j`. */
  lemma VisitStep(before: seq<LanguageEdge>, edges: seq<LanguageEdge>, j: nat)
    requires j < |edges|
    ensures before + edges[..j + 1] == (before + edges[..j]) + [edges[j]]
  {
    assert edges[..j + 1] == edges[..j] + [edges[j]];
  }

  /** A tallied object is well formed. */
  lemma TalliedWellFormed(order: seq<string>, bytes: map<string, nat>, edges: seq<LanguageEdge>)
    requires Tallied(order, bytes, edges)
    ensures WellFormed(LanguageStats(order, bytes))
  {
    FirstSeenNames(edges);
  }

  class LanguageColors {
    /** The shared colour table, which every fetch may extend. */
    var colors: map<string, string>

    constructor ()
      ensures colors == InitialLanguageColors
    {
      colors := InitialLanguageColors;
    }

    /** `fetchLanguageStats(username, token)` once `reply` has arrived. */
    method FetchLanguageStats(username: string, reply: HttpReply) returns (r: Result<LanguageStats, FetchError>)
      modifies this
      ensures reply.NotOk? ==> r == Failure(ApiError(reply.status))
      ensures reply.Ok? ==> (r.Failure? <==> QueryErrorOf(username, reply.result.errors).Some?)
      ensures reply.Ok? && r.Failure? ==> r.error == QueryErrorOf(username, reply.result.errors).value
      ensures r.Failure? ==> colors == old(colors)
      ensures r.Success? ==>
                var edges := AllEdges(RepoNodes(reply.result));
                && WellFormed(r.value)
                && r.value.order == FirstSeen(edges)
                && r.value.bytes.Keys == Names(edges)
                && (forall lang :: lang in r.value.bytes ==> r.value.bytes[lang] == BytesFor(edges, lang))
                && colors == RegisterAll(old(colors), edges)
    {
      if reply.NotOk? {
        return Failure(ApiError(reply.status));
      }
      var error := QueryErrorOf(username, reply.result.errors);
      if error.Some? {
        return Failure(error.value);
      }
      // a missing repository list reads as the empty list: the loop does nothing and `{}` is returned
      var order, bytes := TallyRepos(RepoNodes(reply.result));
      TalliedWellFormed(order, bytes, AllEdges(RepoNodes(reply.result)));
      r := Success(LanguageStats(order, bytes));
    }

    /** The outer loop over the repositories. */
    method TallyRepos(repos: seq<RepoNode>) returns (order: seq<string>, bytes: map<string, nat>)
      modifies this
      ensures Tallied(order, bytes, AllEdges(repos))
      ensures colors == RegisterAll(old(colors), AllEdges(repos))
    {
      order, bytes := [], map[];
      for i := 0 to |repos|
        invariant Tallied(order, bytes, AllEdges(repos[..i]))
        invariant colors == RegisterAll(old(colors), AllEdges(repos[..i]))
      {
        RepoStep(repos, i);
        var repo := repos[i];
        if repo.languages.None? || repo.languages.value.edges.None? {
          // `continue`: the repository has no edges
          assert AllEdges(repos[..i + 1]) == AllEdges(repos[..i]);
        } else {
          order, bytes := TallyEdges(repo.languages.value.edges.value, AllEdges(repos[..i]), old(colors), order, bytes);
        }
      }
      assert repos[..|repos|] == repos;
    }

    /** The inner loop over one repository's edges, continuing from the object and table of the edges `before`. */
    method TallyEdges(edges: seq<LanguageEdge>, ghost before: seq<LanguageEdge>, ghost initial: map<string, string>,
                      order0: seq<string>, bytes0: map<string, nat>)
      returns (order: seq<string>, bytes: map<string, nat>)
      requires Tallied(order0, bytes0, before)
      requires colors == RegisterAll(initial, before)
      modifies this
      ensures Tallied(order, bytes, before + edges)
      ensures colors == RegisterAll(initial, before + edges)
    {
      order, bytes := order0, bytes0;
      ghost var visited := before;
      for j := 0 to |edges|
        invariant visited == before + edges[..j]
        invariant Tallied(order, bytes, visited)
        invariant colors == RegisterAll(initial, visited)
      {
        var edge := edges[j];
        var lang := edge.node.name;
        TallyStep(order, bytes, visited, edge);
        RegisterStep(initial, colors, visited, edge);
        if !HasColor(colors, lang) {
          colors := colors[lang := EdgeColor(edge)];
        }
        if lang !in bytes {
          order := order + [lang];
        }
        bytes := bytes[lang := (if lang in bytes then bytes[lang] else 0) + edge.size];
        VisitStep(before, edges, j);
        visited := visited + [edge];
      }
      assert edges[..|edges|] == edges;
    }
  }

  /** A reply without errors and without a repository list yields an empty object. */
  lemma MissingReposIsEmpty(result: LangsResponse)
    requires || result.data.None?
             || result.data.value.user.None?
             || result.data.value.user.value.repositories.None?
             || result.data.value.user.value.repositories.value.nodes.None?
    ensures AllEdges(RepoNodes(result)) == []
    ensures FirstSeen(AllEdges(RepoNodes(result))) == [] && Names(AllEdges(RepoNodes(result))) == {}
  {
  }

  // ---------------------------------------------------------------------------
  // prepareLanguageData
  // ---------------------------------------------------------------------------

  /** An item of the card; the percentage string is not modelled. */
  datatype LanguageItem = LanguageItem(name: string, bytes: nat, color: string)

  const LangsCount: nat := 6

  /** `stats[lang]`, read as 0 for a language the object does not hold. */
  function BytesOf(bytes: map<string, nat>, lang: string): nat {
    if lang in bytes then bytes[lang] else 0
  }

  /** `Object.values(stats).reduce((s, b) => s + b, 0)`: 0 exactly when every language has 0 bytes. */
  function TotalBytes(order: seq<string>, bytes: map<string, nat>): (total: nat)
    ensures total == 0 <==> forall k :: 0 <= k < |order| ==> BytesOf(bytes, order[k]) == 0
    decreases |order|
  {
    if order == [] then 0
    else
      assert forall k :: 1 <= k < |order| ==> order[k] == order[1..][k - 1];
      BytesOf(bytes, order[0]) + TotalBytes(order[1..], bytes)
  }

  ghost predicate NonIncreasing(s: seq<string>, bytes: map<string, nat>) {
    forall i, j :: 0 <= i < j < |s| ==> BytesOf(bytes, s[i]) >= BytesOf(bytes, s[j])
  }

  /** Inserts `x` before the first name with no more bytes than it, so that ties already there stay behind it. */
  function InsertByBytes(x: string, s: seq<string>, bytes: map<string, nat>): (r: seq<string>)
    ensures |r| == |s| + 1
    ensures multiset(r) == multiset(s) + multiset{x}
    decreases |s|
  {
    if s == [] || BytesOf(bytes, s[0]) <= BytesOf(bytes, x) then [x] + s
    else
      assert s == [s[0]] + s[1..];
      [s[0]] + InsertByBytes(x, s[1..], bytes)
  }

  /** `sort(([, a], [, b]) => b - a)` on the keys: a stable sort by non-increasing bytes. */
  function SortByBytes(s: seq<string>, bytes: map<string, nat>): (r: seq<string>)
    ensures |r| == |s|
    ensures multiset(r) == multiset(s)
    decreases |s|
  {
    if s == [] then []
    else
      assert s == [s[0]] + s[1..];
      InsertByBytes(s[0], SortByBytes(s[1..], bytes), bytes)
  }

  /** A name of the multiset of `s` is at some index of `s`. */
  lemma InMultiset(s: seq<string>, y: string) returns (p: nat)
    requires y in multiset(s)
    ensures p < |s| && s[p] == y
  {
    assert y in s;
    p :| 0 <= p < |s| && s[p] == y;
  }

  /** A head with more bytes than `x` has at least the bytes of every name of the insertion into the tail. */
  lemma HeadDominates(x: string, s: seq<string>, bytes: map<string, nat>, k: nat)
    requires NonIncreasing(s, bytes)
    requires s != [] && BytesOf(bytes, s[0]) > BytesOf(bytes, x)
    requires k < |InsertByBytes(x, s[1..], bytes)|
    ensures BytesOf(bytes, s[0]) >= BytesOf(bytes, InsertByBytes(x, s[1..], bytes)[k])
  {
    var rest := InsertByBytes(x, s[1..], bytes);
    assert rest[k] in multiset(rest);
    if rest[k] != x {
      var p := InMultiset(s[1..], rest[k]);
      assert s[1..][p] == s[p + 1];
    }
  }

  lemma {:induction false} InsertSorted(x: string, s: seq<string>, bytes: map<string, nat>)
    requires NonIncreasing(s, bytes)
    ensures NonIncreasing(InsertByBytes(x, s, bytes), bytes)
    decreases |s|
  {
    if s == [] || BytesOf(bytes, s[0]) <= BytesOf(bytes, x) {
    } else {
      var rest := InsertByBytes(x, s[1..], bytes);
      InsertSorted(x, s[1..], bytes);
      var r := [s[0]] + rest;
      forall i, j | 0 <= i < j < |r|
        ensures BytesOf(bytes, r[i]) >= BytesOf(bytes, r[j])
      {
        if i > 0 {
          assert r[i] == rest[i - 1] && r[j] == rest[j - 1];
        } else {
          assert r[j] == rest[j - 1];
          HeadDominates(x, s, bytes, j - 1);
        }
      }
    }
  }

  lemma {:induction false} InsertDistinct(x: string, s: seq<string>, bytes: map<string, nat>)
    requires Distinct(s) && x !in s
    ensures Distinct(InsertByBytes(x, s, bytes))
    decreases |s|
  {
    if s == [] || BytesOf(bytes, s[0]) <= BytesOf(bytes, x) {
    } else {
      var rest := InsertByBytes(x, s[1..], bytes);
      assert forall i, j :: 0 <= i < j < |s| - 1 ==> s[1..][i] == s[i + 1] && s[1..][j] == s[j + 1];
      InsertDistinct(x, s[1..], bytes);
      assert s[0] != x && s[0] !in s[1..];
      var r := [s[0]] + rest;
      forall i, j | 0 <= i < j < |r|
        ensures r[i] != r[j]
      {
        assert r[j] == rest[j - 1];
        if i == 0 {
          assert rest[j - 1] in multiset(rest);
        }
      }
    }
  }

  /** The sort orders by non-increasing bytes. */
  lemma {:induction false} SortSorted(s: seq<string>, bytes: map<string, nat>)
    ensures NonIncreasing(SortByBytes(s, bytes), bytes)
    decreases |s|
  {
    if s != [] {
      SortSorted(s[1..], bytes);
      InsertSorted(s[0], SortByBytes(s[1..], bytes), bytes);
    }
  }

  /** The sort keeps distinct names distinct. */
  lemma {:induction false} SortDistinct(s: seq<string>, bytes: map<string, nat>)
    requires Distinct(s)
    ensures Distinct(SortByBytes(s, bytes))
    decreases |s|
  {
    if s != [] {
      assert forall i, j :: 0 <= i < j < |s| - 1 ==> s[1..][i] == s[i + 1] && s[1..][j] == s[j + 1];
      SortDistinct(s[1..], bytes);
      assert s[0] !in s[1..];
      assert s[0] !in multiset(SortByBytes(s[1..], bytes));
      InsertDistinct(s[0], SortByBytes(s[1..], bytes), bytes);
    }
  }

  /** The insertion puts `x` at some position `k`, behind exactly the names with more bytes than it. */
  lemma {:induction false} InsertSplit(x: string, s: seq<string>, bytes: map<string, nat>) returns (k: nat)
    ensures k <= |s|
    ensures InsertByBytes(x, s, bytes) == s[..k] + [x] + s[k..]
    ensures forall m :: 0 <= m < k ==> BytesOf(bytes, s[m]) > BytesOf(bytes, x)
    decreases |s|
  {
    if s == [] || BytesOf(bytes, s[0]) <= BytesOf(bytes, x) {
      k := 0;
    } else {
      var k1 := InsertSplit(x, s[1..], bytes);
      k := k1 + 1;
      assert s[..k] == [s[0]] + s[1..][..k1];
      assert s[k..] == s[1..][k1..];
      forall m | 0 <= m < k
        ensures BytesOf(bytes, s[m]) > BytesOf(bytes, x)
      {
        if m > 0 {
          assert s[m] == s[1..][m - 1];
        }
      }
    }
  }

  /** The tail of a list of distinct names is distinct and lacks the head. */
  lemma DistinctTail(s: seq<string>)
    requires s != [] && Distinct(s)
    ensures Distinct(s[1..]) && s[0] !in s[1..]
  {
    assert forall i, j :: 0 <= i < j < |s| - 1 ==> s[1..][i] == s[i + 1] && s[1..][j] == s[j + 1];
  }

  /** Of two keys of `s` with the same bytes, the one listed first in `s` is listed first in `r` too. */
  ghost predicate KeepsTies(s: seq<string>, r: seq<string>, bytes: map<string, nat>) {
    forall i, j, p, q ::
      && 0 <= i < j < |s|
      && 0 <= p < |r| && 0 <= q < |r|
      && r[p] == s[i] && r[q] == s[j]
      && BytesOf(bytes, s[i]) == BytesOf(bytes, s[j])
      ==> p < q
  }

  /** The sort is stable: tied keys keep their order, as in JavaScript's `Array.prototype.sort`. */
  lemma {:induction false} SortStable(s: seq<string>, bytes: map<string, nat>)
    requires Distinct(s)
    ensures KeepsTies(s, SortByBytes(s, bytes), bytes)
    decreases |s|
  {
    if s != [] {
      var t := SortByBytes(s[1..], bytes);
      var r := SortByBytes(s, bytes);
      DistinctTail(s);
      SortStable(s[1..], bytes);
      assert s[0] !in multiset(t);
      var k := InsertSplit(s[0], t, bytes);
      forall i, j, p, q |
        && 0 <= i < j < |s|
        && 0 <= p < |r| && 0 <= q < |r|
        && r[p] == s[i] && r[q] == s[j]
        && BytesOf(bytes, s[i]) == BytesOf(bytes, s[j])
        ensures p < q
      {
        StableAt(s, t, bytes, k, i, j, p, q);
      }
    }
  }

  /** One pair of keys in the inductive step of `SortStable`. */
  lemma StableAt(s: seq<string>, t: seq<string>, bytes: map<string, nat>, k: nat, i: nat, j: nat, p: nat, q: nat)
    requires s != [] && Distinct(s) && s[0] !in t
    requires k <= |t| && forall m :: 0 <= m < k ==> BytesOf(bytes, t[m]) > BytesOf(bytes, s[0])
    requires KeepsTies(s[1..], t, bytes)
    requires i < j < |s|
    requires var r := t[..k] + [s[0]] + t[k..];
             && p < |r| && q < |r| && r[p] == s[i] && r[q] == s[j]
    requires BytesOf(bytes, s[i]) == BytesOf(bytes, s[j])
    ensures p < q
  {
    var r := t[..k] + [s[0]] + t[k..];
    assert s[j] != s[0];
    // a name of `r` other than `s[0]` sits at `q'` in `t`
    var q' := if q < k then q else q - 1;
    assert r[q] == t[q'];
    if i == 0 {
      // `s[0]` is at `k`, and the names before it have more bytes than `s[j]`
      assert r[k] == s[0];
    } else {
      assert s[i] != s[0];
      var p' := if p < k then p else p - 1;
      assert r[p] == t[p'];
      assert s[1..][i - 1] == s[i] && s[1..][j - 1] == s[j];
    }
  }

  /** `LANGUAGE_COLORS[lang] || '#858585'`. */
  function ColorFor(colors: map<string, string>, lang: string): (c: string)
    ensures c != ""
    ensures HasColor(colors, lang) ==> c == colors[lang]
    ensures !HasColor(colors, lang) ==> c == DefaultColor
  {
    if HasColor(colors, lang) then colors[lang] else DefaultColor
  }

  function Min(a: nat, b: nat): nat {
    if a <= b then a else b
  }

  /** `prepareLanguageData(stats)`, reading the colour table `colors`. */
  function PrepareLanguageData(stats: LanguageStats, colors: map<string, string>): (items: seq<LanguageItem>)
    requires WellFormed(stats)
    ensures |items| <= LangsCount
    ensures TotalBytes(stats.order, stats.bytes) == 0 ==> items == []
  {
    if TotalBytes(stats.order, stats.bytes) == 0 then []
    else
      var sorted := SortByBytes(stats.order, stats.bytes);
      var top := sorted[..Min(LangsCount, |sorted|)];
      seq(|top|, k requires 0 <= k < |top| => LanguageItem(top[k], BytesOf(stats.bytes, top[k]), ColorFor(colors, top[k])))
  }

  /** With a positive total, the items are the first `min(6, n)` sorted names with their bytes and colours. */
  lemma PrepareShape(stats: LanguageStats, colors: map<string, string>)
    requires WellFormed(stats)
    requires TotalBytes(stats.order, stats.bytes) > 0
    ensures var items := PrepareLanguageData(stats, colors);
            var sorted := SortByBytes(stats.order, stats.bytes);
            && |items| == Min(LangsCount, |stats.order|)
            && forall i :: 0 <= i < |items| ==>
                 items[i] == LanguageItem(sorted[i], BytesOf(stats.bytes, sorted[i]), ColorFor(colors, sorted[i]))
  {
  }

  /**
   * With a positive total the result holds `min(6, n)` languages, by
   * non-increasing bytes, each once.
   */
  lemma PrepareTopLanguages(stats: LanguageStats, colors: map<string, string>)
    requires WellFormed(stats)
    requires TotalBytes(stats.order, stats.bytes) > 0
    ensures var items := PrepareLanguageData(stats, colors);
            && |items| == Min(LangsCount, |stats.order|)
            && (forall i, j :: 0 <= i < j < |items| ==> items[i].bytes >= items[j].bytes)
            && (forall i, j :: 0 <= i < j < |items| ==> items[i].name != items[j].name)
  {
    PrepareShape(stats, colors);
    SortSorted(stats.order, stats.bytes);
    SortDistinct(stats.order, stats.bytes);
  }

  /** Each language of the result is one of the object's, with its own bytes and colour. */
  lemma PrepareItemsFromStats(stats: LanguageStats, colors: map<string, string>)
    requires WellFormed(stats)
    ensures var items := PrepareLanguageData(stats, colors);
            forall i :: 0 <= i < |items| ==>
              && items[i].name in stats.bytes
              && items[i].bytes == stats.bytes[items[i].name]
              && items[i].color == ColorFor(colors, items[i].name)
  {
    if TotalBytes(stats.order, stats.bytes) > 0 {
      PrepareShape(stats, colors);
      var items := PrepareLanguageData(stats, colors);
      var sorted := SortByBytes(stats.order, stats.bytes);
      forall i | 0 <= i < |items|
        ensures items[i].name in stats.bytes
      {
        var p := InMultiset(stats.order, sorted[i]);
      }
    }
  }

  /** In the sorted keys, a name found only past the first `n` has no more bytes than any of them. */
  lemma PastTheCut(order: seq<string>, bytes: map<string, nat>, n: nat, lang: string, i: nat)
    requires i < n <= |order|
    requires lang in order
    requires forall k :: 0 <= k < n ==> SortByBytes(order, bytes)[k] != lang
    ensures BytesOf(bytes, lang) <= BytesOf(bytes, SortByBytes(order, bytes)[i])
  {
    var sorted := SortByBytes(order, bytes);
    SortSorted(order, bytes);
    assert lang in multiset(order);
    var p := InMultiset(sorted, lang);
    assert i < p;
  }


  /** No language left out of the result has more bytes than one taken into it. */
  lemma PrepareOmittedNotLarger(stats: LanguageStats, colors: map<string, string>)
    requires WellFormed(stats)
    ensures var items := PrepareLanguageData(stats, colors);
            forall lang, i ::
              && lang in stats.bytes
              && 0 <= i < |items|
              && (forall k :: 0 <= k < |items| ==> items[k].name != lang)
              ==> stats.bytes[lang] <= items[i].bytes
  {
    var items := PrepareLanguageData(stats, colors);
    forall lang, i | lang in stats.bytes && 0 <= i < |items| && (forall k :: 0 <= k < |items| ==> items[k].name != lang)
      ensures stats.bytes[lang] <= items[i].bytes
    {
      OmittedAt(stats, colors, lang, i);
    }
  }

  /** One left-out language against one item taken. */
  lemma OmittedAt(stats: LanguageStats, colors: map<string, string>, lang: string, i: nat)
    requires WellFormed(stats)
    requires lang in stats.bytes
    requires var items := PrepareLanguageData(stats, colors);
             && i < |items|
             && forall k :: 0 <= k < |items| ==> items[k].name != lang
    ensures stats.bytes[lang] <= PrepareLanguageData(stats, colors)[i].bytes
  {
    PrepareShape(stats, colors);
    var items := PrepareLanguageData(stats, colors);
    assert forall k :: 0 <= k < |items| ==> SortByBytes(stats.order, stats.bytes)[k] == items[k].name;
    PastTheCut(stats.order, stats.bytes, |items|, lang, i);
  }


  // ---------------------------------------------------------------------------
  // renderCloudLayout: packing tags into lines
  // ---------------------------------------------------------------------------

  datatype FontConfig = FontConfig(size: nat, weight: nat)

  /** The font of the i-th language of the cloud. */
  const FontConfigs: seq<FontConfig> := [
    FontConfig(24, 700), FontConfig(20, 600), FontConfig(18, 500),
    FontConfig(17, 500), FontConfig(16, 500), FontConfig(15, 500)
  ]

  /** A language placed in the cloud with its font. */
  datatype CloudTag = CloudTag(lang: LanguageItem, config: FontConfig)

  // Widths are counted in twentieths of a pixel, so that `size * 0.65` is the integer `13 * size`.
  const CardWidth: nat := 300
  const Padding: nat := 15
  const HorizontalGap: nat := 15
  const Scale: nat := 20

  /** `cardWidth - padding * 2`, scaled. */
  const MaxLineWidth: nat := (CardWidth - 2 * Padding) * Scale

  /** `horizontalGap`, scaled. */
  const Gap: nat := HorizontalGap * Scale

  /** `lang.name.length * (config.size * 0.65) + horizontalGap`, scaled. */
  function TagWidth(tag: CloudTag): (w: nat)
    ensures w >= Gap
  {
    |tag.lang.name| * (13 * tag.config.size) + Gap
  }

  /** The summed widths of a line's tags. */
  function LineWidth(line: seq<CloudTag>): nat
    decreases |line|
  {
    if line == [] then 0 else LineWidth(line[..|line| - 1]) + TagWidth(line[|line| - 1])
  }

  /** The tags of all lines, line after line. */
  function Concat(lines: seq<seq<CloudTag>>): seq<CloudTag>
    decreases |lines|
  {
    if lines == [] then [] else Concat(lines[..|lines| - 1]) + lines[|lines| - 1]
  }

  /** `languages` with the font of their position. */
  function Tagged(languages: seq<LanguageItem>): (tags: seq<CloudTag>)
    requires |languages| <= |FontConfigs|
    ensures |tags| == |languages|
    ensures forall i :: 0 <= i < |tags| ==> tags[i] == CloudTag(languages[i], FontConfigs[i])
  {
    seq(|languages|, i requires 0 <= i < |languages| => CloudTag(languages[i], FontConfigs[i]))
  }

  /**
   * The lines the greedy packing produces from `tags`: together they hold the
   * tags in order; there is one empty line when there are no tags and no empty
   * line otherwise; a line of two or more tags fits the width; and a line ends
   * only where its next tag would not have fitted.
   */
  ghost predicate GreedyLines(tags: seq<CloudTag>, lines: seq<seq<CloudTag>>) {
    && |lines| >= 1
    && Concat(lines) == tags
    && (tags == [] ==> lines == [[]])
    && (tags != [] ==> forall k :: 0 <= k < |lines| ==> lines[k] != [])
    && (forall k :: 0 <= k < |lines| && |lines[k]| > 1 ==> LineWidth(lines[k]) <= MaxLineWidth)
    && (forall k :: 0 < k < |lines| ==> LineWidth(lines[k - 1]) + TagWidth(lines[k][0]) > MaxLineWidth)
  }

  lemma ConcatAddLine(lines: seq<seq<CloudTag>>, line: seq<CloudTag>)
    ensures Concat(lines + [line]) == Concat(lines) + line
  {
    assert (lines + [line])[..|lines|] == lines;
  }

  lemma ConcatExtendLast(lines: seq<seq<CloudTag>>, tag: CloudTag)
    requires |lines| >= 1
    ensures Concat(lines[|lines| - 1 := lines[|lines| - 1] + [tag]]) == Concat(lines) + [tag]
  {
    var n := |lines| - 1;
    assert lines[n := lines[n] + [tag]][..n] == lines[..n];
  }

  lemma LineWidthAdd(line: seq<CloudTag>, tag: CloudTag)
    ensures LineWidth(line + [tag]) == LineWidth(line) + TagWidth(tag)
  {
    assert (line + [tag])[..|line|] == line;
  }

  /**
   * One step of the packing: `tag` opens a new line when the current line is
   * not empty and the tag would overflow it, and is appended to the last line.
   */
  function NextLines(lines: seq<seq<CloudTag>>, tag: CloudTag): (next: seq<seq<CloudTag>>)
    requires |lines| >= 1
    ensures |next| >= 1
  {
    var last := lines[|lines| - 1];
    if LineWidth(last) + TagWidth(tag) > MaxLineWidth && last != [] then lines + [[tag]]
    else lines[|lines| - 1 := last + [tag]]
  }

  /** Opening a new line keeps the packing greedy. */
  lemma GreedyBreak(tags: seq<CloudTag>, lines: seq<seq<CloudTag>>, tag: CloudTag)
    requires GreedyLines(tags, lines)
    requires lines[|lines| - 1] != []
    requires LineWidth(lines[|lines| - 1]) + TagWidth(tag) > MaxLineWidth
    ensures GreedyLines(tags + [tag], lines + [[tag]])
  {
    var next := lines + [[tag]];
    ConcatAddLine(lines, [tag]);
    assert tags != [];
    assert forall k :: 0 <= k < |lines| ==> next[k] == lines[k];
  }

  /** Appending to the last line, when it is empty or the tag fits, keeps the packing greedy. */
  lemma GreedyExtend(tags: seq<CloudTag>, lines: seq<seq<CloudTag>>, tag: CloudTag)
    requires GreedyLines(tags, lines)
    requires lines[|lines| - 1] == [] || LineWidth(lines[|lines| - 1]) + TagWidth(tag) <= MaxLineWidth
    ensures GreedyLines(tags + [tag], lines[|lines| - 1 := lines[|lines| - 1] + [tag]])
  {
    var n := |lines| - 1;
    var next := lines[n := lines[n] + [tag]];
    ConcatExtendLast(lines, tag);
    LineWidthAdd(lines[n], tag);
    if lines[n] == [] {
      assert tags == [] && lines == [[]];
      assert next == [[tag]];
    } else {
      assert (lines[n] + [tag])[0] == lines[n][0];
      assert forall k :: 0 <= k < n ==> next[k] == lines[k];
    }
  }

  /** Each step of the packing keeps it greedy. */
  lemma GreedyStep(tags: seq<CloudTag>, lines: seq<seq<CloudTag>>, tag: CloudTag)
    requires GreedyLines(tags, lines)
    ensures GreedyLines(tags + [tag], NextLines(lines, tag))
  {
    var last := lines[|lines| - 1];
    if LineWidth(last) + TagWidth(tag) > MaxLineWidth && last != [] {
      GreedyBreak(tags, lines, tag);
    } else {
      GreedyExtend(tags, lines, tag);
    }
  }

  /** The lines the packing has built after placing `tags`, one step per tag. */
  function Pack(tags: seq<CloudTag>): (lines: seq<seq<CloudTag>>)
    ensures |lines| >= 1
    decreases |tags|
  {
    if tags == [] then [[]] else NextLines(Pack(tags[..|tags| - 1]), tags[|tags| - 1])
  }

  /** A non-empty list is its front followed by its last tag. */
  lemma SplitLast(tags: seq<CloudTag>)
    requires tags != []
    ensures tags[..|tags| - 1] + [tags[|tags| - 1]] == tags
  {
  }

  /** Packing one more tag is one more step. */
  lemma PackStep(tags: seq<CloudTag>, i: nat)
    requires i < |tags|
    ensures Pack(tags[..i + 1]) == NextLines(Pack(tags[..i]), tags[i])
  {
    assert tags[..i + 1][..i] == tags[..i];
  }

  /** Whatever the tags, the packing is greedy. */
  lemma {:induction false} PackGreedy(tags: seq<CloudTag>)
    ensures GreedyLines(tags, Pack(tags))
    decreases |tags|
  {
    if tags != [] {
      var init := tags[..|tags| - 1];
      PackGreedy(init);
      GreedyStep(init, Pack(init), tags[|tags| - 1]);
      SplitLast(tags);
    }
  }

  /** The widths of `lines`, line by line. */
  ghost predicate WidthsOf(lines: seq<seq<CloudTag>>, widths: seq<int>) {
    |widths| == |lines| && forall k :: 0 <= k < |lines| ==> widths[k] == LineWidth(lines[k])
  }

  /** The running widths follow each step of the packing. */
  lemma WidthsStep(lines: seq<seq<CloudTag>>, widths: seq<int>, tag: CloudTag)
    requires |lines| >= 1 && WidthsOf(lines, widths)
    ensures var n := |lines| - 1;
            var w := widths[n] + TagWidth(tag);
            && (w > MaxLineWidth && lines[n] != [] ==>
                  && NextLines(lines, tag) == (lines + [[]])[n + 1 := (lines + [[]])[n + 1] + [tag]]
                  && WidthsOf(NextLines(lines, tag), (widths + [0])[n + 1 := (widths + [0])[n + 1] + TagWidth(tag)]))
            && (!(w > MaxLineWidth && lines[n] != []) ==>
                  && NextLines(lines, tag) == lines[n := lines[n] + [tag]]
                  && WidthsOf(NextLines(lines, tag), widths[n := w]))
  {
    var n := |lines| - 1;
    LineWidthAdd(lines[n], tag);
    LineWidthAdd([], tag);
    assert (lines + [[]])[n + 1 := (lines + [[]])[n + 1] + [tag]] == lines + [[tag]];
  }

  /**
   * The line packing of `renderCloudLayout(languages, ...)`: the tag lines and
   * their final widths (the summed tag widths less one gap), in twentieths of a pixel.
   * `fontConfigs[i]` exists only for the first six languages.
   */
  method PackCloudLines(languages: seq<LanguageItem>) returns (lines: seq<seq<CloudTag>>, lineWidths: seq<int>)
    requires |languages| <= |FontConfigs|
    ensures lines == Pack(Tagged(languages))
    ensures |lineWidths| == |lines|
    ensures forall k :: 0 <= k < |lines| ==> lineWidths[k] == LineWidth(lines[k]) - Gap
  {
    ghost var tags := Tagged(languages);
    lines := [[]];
    lineWidths := [0];
    var current := 0;
    for i := 0 to |languages|
      invariant current == |lines| - 1
      invariant lines == Pack(tags[..i])
      invariant WidthsOf(lines, lineWidths)
    {
      var tag := CloudTag(languages[i], FontConfigs[i]);
      WidthsStep(lines, lineWidths, tag);
      PackStep(tags, i);
      var estimatedWidth := TagWidth(tag);
      if lineWidths[current] + estimatedWidth > MaxLineWidth && |lines[current]| > 0 {
        current := current + 1;
        lines := lines + [[]];
        lineWidths := lineWidths + [0];
      }
      lines := lines[current := lines[current] + [tag]];
      lineWidths := lineWidths[current := lineWidths[current] + estimatedWidth];
    }
    assert tags[..|languages|] == tags;
    lineWidths := DropTrailingGaps(lineWidths);
  }

  /** `lineWidths.forEach((width, index) => lineWidths[index] = width - horizontalGap)`. */
  method DropTrailingGaps(widths: seq<int>) returns (r: seq<int>)
    ensures |r| == |widths|
    ensures forall k :: 0 <= k < |r| ==> r[k] == widths[k] - Gap
  {
    r := widths;
    for k := 0 to |r|
      invariant |r| == |widths|
      invariant forall m :: 0 <= m < k ==> r[m] == widths[m] - Gap
      invariant forall m :: k <= m < |r| ==> r[m] == widths[m]
    {
      r := r[k := r[k] - Gap];
    }
  }

  /** The cloud can lay out whatever `prepareLanguageData` returns. */
  lemma PreparedFitsCloud(stats: LanguageStats, colors: map<string, string>)
    requires WellFormed(stats)
    ensures |PrepareLanguageData(stats, colors)| <= |FontConfigs|
  {
  }
}
