/**
 * The post-fetch part of `fetchGitHubContributions`: the token check, the
 * classification of a failed reply or of GraphQL errors, and the flattening
 * of the contribution calendar (weeks of days) into grid-tagged days.
 *
 * The HTTP round trip itself is not modelled: the reply arrives as a value.
 */
module Contributions {
  import opened Wrappers
  import Text

  // ---------------------------------------------------------------------------
  // The shape of the GraphQL reply (GitHubContributionResponseData)
  // ---------------------------------------------------------------------------

  /** One day of the calendar, as the API sends it. */
  datatype RawDay = RawDay(contributionCount: int, contributionLevel: string, date: string, weekday: int)

  datatype Week = Week(contributionDays: seq<RawDay>)

  /** Every link of the path `data.user.contributionsCollection.contributionCalendar.weeks` may be missing. */
  datatype Calendar = Calendar(weeks: Option<seq<Week>>)
  datatype Collection = Collection(contributionCalendar: Option<Calendar>)
  datatype User = User(contributionsCollection: Option<Collection>)
  datatype ResponseData = ResponseData(user: Option<User>)

  /** A GraphQL error; an empty `message` stands for a missing or empty one (both are falsy). */
  datatype GraphQLError = GraphQLError(message: string, errorType: Option<string>)

  datatype GraphQLResponse = GraphQLResponse(data: Option<ResponseData>, errors: Option<seq<GraphQLError>>)

  /** The HTTP reply: a non-ok status with its body text, or an ok status with the parsed JSON. */
  datatype HttpReply = NotOk(status: nat, body: string) | Ok(result: GraphQLResponse)

  /** One output day (GitHubContributionDay): `x` is the week index, `y` the weekday. */
  datatype ContributionDay = ContributionDay(x: nat, y: int, date: string, count: int, level: nat)

  /** The errors `fetchGitHubContributions` throws. */
  datatype FetchError =
    | TokenRequired
    | ApiFailed(status: nat, body: string)
    | UserNotFound(login: string)
    | QueryFailed(message: string)
  {
    /** The message of the thrown `Error`. */
    function Message(): string {
      match this
      case TokenRequired => "GITHUB_TOKEN is required"
      case ApiFailed(status, body) => "GitHub API failed: " + Text.Decimal(status) + " - " + body
      case UserNotFound(login) => "User '" + login + "' not found"
      case QueryFailed(message) => message
    }
  }

  const FallbackMessage: string := "Error fetching GitHub contributions"

  // ---------------------------------------------------------------------------
  // Level quantisation
  // ---------------------------------------------------------------------------

  /** The level of a `contributionLevel` enum value: the four quartiles are 4..1, anything else 0. */
  function Level(contributionLevel: string): (level: nat)
    ensures level <= 4
    ensures level == 4 <==> contributionLevel == "FOURTH_QUARTILE"
    ensures level == 3 <==> contributionLevel == "THIRD_QUARTILE"
    ensures level == 2 <==> contributionLevel == "SECOND_QUARTILE"
    ensures level == 1 <==> contributionLevel == "FIRST_QUARTILE"
  {
    if contributionLevel == "FOURTH_QUARTILE" then 4
    else if contributionLevel == "THIRD_QUARTILE" then 3
    else if contributionLevel == "SECOND_QUARTILE" then 2
    else if contributionLevel == "FIRST_QUARTILE" then 1
    else 0
  }

  // ---------------------------------------------------------------------------
  // Flattening
  // ---------------------------------------------------------------------------

  /** The output day for `day` of the week with index `x`. */
  function ToDay(x: nat, day: RawDay): ContributionDay {
    ContributionDay(x, day.weekday, day.date, day.contributionCount, Level(day.contributionLevel))
  }

  /** `week.contributionDays.map(...)` for the week with index `x`. */
  function DaysOfWeek(x: nat, days: seq<RawDay>): (r: seq<ContributionDay>)
    ensures |r| == |days|
    ensures forall d :: 0 <= d < |days| ==> r[d] == ToDay(x, days[d])
  {
    seq(|days|, d requires 0 <= d < |days| => ToDay(x, days[d]))
  }

  /** The flatMap over `weeks`, the first of which has index `x`. */
  function FlattenFrom(weeks: seq<Week>, x: nat): (r: seq<ContributionDay>)
    ensures forall k :: 0 <= k < |r| ==> r[k].level <= 4 && x <= r[k].x < x + |weeks|
    decreases |weeks|
  {
    if weeks == [] then []
    else DaysOfWeek(x, weeks[0].contributionDays) + FlattenFrom(weeks[1..], x + 1)
  }

  /** `weeks.flatMap((week, x) => ...)`: every day lies in the column of some week, with a level in 0..4. */
  function Flatten(weeks: seq<Week>): (r: seq<ContributionDay>)
    ensures forall k :: 0 <= k < |r| ==> r[k].level <= 4 && r[k].x < |weeks|
  {
    FlattenFrom(weeks, 0)
  }

  /** The number of days in all of `weeks`. */
  function DayCount(weeks: seq<Week>): nat
    decreases |weeks|
  {
    if weeks == [] then 0 else |weeks[0].contributionDays| + DayCount(weeks[1..])
  }

  /** The position in the flat list of the first day of week `w`: the days of all earlier weeks. */
  function Offset(weeks: seq<Week>, w: nat): nat
    requires w <= |weeks|
  {
    DayCount(weeks[..w])
  }

  lemma {:induction false} FlattenFromLength(weeks: seq<Week>, x: nat)
    ensures |FlattenFrom(weeks, x)| == DayCount(weeks)
    decreases |weeks|
  {
    if weeks != [] {
      FlattenFromLength(weeks[1..], x + 1);
    }
  }

  /** The output has one day per calendar day. */
  lemma FlattenLength(weeks: seq<Week>)
    ensures |Flatten(weeks)| == DayCount(weeks)
  {
    FlattenFromLength(weeks, 0);
  }

  lemma {:induction false} OffsetStep(weeks: seq<Week>, w: nat)
    requires 0 < w <= |weeks|
    ensures Offset(weeks, w) == |weeks[0].contributionDays| + Offset(weeks[1..], w - 1)
  {
    assert weeks[..w][0] == weeks[0];
    assert weeks[..w][1..] == weeks[1..][..w - 1];
  }

  lemma {:induction false} FlattenFromAt(weeks: seq<Week>, x: nat, w: nat, d: nat)
    requires w < |weeks| && d < |weeks[w].contributionDays|
    ensures Offset(weeks, w) + d < |FlattenFrom(weeks, x)|
    ensures FlattenFrom(weeks, x)[Offset(weeks, w) + d] == ToDay(x + w, weeks[w].contributionDays[d])
    decreases w
  {
    if w == 0 {
      assert weeks[..0] == [];
    } else {
      FlattenFromAt(weeks[1..], x + 1, w - 1, d);
      OffsetStep(weeks, w);
    }
  }

  /**
   * Field mapping and order: day `d` of week `w` lands at the position after all
   * days of the earlier weeks and the earlier days of its own week, with `x == w`,
   * `y` its weekday, its date and count unchanged and its level quantised.
   */
  lemma FlattenAt(weeks: seq<Week>, w: nat, d: nat)
    requires w < |weeks| && d < |weeks[w].contributionDays|
    ensures Offset(weeks, w) + d < |Flatten(weeks)|
    ensures Flatten(weeks)[Offset(weeks, w) + d] == ToDay(w, weeks[w].contributionDays[d])
  {
    FlattenFromAt(weeks, 0, w, d);
  }

  lemma {:induction false} OffsetMonotone(weeks: seq<Week>, w: nat)
    requires w < |weeks|
    ensures Offset(weeks, w + 1) == Offset(weeks, w) + |weeks[w].contributionDays|
    decreases w
  {
    if w == 0 {
      assert weeks[..1][1..] == [];
      assert weeks[..0] == [];
    } else {
      OffsetStep(weeks, w);
      OffsetStep(weeks, w + 1);
      OffsetMonotone(weeks[1..], w - 1);
    }
  }

  /**
   * Every output position comes from a calendar day: the positions of week `w`
   * are the contiguous block of `|contributionDays|` positions from `Offset(weeks, w)`.
   */
  lemma {:induction false} FlattenCovers(weeks: seq<Week>, k: nat) returns (w: nat, d: nat)
    requires k < |Flatten(weeks)|
    ensures w < |weeks| && d < |weeks[w].contributionDays| && k == Offset(weeks, w) + d
  {
    FlattenLength(weeks);
    // the week whose block holds k: the last w with Offset(weeks, w) <= k
    w := 0;
    assert weeks[..0] == [];
    assert weeks[..|weeks|] == weeks;
    while Offset(weeks, w + 1) <= k
      invariant w < |weeks|
      invariant Offset(weeks, w) <= k
      decreases |weeks| - w
    {
      OffsetMonotone(weeks, w);
      if w + 1 == |weeks| {
        assert false;
      }
      w := w + 1;
    }
    OffsetMonotone(weeks, w);
    d := k - Offset(weeks, w);
  }

  // ---------------------------------------------------------------------------
  // The fetch, after the reply arrived
  // ---------------------------------------------------------------------------

  /**
   * `result.data?.user?.contributionsCollection?.contributionCalendar?.weeks || []`:
   * the weeks when every link of the path is present, and no weeks otherwise.
   */
  function CalendarWeeks(result: GraphQLResponse): (weeks: seq<Week>)
    ensures var complete :=
              && result.data.Some?
              && result.data.value.user.Some?
              && result.data.value.user.value.contributionsCollection.Some?
              && result.data.value.user.value.contributionsCollection.value.contributionCalendar.Some?
              && result.data.value.user.value.contributionsCollection.value.contributionCalendar.value.weeks.Some?;
            && (complete ==>
                  weeks == result.data.value.user.value.contributionsCollection.value.contributionCalendar.value.weeks.value)
            && (!complete ==> weeks == [])
  {
    match result.data
    case None => []
    case Some(data) =>
      match data.user
      case None => []
      case Some(user) =>
        match user.contributionsCollection
        case None => []
        case Some(collection) =>
          match collection.contributionCalendar
          case None => []
          case Some(calendar) =>
            match calendar.weeks
            case None => []
            case Some(weeks) => weeks
  }

  /** The error a reply's GraphQL `errors` raise, if any: only a non-empty list raises. */
  function QueryError(username: string, errors: Option<seq<GraphQLError>>): (e: Option<FetchError>)
    ensures e.None? <==> errors.None? || errors.value == []
    ensures e.Some? ==> e.value.UserNotFound? || e.value.QueryFailed?
    ensures e.Some? && errors.value[0].errorType == Some("NOT_FOUND") ==>
              e.value.Message() == "User '" + username + "' not found"
    ensures e.Some? && errors.value[0].errorType != Some("NOT_FOUND") ==>
              e.value.Message() == if errors.value[0].message != "" then errors.value[0].message else FallbackMessage
  {
    if errors.None? || errors.value == [] then None
    else
      var error := errors.value[0];
      if error.errorType == Some("NOT_FOUND") then Some(UserNotFound(username))
      else Some(QueryFailed(if error.message != "" then error.message else FallbackMessage))
  }

  /** `fetchGitHubContributions(username, token)` once `reply` has arrived. */
  function FetchGitHubContributions(username: string, token: string, reply: HttpReply): (r: Result<seq<ContributionDay>, FetchError>)
    ensures token == "" ==> r == Failure(TokenRequired)
    ensures token != "" && reply.NotOk? ==> r == Failure(ApiFailed(reply.status, reply.body))
    ensures token != "" && reply.Ok? ==>
              (r.Failure? <==> reply.result.errors.Some? && reply.result.errors.value != [])
    ensures token != "" && reply.Ok? && r.Failure? ==> Some(r.error) == QueryError(username, reply.result.errors)
    ensures r.Success? ==> reply.Ok? && r.value == Flatten(CalendarWeeks(reply.result))
    ensures r.Success? ==> forall k :: 0 <= k < |r.value| ==> r.value[k].level <= 4
  {
    if token == "" then Failure(TokenRequired)
    else match reply
      case NotOk(status, body) => Failure(ApiFailed(status, body))
      case Ok(result) =>
        match QueryError(username, result.errors)
        case Some(e) => Failure(e)
        case None => Success(Flatten(CalendarWeeks(result)))
  }

  /** The token is checked before anything else: with an empty token the reply plays no part. */
  lemma TokenCheckedFirst(username: string, reply1: HttpReply, reply2: HttpReply)
    ensures FetchGitHubContributions(username, "", reply1) == FetchGitHubContributions(username, "", reply2)
    ensures FetchGitHubContributions(username, "", reply1).Failure?
    ensures FetchGitHubContributions(username, "", reply1).error.Message() == "GITHUB_TOKEN is required"
  {
  }

  /** A reply without errors whose calendar path is broken anywhere yields no days. */
  lemma MissingCalendarIsEmpty(username: string, token: string, result: GraphQLResponse)
    requires token != ""
    requires result.errors.None? || result.errors.value == []
    requires || result.data.None?
             || result.data.value.user.None?
             || result.data.value.user.value.contributionsCollection.None?
             || result.data.value.user.value.contributionsCollection.value.contributionCalendar.None?
             || result.data.value.user.value.contributionsCollection.value.contributionCalendar.value.weeks.None?
    ensures FetchGitHubContributions(username, token, Ok(result)) == Success([])
  {
  }

  /** A successful fetch returns one day per calendar day, in calendar order, each in its week's column. */
  lemma FetchedDays(username: string, token: string, reply: HttpReply, w: nat, d: nat)
    requires FetchGitHubContributions(username, token, reply).Success?
    requires w < |CalendarWeeks(reply.result)| && d < |CalendarWeeks(reply.result)[w].contributionDays|
    ensures var days := FetchGitHubContributions(username, token, reply).value;
            var weeks := CalendarWeeks(reply.result);
            && |days| == DayCount(weeks)
            && Offset(weeks, w) + d < |days|
            && days[Offset(weeks, w) + d] == ToDay(w, weeks[w].contributionDays[d])
  {
    FlattenLength(CalendarWeeks(reply.result));
    FlattenAt(CalendarWeeks(reply.result), w, d);
  }
}
