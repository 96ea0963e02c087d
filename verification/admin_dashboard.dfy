/**
 * The admin dashboard: the `isAdmin` guard, logout, and how the voting-count
 * response is shown — three headline figures with `||` fallbacks and one
 * table row per party.
 */
module AdminDashboard {
  import opened Common
  import opened Session

  /** A JavaScript number as the response carries it; only NaN and finite values are distinguished. */
  datatype JsNumber = Num(value: real) | NaN

  /** A number is falsy when it is zero or NaN. */
  predicate Truthy(n: JsNumber)
  {
    n.Num? && n.value != 0.0
  }

  datatype PartyStatistics = PartyStatistics(
    id: int,
    name: string,
    logo: string,
    stateId: int,
    stateName: string,
    votes: JsNumber,
    percentage: string)

  datatype VotingCount = VotingCount(
    message: string,
    totalVoters: JsNumber,
    totalVotesCast: JsNumber,
    votingPercentage: JsNumber,
    statistics: seq<PartyStatistics>)

  /** What a headline card renders: a number, or the literal text of a fallback. */
  datatype Shown = ShownNumber(number: JsNumber) | ShownText(text: string)

  const AdminKey := "isAdmin"
  const AdminLoginRoute := "/admin-login"
  const HomeRoute := "/"

  /** `localStorage.getItem('isAdmin')` is truthy: present and not the empty string. */
  predicate AdminFlagSet(storage: Storage)
  {
    AdminKey in storage && storage[AdminKey] != Text("")
  }

  /** `data` is the `votingData` state; `location` is where the page last navigated. */
  datatype Dashboard = Dashboard(storage: Storage, data: Option<VotingCount>, location: Option<string>)

  /** The redirect effect: without a truthy admin flag the page goes to the admin login. */
  function RedirectTarget(storage: Storage): (r: Option<string>)
    ensures r == Some(AdminLoginRoute) <==> !AdminFlagSet(storage)
    ensures r.Some? ==> r.value == AdminLoginRoute
  {
    if AdminFlagSet(storage) then None else Some(AdminLoginRoute)
  }

  /** Mounting: no voting data yet, and the guard effect has run. */
  function Mount(storage: Storage): (d: Dashboard)
    ensures d.data.None? && d.storage == storage
    ensures d.location.Some? <==> !AdminFlagSet(storage)
  {
    Dashboard(storage, None, RedirectTarget(storage))
  }

  /** `handleLogout`: removes the admin flag and nothing else, then goes home. */
  function HandleLogout(d: Dashboard): (r: Dashboard)
    ensures AdminKey !in r.storage
    ensures SameOutside(d.storage, r.storage, {AdminKey})
    ensures r.location == Some(HomeRoute) && r.data == d.data
  {
    d.(storage := d.storage - {AdminKey}, location := Some(HomeRoute))
  }

  /** After logging out, opening the dashboard again redirects to the admin login. */
  lemma LogoutThenRedirect(d: Dashboard)
    ensures Mount(HandleLogout(d).storage).location == Some(AdminLoginRoute)
  {
  }

  /** Logging out twice leaves the same storage as logging out once. */
  lemma LogoutIdempotent(d: Dashboard)
    ensures HandleLogout(HandleLogout(d)).storage == HandleLogout(d).storage
  {
  }

  /** The fetch effect settles: a response replaces the data; an error is only logged. */
  function FinishFetch(d: Dashboard, outcome: Result<VotingCount, string>): (r: Dashboard)
    ensures outcome.Ok? ==> r.data == Some(outcome.value)
    ensures outcome.Err? ==> r == d
    ensures r.storage == d.storage && r.location == d.location
  {
    match outcome
    case Ok(v) => d.(data := Some(v))
    case Err(_) => d
  }

  /** JavaScript `x || fallback` for a number. */
  function NumberOr(x: Option<JsNumber>, fallback: Shown): (r: Shown)
    ensures x.Some? && Truthy(x.value) ==> r == ShownNumber(x.value)
    ensures x.None? || !Truthy(x.value) ==> r == fallback
  {
    if x.Some? && Truthy(x.value) then ShownNumber(x.value) else fallback
  }

  const ZeroShown := ShownNumber(Num(0.0))
  const PercentFallback := ShownText("0.00")

  function TotalVotersShown(data: Option<VotingCount>): (r: Shown)
    ensures data.Some? && Truthy(data.value.totalVoters) ==> r == ShownNumber(data.value.totalVoters)
    ensures data.None? || !Truthy(data.value.totalVoters) ==> r == ZeroShown
  {
    NumberOr(if data.Some? then Some(data.value.totalVoters) else None, ZeroShown)
  }

  function TotalVotesCastShown(data: Option<VotingCount>): (r: Shown)
    ensures data.Some? && Truthy(data.value.totalVotesCast) ==> r == ShownNumber(data.value.totalVotesCast)
    ensures data.None? || !Truthy(data.value.totalVotesCast) ==> r == ZeroShown
  {
    NumberOr(if data.Some? then Some(data.value.totalVotesCast) else None, ZeroShown)
  }

  /** The percentage card; the page renders it followed by '%'. */
  function VotingPercentageShown(data: Option<VotingCount>): (r: Shown)
    ensures data.Some? && Truthy(data.value.votingPercentage) ==> r == ShownNumber(data.value.votingPercentage)
    ensures data.None? || !Truthy(data.value.votingPercentage) ==> r == PercentFallback
  {
    NumberOr(if data.Some? then Some(data.value.votingPercentage) else None, PercentFallback)
  }

  /** No headline card ever shows NaN: a count is a truthy number or exactly 0. */
  lemma CountsNeverNaN(data: Option<VotingCount>)
    ensures var v := TotalVotersShown(data); v.ShownNumber? && (Truthy(v.number) || v == ZeroShown)
    ensures var c := TotalVotesCastShown(data); c.ShownNumber? && (Truthy(c.number) || c == ZeroShown)
    ensures var p := VotingPercentageShown(data); (p.ShownNumber? && Truthy(p.number)) || p == PercentFallback
  {
  }

  /** One rendered table row; `key` is the React key. */
  datatype Row = Row(key: int, name: string, stateName: string, votes: JsNumber, percentage: string)

  function RowOf(s: PartyStatistics): (r: Row)
    ensures r.key == s.id && r.name == s.name && r.stateName == s.stateName && r.votes == s.votes
    ensures r.percentage == s.percentage + "%"
  {
    Row(s.id, s.name, s.stateName, s.votes, s.percentage + "%")
  }

  function MapRows(stats: seq<PartyStatistics>): (rows: seq<Row>)
    ensures |rows| == |stats|
    ensures forall i :: 0 <= i < |stats| ==> rows[i] == RowOf(stats[i])
    decreases |stats|
  {
    if stats == [] then [] else [RowOf(stats[0])] + MapRows(stats[1..])
  }

  /** `votingData?.statistics.map(...)`: no rows before (or without) a response. */
  function Rows(data: Option<VotingCount>): (rows: seq<Row>)
    ensures data.None? ==> rows == []
    ensures data.Some? ==> |rows| == |data.value.statistics|
    ensures data.Some? ==> forall i :: 0 <= i < |rows| ==> rows[i] == RowOf(data.value.statistics[i])
  {
    if data.None? then [] else MapRows(data.value.statistics)
  }

  /** Rows follow the response: the rows of two concatenated lists are the two row lists concatenated. */
  lemma {:induction false} MapRowsAppend(a: seq<PartyStatistics>, b: seq<PartyStatistics>)
    ensures MapRows(a + b) == MapRows(a) + MapRows(b)
    decreases |a|
  {
    if a == [] {
      assert a + b == b;
    } else {
      assert (a + b)[1..] == a[1..] + b;
      MapRowsAppend(a[1..], b);
    }
  }

  /** The percentage cell gives back the response's text: drop the trailing '%'. */
  lemma PercentCellRoundTrip(s: PartyStatistics)
    ensures var cell := RowOf(s).percentage;
      |cell| == |s.percentage| + 1 && cell[|cell| - 1] == '%' && cell[..|cell| - 1] == s.percentage
  {
  }

  /**
   * A failed fetch leaves the data null: every figure shows its fallback
   * and the table is empty.
   */
  lemma FailedFetchShowsFallbacks(storage: Storage, error: string)
    ensures var d := FinishFetch(Mount(storage), Err(error));
      && TotalVotersShown(d.data) == ZeroShown
      && TotalVotesCastShown(d.data) == ZeroShown
      && VotingPercentageShown(d.data) == PercentFallback
      && Rows(d.data) == []
  {
  }

  /** A successful fetch shows one row per party, in response order, whatever the guard decided. */
  lemma FetchedRowsFollowResponse(storage: Storage, v: VotingCount)
    ensures var d := FinishFetch(Mount(storage), Ok(v));
      && |Rows(d.data)| == |v.statistics|
      && (forall i :: 0 <= i < |v.statistics| ==> Rows(d.data)[i].name == v.statistics[i].name)
      && d.location == RedirectTarget(storage)
  {
  }
}
