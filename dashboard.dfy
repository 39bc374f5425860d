/** The first dashboard: plain badge colours, chart data over every campaign,
    the pie chart keyed by the raw status, loading behind the blank-id guard,
    and the choice between the demo, the login prompt and the dashboard. */
module Dashboard {
  import opened Wrappers
  import opened Text
  import opened Url
  import opened Http
  import opened Tally
  import opened ApiClient
  import opened CompleteDashboard

  const DemoToken := "demo_token"
  const NameLength := 20

  /** `getStatusColor`: the same colour choice as the full dashboard, without
      the border class. */
  function PlainStatusColor(status: string): (classes: string)
    ensures StatusHue(status) == Green ==> classes == "bg-green-100 text-green-800"
    ensures StatusHue(status) == Yellow ==> classes == "bg-yellow-100 text-yellow-800"
    ensures StatusHue(status) == Red ==> classes == "bg-red-100 text-red-800"
    ensures StatusHue(status) == Gray ==> classes == "bg-gray-100 text-gray-800"
  {
    match StatusHue(status)
    case Green => "bg-green-100 text-green-800"
    case Yellow => "bg-yellow-100 text-yellow-800"
    case Red => "bg-red-100 text-red-800"
    case Gray => "bg-gray-100 text-gray-800"
  }

  /** The border class the full dashboard adds for a colour family. */
  function BorderClass(h: Hue): string {
    match h
    case Green => " border-green-200"
    case Yellow => " border-yellow-200"
    case Red => " border-red-200"
    case Gray => " border-gray-200"
  }

  /** Both dashboards paint a status alike: the full dashboard's classes are
      these followed by the border class of the same colour. */
  lemma PlainColorBordered(status: string)
    ensures StatusColor(status) == PlainStatusColor(status) + BorderClass(StatusHue(status))
  {
    match StatusHue(status) {
      case Green => GreenBordered();
      case Yellow => YellowBordered();
      case Red => RedBordered();
      case Gray => GrayBordered();
    }
  }

  lemma GreenBordered()
    ensures "bg-green-100 text-green-800 border-green-200" == "bg-green-100 text-green-800" + " border-green-200"
  {
  }

  lemma YellowBordered()
    ensures "bg-yellow-100 text-yellow-800 border-yellow-200" == "bg-yellow-100 text-yellow-800" + " border-yellow-200"
  {
  }

  lemma RedBordered()
    ensures "bg-red-100 text-red-800 border-red-200" == "bg-red-100 text-red-800" + " border-red-200"
  {
  }

  lemma GrayBordered()
    ensures "bg-gray-100 text-gray-800 border-gray-200" == "bg-gray-100 text-gray-800" + " border-gray-200"
  {
  }

  /** One bar of the chart. */
  function ChartEntryOf(c: Campaign): ChartEntry {
    ChartEntry(Truncate(c.name, NameLength), c.impressions, c.clicks, c.cost)
  }

  /** `campaignChartData`: every campaign, names cut to twenty characters. */
  function FullChartData(campaigns: seq<Campaign>): (chart: seq<ChartEntry>)
    ensures |chart| == |campaigns|
    ensures forall i :: 0 <= i < |chart| ==>
      var c := campaigns[i];
      chart[i].impressions == c.impressions && chart[i].clicks == c.clicks && chart[i].cost == c.cost &&
      (|c.name| <= NameLength ==> chart[i].name == c.name) &&
      (|c.name| > NameLength ==> chart[i].name == c.name[..NameLength] + "...")
  {
    seq(|campaigns|, i requires 0 <= i < |campaigns| => ChartEntryOf(campaigns[i]))
  }

  function Statuses(campaigns: seq<Campaign>): (statuses: seq<string>)
    ensures |statuses| == |campaigns|
  {
    seq(|campaigns|, i requires 0 <= i < |campaigns| => campaigns[i].status)
  }

  /** `statusDistribution`, keyed by the status as the backend sent it. */
  function RawDistribution(campaigns: seq<Campaign>): Entries {
    TallyOf(Statuses(campaigns))
  }

  /** One slice per distinct status, spelled as sent, each counting the
      campaigns with exactly that status; together they count every campaign. */
  lemma RawDistributionMeaning(campaigns: seq<Campaign>)
    ensures var d := RawDistribution(campaigns);
      Distinct(Keys(d)) && Total(d) == |campaigns| &&
      (forall s :: s in Keys(d) <==> exists i :: 0 <= i < |campaigns| && campaigns[i].status == s) &&
      (forall s :: CountIn(d, s) == Occurrences(Statuses(campaigns), s))
  {
    var statuses := Statuses(campaigns);
    TallyCounts(statuses);
    forall s ensures s in statuses <==> exists i :: 0 <= i < |campaigns| && campaigns[i].status == s {
      if s in statuses {
        var i :| 0 <= i < |statuses| && statuses[i] == s;
        assert campaigns[i].status == s;
      }
      if i :| 0 <= i < |campaigns| && campaigns[i].status == s {
        assert statuses[i] == s;
      }
    }
  }

  /** Unlike the full dashboard, this one keeps two spellings of a status
      apart, such as "ENABLED" and "enabled": two slices where the full
      dashboard shows one. */
  lemma RawDistributionKeepsCase(a: Campaign, b: Campaign)
    requires a.status != b.status && AsciiLower(a.status) == "enabled" && AsciiLower(b.status) == "enabled"
    ensures RawDistribution([a, b]) == [(a.status, 1), (b.status, 1)]
    ensures Distribution([a, b]) == [("Ativa", 2)]
  {
    assert Statuses([a, b]) == [a.status, b.status];
    TallyOfTwo(a.status, b.status);
    DistributionMergesCase([a, b]);
  }

  /** Two different keys, once each. */
  lemma TallyOfTwo(x: string, y: string)
    requires x != y
    ensures TallyOf([x, y]) == [(x, 1), (y, 1)]
  {
    var k := [x, y];
    assert k[..1] == [x] && k[..1][..0] == [];
    var t: Entries := [(x, 1)];
    assert TallyOf(k[..1]) == t;
    assert t[1..] == [];
    assert Bump(t, y) == [(x, 1)] + Bump(t[1..], y);
  }
  /** The two requests `fetchData` sends: the campaigns without options, and
      the summary. */
  function DashboardRequests(customerId: string): (paths: seq<string>)
    ensures paths == [CampaignsPath(customerId, ""), SummaryPath(customerId)]
  {
    [CampaignsPath(customerId, SerializeParams(CampaignsQuery(None, None))), SummaryPath(customerId)]
  }

  /** What the page shows. */
  datatype Screen = DemoScreen | LoginPrompt | Main

  /** The render: the demo for the demo token, else the login prompt until
      authenticated, else the dashboard. */
  function Render(token: Option<string>, isAuthenticated: bool): (screen: Screen)
    ensures screen == DemoScreen <==> token == Some(DemoToken)
    ensures screen == LoginPrompt <==> token != Some(DemoToken) && !isAuthenticated
  {
    if token == Some(DemoToken) then DemoScreen
    else if !isAuthenticated then LoginPrompt
    else Main
  }

  /** The component's state. */
  class Component {
    var customerId: string
    var campaigns: seq<Campaign>
    var metrics: Option<MetricsSummary>
    var loading: bool
    var error: Option<string>
    var isAuthenticated: bool

    constructor ()
      ensures customerId == "" && campaigns == [] && metrics == None && !loading && error == None && !isAuthenticated
    {
      customerId := "";
      campaigns := [];
      metrics := None;
      loading := false;
      error := None;
      isAuthenticated := false;
    }

    /** The mount effect: the session decides `isAuthenticated`; unless it is
        the demo session, a saved customer id is restored. */
    method Mount(storage: BrowserStorage)
      modifies this
      ensures var token, saved := storage.GetItem(TokenKey), storage.GetItem(CustomerIdKey);
        isAuthenticated == Given(token) &&
        (token != Some(DemoToken) && Given(saved) ==> customerId == saved.value) &&
        (token == Some(DemoToken) || !Given(saved) ==> customerId == old(customerId))
      ensures campaigns == old(campaigns) && metrics == old(metrics) && loading == old(loading) && error == old(error)
    {
      var token := storage.GetItem(TokenKey);
      isAuthenticated := Given(token);
      if token == Some(DemoToken) {
        return;
      }
      var saved := storage.GetItem(CustomerIdKey);
      if Given(saved) {
        customerId := saved.value;
      }
    }

    /** `fetchData`: a blank id only sets the error; any other id is
        remembered, both requests go out, and their outcome replaces the data
        or sets the error. */
    method FetchData(storage: BrowserStorage, outcome: FetchOutcome) returns (requests: seq<string>)
      modifies this, storage
      ensures IsBlank(old(customerId)) ==>
        requests == [] && error == Some(InvalidIdMessage) && storage.items == old(storage.items) &&
        loading == old(loading) && campaigns == old(campaigns) && metrics == old(metrics)
      ensures !IsBlank(old(customerId)) ==>
        requests == DashboardRequests(old(customerId)) && storage.items == old(storage.items)[CustomerIdKey := old(customerId)] && !loading
      ensures !IsBlank(old(customerId)) && outcome.Fetched? ==>
        campaigns == outcome.campaigns && metrics == Some(outcome.summary) && error == None
      ensures !IsBlank(old(customerId)) && outcome.FetchFailed? ==>
        campaigns == old(campaigns) && metrics == old(metrics) && error == Some(FailureMessage(outcome.responseError))
      ensures customerId == old(customerId) && isAuthenticated == old(isAuthenticated)
    {
      var blank := TrimmedEmpty(customerId);
      if blank {
        error := Some(InvalidIdMessage);
        requests := [];
        return;
      }
      loading := true;
      error := None;
      storage.SetItem(CustomerIdKey, customerId);
      var campaignsPath := GetCampaignsPath(customerId, None, None);
      requests := [campaignsPath, SummaryPath(customerId)];
      match outcome {
        case Fetched(cs, summary) =>
          campaigns := cs;
          metrics := Some(summary);
        case FetchFailed(e) =>
          error := Some(FailureMessage(e));
      }
      loading := false;
    }
  }

  /** Right after mounting, the demo token shows the demo, no session shows
      the login prompt, and any other session shows the dashboard. */
  lemma ScreenAfterMount(token: Option<string>)
    ensures Render(token, Given(token)) == DemoScreen <==> token == Some(DemoToken)
    ensures Render(token, Given(token)) == LoginPrompt <==> !Given(token)
    ensures Render(token, Given(token)) == Main <==> Given(token) && token != Some(DemoToken)
  {
  }

  /** Logging out of a dashboard and coming back to this one: the dashboard
      mounted afterwards is not authenticated, so it shows the login prompt,
      and restores no customer id. */
  method LogoutThenDashboard(storage: BrowserStorage, window: Window) returns (c: Component)
    modifies storage, window
    ensures !c.isAuthenticated && Render(storage.GetItem(TokenKey), c.isAuthenticated) == LoginPrompt
    ensures c.customerId == "" && c.campaigns == [] && c.metrics == None && c.error == None && !c.loading
    ensures storage.items == old(storage.items) - {TokenKey, CustomerIdKey} && window.href == AuthPage
  {
    CompleteDashboard.Logout(storage, window);
    c := new Component();
    c.Mount(storage);
  }
}
