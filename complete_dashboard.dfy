/** The full dashboard: status labels and badge colours, the status filter,
    the bar-chart and pie-chart data, loading a customer's data behind the
    blank-id guard, and logging out. */
module CompleteDashboard {
  import opened Wrappers
  import opened Text
  import opened Url
  import opened Http
  import opened Tally
  import opened ApiClient

  const CustomerIdKey := "google_ads_customer_id"
  const InvalidIdMessage := "Por favor, insira um Customer ID válido"
  const FetchErrorMessage := "Erro ao buscar dados. Verifique sua autenticação."
  /** How many campaigns the dashboard asks for. */
  const FetchLimit := 100
  /** How many campaigns the bar chart shows, and how long their names are. */
  const ChartSize := 10
  const ChartNameLength := 15

  // ---------------------------------------------------------------------------
  // status label and colour

  /** `getStatusText`: the Portuguese label of the three known statuses,
      whatever their case; any other status is shown as it is. */
  function StatusText(status: string): (text: string)
    ensures AsciiLower(status) == "enabled" ==> text == "Ativa"
    ensures AsciiLower(status) == "paused" ==> text == "Pausada"
    ensures AsciiLower(status) == "removed" ==> text == "Removida"
    ensures AsciiLower(status) !in {"enabled", "paused", "removed"} ==> text == status
  {
    match AsciiLower(status)
    case "enabled" => "Ativa"
    case "paused" => "Pausada"
    case "removed" => "Removida"
    case _ => status
  }

  /** Two spellings of one known status get the same label. */
  lemma StatusTextIgnoresCase(a: string, b: string)
    requires AsciiLower(a) == AsciiLower(b) && AsciiLower(a) in {"enabled", "paused", "removed"}
    ensures StatusText(a) == StatusText(b)
  {
  }

  /** The label "Ativa" stands for an enabled campaign, or for a campaign whose
      status is literally "Ativa"; the pie chart cannot tell the two apart. */
  lemma StatusTextAtiva(status: string)
    ensures StatusText(status) == "Ativa" <==> AsciiLower(status) == "enabled" || status == "Ativa"
  {
    if status == "Ativa" {
      assert AsciiLower(status)[0] == 'a';
    }
  }

  /** The statuses the Google Ads API sends, lowered. */
  lemma EnabledLowered()
    ensures AsciiLower("ENABLED") == "enabled"
  {
  }

  lemma PausedLowered()
    ensures AsciiLower("PAUSED") == "paused"
  {
  }

  lemma RemovedLowered()
    ensures AsciiLower("REMOVED") == "removed"
  {
  }

  /** The colour family of a status badge. */
  datatype Hue = Green | Yellow | Red | Gray

  /** The colour `getStatusColor` picks: green for enabled and active, yellow
      for paused, red for removed, gray for anything else, whatever the case. */
  function StatusHue(status: string): (h: Hue)
    ensures h == Green <==> AsciiLower(status) == "enabled" || AsciiLower(status) == "active"
    ensures h == Yellow <==> AsciiLower(status) == "paused"
    ensures h == Red <==> AsciiLower(status) == "removed"
    ensures h == Gray <==> AsciiLower(status) !in {"enabled", "active", "paused", "removed"}
  {
    match AsciiLower(status)
    case "enabled" => Green
    case "active" => Green
    case "paused" => Yellow
    case "removed" => Red
    case _ => Gray
  }

  /** The badge colour depends on the status only up to case. */
  lemma StatusHueIgnoresCase(status: string)
    ensures StatusHue(status) == StatusHue(AsciiLower(status))
  {
    AsciiLowerIdempotent(status);
  }

  /** `getStatusColor`: the badge classes, with a border. */
  function StatusColor(status: string): (classes: string)
    ensures StatusHue(status) == Green ==> classes == "bg-green-100 text-green-800 border-green-200"
    ensures StatusHue(status) == Yellow ==> classes == "bg-yellow-100 text-yellow-800 border-yellow-200"
    ensures StatusHue(status) == Red ==> classes == "bg-red-100 text-red-800 border-red-200"
    ensures StatusHue(status) == Gray ==> classes == "bg-gray-100 text-gray-800 border-gray-200"
  {
    match StatusHue(status)
    case Green => "bg-green-100 text-green-800 border-green-200"
    case Yellow => "bg-yellow-100 text-yellow-800 border-yellow-200"
    case Red => "bg-red-100 text-red-800 border-red-200"
    case Gray => "bg-gray-100 text-gray-800 border-gray-200"
  }

  /** Different colour families give different classes, so the badge shows
      which of the four groups a status is in. */
  lemma StatusColorDistinguishes(a: string, b: string)
    ensures StatusColor(a) == StatusColor(b) <==> StatusHue(a) == StatusHue(b)
  {
    StatusColorLength(a);
    StatusColorLength(b);
  }

  /** The four class strings have four different lengths. */
  function ClassesLength(h: Hue): nat {
    match h
    case Green => 44
    case Yellow => 47
    case Red => 38
    case Gray => 41
  }

  lemma StatusColorLength(status: string)
    ensures |StatusColor(status)| == ClassesLength(StatusHue(status))
  {
  }

  // ---------------------------------------------------------------------------
  // filter and chart data

  /** Whether a campaign passes the status filter. */
  predicate MatchesFilter(filterStatus: string, c: Campaign) {
    filterStatus == "all" || AsciiLower(c.status) == AsciiLower(filterStatus)
  }

  /** `filteredCampaigns`. */
  function FilterCampaigns(campaigns: seq<Campaign>, filterStatus: string): seq<Campaign> {
    if campaigns == [] then []
    else
      var head := if MatchesFilter(filterStatus, campaigns[0]) then [campaigns[0]] else [];
      head + FilterCampaigns(campaigns[1..], filterStatus)
  }

  /** `a` is `b` with some elements left out, the rest in their order. */
  predicate IsSubsequence(a: seq<Campaign>, b: seq<Campaign>)
    decreases |b|
  {
    if a == [] then true
    else if b == [] then false
    else if a[0] == b[0] then IsSubsequence(a[1..], b[1..])
    else IsSubsequence(a, b[1..])
  }

  lemma {:induction false} EmptySubsequence(b: seq<Campaign>)
    ensures IsSubsequence([], b)
  {
  }

  /** The filter keeps, in their order, exactly the campaigns whose status is
      the chosen one up to case; "all" keeps the whole list. */
  lemma {:induction false} FilterMeaning(campaigns: seq<Campaign>, filterStatus: string)
    ensures var f := FilterCampaigns(campaigns, filterStatus);
      IsSubsequence(f, campaigns) &&
      (forall c :: c in f <==> c in campaigns && MatchesFilter(filterStatus, c)) &&
      (filterStatus == "all" ==> f == campaigns)
  {
    if campaigns != [] {
      FilterMeaning(campaigns[1..], filterStatus);
      var rest := FilterCampaigns(campaigns[1..], filterStatus);
      if MatchesFilter(filterStatus, campaigns[0]) {
        assert ([campaigns[0]] + rest)[1..] == rest;
      } else {
        assert FilterCampaigns(campaigns, filterStatus) == rest;
        SubsequenceSkip(rest, campaigns);
      }
      assert campaigns == [campaigns[0]] + campaigns[1..];
    }
  }

  lemma {:induction false} SubsequenceSkip(a: seq<Campaign>, b: seq<Campaign>)
    requires b != [] && IsSubsequence(a, b[1..])
    ensures IsSubsequence(a, b)
    decreases |b|, 0
  {
    if a != [] && a[0] == b[0] {
      // `a[1..]` is a subsequence of `b[1..]` because `a` is
      SubsequenceTail(a, b[1..]);
    }
  }

  lemma {:induction false} SubsequenceTail(a: seq<Campaign>, b: seq<Campaign>)
    requires a != [] && IsSubsequence(a, b)
    ensures IsSubsequence(a[1..], b)
    decreases |b|, 1
  {
    if a[0] == b[0] {
      if b[1..] != [] {
        SubsequenceSkip(a[1..], b);
      } else {
        assert a[1..] == [];
      }
    } else {
      SubsequenceTail(a, b[1..]);
      SubsequenceSkip(a[1..], b);
    }
  }

  /** One bar of the campaign chart. */
  datatype ChartEntry = ChartEntry(name: string, impressions: int, clicks: int, cost: real)

  /** `campaignChartData`: the first ten filtered campaigns, with names cut
      to fifteen characters. */
  function ChartData(filtered: seq<Campaign>): (chart: seq<ChartEntry>)
    ensures |chart| == if |filtered| < ChartSize then |filtered| else ChartSize
    ensures forall i :: 0 <= i < |chart| ==>
      var c := filtered[i];
      chart[i].impressions == c.impressions && chart[i].clicks == c.clicks && chart[i].cost == c.cost &&
      (|c.name| <= ChartNameLength ==> chart[i].name == c.name) &&
      (|c.name| > ChartNameLength ==> chart[i].name == c.name[..ChartNameLength] + "...")
  {
    var n := if |filtered| < ChartSize then |filtered| else ChartSize;
    seq(n, i requires 0 <= i < n => var c := filtered[i];
      ChartEntry(Truncate(c.name, ChartNameLength), c.impressions, c.clicks, c.cost))
  }

  /** Every bar name is at most eighteen characters long. */
  lemma ChartNamesShort(filtered: seq<Campaign>)
    ensures forall i :: 0 <= i < |ChartData(filtered)| ==> |ChartData(filtered)[i].name| <= ChartNameLength + 3
  {
  }

  // ---------------------------------------------------------------------------
  // status distribution

  function Labels(campaigns: seq<Campaign>): (labels: seq<string>)
    ensures |labels| == |campaigns|
  {
    seq(|campaigns|, i requires 0 <= i < |campaigns| => StatusText(campaigns[i].status))
  }

  /** `statusDistribution` as `Object.entries` lists it. */
  function Distribution(campaigns: seq<Campaign>): Entries {
    TallyOf(Labels(campaigns))
  }

  /** The pie chart has one slice per label, each label once, each counting
      the campaigns with that label; together they count every campaign. */
  lemma DistributionMeaning(campaigns: seq<Campaign>)
    ensures var d := Distribution(campaigns);
      Distinct(Keys(d)) && Total(d) == |campaigns| &&
      (forall l :: l in Keys(d) <==> exists i :: 0 <= i < |campaigns| && StatusText(campaigns[i].status) == l) &&
      (forall l :: CountIn(d, l) == Occurrences(Labels(campaigns), l))
  {
    var labels := Labels(campaigns);
    TallyCounts(labels);
    forall l ensures l in labels <==> exists i :: 0 <= i < |campaigns| && StatusText(campaigns[i].status) == l {
      if l in labels {
        var i :| 0 <= i < |labels| && labels[i] == l;
        assert StatusText(campaigns[i].status) == l;
      }
      if i :| 0 <= i < |campaigns| && StatusText(campaigns[i].status) == l {
        assert labels[i] == l;
      }
    }
  }

  /** Campaigns that are all enabled, in whatever case, make one slice
      "Ativa" counting all of them. */
  lemma DistributionMergesCase(campaigns: seq<Campaign>)
    requires campaigns != [] && forall i :: 0 <= i < |campaigns| ==> AsciiLower(campaigns[i].status) == "enabled"
    ensures Distribution(campaigns) == [("Ativa", |campaigns|)]
  {
    TallyOneKey(Labels(campaigns), "Ativa");
  }

  // ---------------------------------------------------------------------------
  // loading and logging out

  /** How the two parallel requests ended: both answered, or one failed, with
      the `error` text of the failed response when it had one. */
  datatype FetchOutcome = Fetched(campaigns: seq<Campaign>, summary: MetricsSummary) | FetchFailed(responseError: Option<string>)

  /** The status the campaigns request filters by. */
  function StatusParam(filterStatus: string): Option<string> {
    if filterStatus != "all" then Some(filterStatus) else None
  }

  /** The two requests `fetchAllData` sends for a customer, in order. */
  function FetchRequests(customerId: string, filterStatus: string): (paths: seq<string>)
    ensures |paths| == 2 && paths[1] == SummaryPath(customerId)
    ensures paths[0] == CampaignsPath(customerId, SerializeParams(CampaignsQuery(Some(FetchLimit), StatusParam(filterStatus))))
  {
    [CampaignsPath(customerId, SerializeParams(CampaignsQuery(Some(FetchLimit), StatusParam(filterStatus)))), SummaryPath(customerId)]
  }

  /** The campaigns request asks for a hundred campaigns, and for the chosen
      status unless the filter is "all" or empty. */
  lemma FetchQuery(filterStatus: string)
    ensures var q := CampaignsQuery(Some(FetchLimit), StatusParam(filterStatus));
      q[0] == ("limit", IntToString(FetchLimit)) &&
      |q| == (if filterStatus == "all" || filterStatus == "" then 1 else 2) &&
      (|q| == 2 ==> q[1] == ("status", filterStatus))
  {
  }

  /** The error text shown for a failed request. */
  function FailureMessage(responseError: Option<string>): (m: string)
    ensures Given(responseError) ==> m == responseError.value
    ensures !Given(responseError) ==> m == FetchErrorMessage
  {
    OrElse(responseError, FetchErrorMessage)
  }

  /** The component's state. */
  class Component {
    var customerId: string
    var campaigns: seq<Campaign>
    var metrics: Option<MetricsSummary>
    var loading: bool
    var error: Option<string>
    var isAuthenticated: bool
    var filterStatus: string

    constructor ()
      ensures customerId == "" && campaigns == [] && metrics == None && !loading && error == None
      ensures !isAuthenticated && filterStatus == "all"
    {
      customerId := "";
      campaigns := [];
      metrics := None;
      loading := false;
      error := None;
      isAuthenticated := false;
      filterStatus := "all";
    }

    /** `fetchAllData(customerIdToUse)`. A blank id only sets the error; any
        other id is remembered, both requests go out (their paths are
        returned), and their outcome replaces the data or sets the error. */
    method FetchAllData(storage: BrowserStorage, customerIdToUse: Option<string>, outcome: FetchOutcome)
      returns (requests: seq<string>)
      modifies this, storage
      ensures var id := OrElse(customerIdToUse, old(customerId));
        IsBlank(id) ==>
          requests == [] && error == Some(InvalidIdMessage) && storage.items == old(storage.items) &&
          loading == old(loading) && campaigns == old(campaigns) && metrics == old(metrics)
      ensures var id := OrElse(customerIdToUse, old(customerId));
        !IsBlank(id) ==>
          requests == FetchRequests(id, old(filterStatus)) && storage.items == old(storage.items)[CustomerIdKey := id] && !loading
      ensures var id := OrElse(customerIdToUse, old(customerId));
        !IsBlank(id) && outcome.Fetched? ==>
          campaigns == outcome.campaigns && metrics == Some(outcome.summary) && error == None
      ensures var id := OrElse(customerIdToUse, old(customerId));
        !IsBlank(id) && outcome.FetchFailed? ==>
          campaigns == old(campaigns) && metrics == old(metrics) && error == Some(FailureMessage(outcome.responseError))
      ensures customerId == old(customerId) && isAuthenticated == old(isAuthenticated) && filterStatus == old(filterStatus)
    {
      var id := OrElse(customerIdToUse, customerId);
      var blank := TrimmedEmpty(id);
      if blank {
        error := Some(InvalidIdMessage);
        requests := [];
        return;
      }
      // the paths `getCampaigns` and `getSummary` request
      requests := FetchRequests(id, filterStatus);
      Load(storage, id, outcome);
    }

    /** The part of `fetchAllData` after the guard and the requests: the id
        is remembered, and the outcome of the requests replaces the data or
        sets the error; loading is over at the end. */
    method Load(storage: BrowserStorage, id: string, outcome: FetchOutcome)
      modifies this, storage
      ensures storage.items == old(storage.items)[CustomerIdKey := id]
      ensures outcome.Fetched? ==> campaigns == outcome.campaigns && metrics == Some(outcome.summary) && error == None
      ensures outcome.FetchFailed? ==>
        campaigns == old(campaigns) && metrics == old(metrics) && error == Some(FailureMessage(outcome.responseError))
      ensures !loading && customerId == old(customerId) && isAuthenticated == old(isAuthenticated) && filterStatus == old(filterStatus)
    {
      loading := true;
      error := None;
      storage.SetItem(CustomerIdKey, id);
      if outcome.Fetched? {
        campaigns := outcome.campaigns;
        metrics := Some(outcome.summary);
      } else {
        error := Some(FailureMessage(outcome.responseError));
      }
      loading := false;
    }

    /** The mount effect: the session decides `isAuthenticated`; a saved id
        is restored, and loaded at once when there is a session too. */
    method Mount(storage: BrowserStorage, outcome: FetchOutcome) returns (requests: seq<string>)
      modifies this, storage
      ensures isAuthenticated == Given(old(storage.GetItem(TokenKey)))
      ensures var saved := old(storage.GetItem(CustomerIdKey));
        (Given(saved) ==> customerId == saved.value) && (!Given(saved) ==> customerId == old(customerId))
      ensures var saved, token := old(storage.GetItem(CustomerIdKey)), old(storage.GetItem(TokenKey));
        if Given(saved) && Given(token) && !IsBlank(saved.value) then
          requests == FetchRequests(saved.value, old(filterStatus)) && storage.items == old(storage.items)[CustomerIdKey := saved.value]
        else
          requests == [] && storage.items == old(storage.items)
      // without both a saved id and a session nothing is loaded
      ensures var saved, token := old(storage.GetItem(CustomerIdKey)), old(storage.GetItem(TokenKey));
        !(Given(saved) && Given(token)) ==>
          campaigns == old(campaigns) && metrics == old(metrics) && loading == old(loading) && error == old(error)
      // a blank saved id only sets the error
      ensures var saved, token := old(storage.GetItem(CustomerIdKey)), old(storage.GetItem(TokenKey));
        Given(saved) && Given(token) && IsBlank(saved.value) ==>
          campaigns == old(campaigns) && metrics == old(metrics) && loading == old(loading) && error == Some(InvalidIdMessage)
      // otherwise the outcome of the requests replaces the data or sets the error
      ensures var saved, token := old(storage.GetItem(CustomerIdKey)), old(storage.GetItem(TokenKey));
        Given(saved) && Given(token) && !IsBlank(saved.value) ==>
          !loading &&
          (outcome.Fetched? ==> campaigns == outcome.campaigns && metrics == Some(outcome.summary) && error == None) &&
          (outcome.FetchFailed? ==>
            campaigns == old(campaigns) && metrics == old(metrics) && error == Some(FailureMessage(outcome.responseError)))
      ensures filterStatus == old(filterStatus)
    {
      var token := storage.GetItem(TokenKey);
      isAuthenticated := Given(token);
      var saved := storage.GetItem(CustomerIdKey);
      requests := [];
      if Given(saved) {
        customerId := saved.value;
        if Given(token) {
          requests := FetchAllData(storage, saved, outcome);
        }
      }
    }
  }

  /** `handleLogout`: both the session token and the saved customer id are
      forgotten, and the browser goes to the auth page. */
  method Logout(storage: BrowserStorage, window: Window)
    modifies storage, window
    ensures storage.items == old(storage.items) - {TokenKey, CustomerIdKey}
    ensures window.href == AuthPage
  {
    storage.RemoveItem(TokenKey);
    storage.RemoveItem(CustomerIdKey);
    window.href := AuthPage;
  }

  /** Logging out and coming back: the dashboard mounted afterwards is not
      authenticated, restores no customer id and requests nothing, and every
      other stored key is kept. */
  method LogoutThenMount(storage: BrowserStorage, window: Window, outcome: FetchOutcome)
    returns (c: Component, requests: seq<string>)
    modifies storage, window
    ensures !c.isAuthenticated && c.customerId == "" && requests == []
    ensures c.campaigns == [] && c.metrics == None && c.error == None && !c.loading
    ensures storage.items == old(storage.items) - {TokenKey, CustomerIdKey} && window.href == AuthPage
  {
    Logout(storage, window);
    c := new Component();
    requests := c.Mount(storage, outcome);
  }
}
