/** The demonstration dashboard: five fixed campaigns and their summary, the
    chart and pie-chart data drawn from them, and its own badge colours. */
module DemoDashboard {
  import opened Wrappers
  import opened Text
  import opened Tally
  import opened Helpers
  import opened ApiClient
  import opened CompleteDashboard
  import opened Dashboard

  const DemoCampaigns: seq<Campaign> := [
    Campaign("1", "Campanha Black Friday 2024", "ENABLED", 5000, 125000, 6250, 3750.50, "5.00"),
    Campaign("2", "Produtos Eletrônicos", "ENABLED", 3000, 89000, 3560, 2140.25, "4.00"),
    Campaign("3", "Campanha Natal", "PAUSED", 2000, 45000, 1350, 810.75, "3.00"),
    Campaign("4", "Remarketing Site", "ENABLED", 1500, 67000, 2010, 1206.30, "3.00"),
    Campaign("5", "Campanha Brand", "REMOVED", 1000, 23000, 690, 414.20, "3.00")]

  const DemoMetrics := MetricsSummary(5, 3, 349000, 13860, 8322.00, "3.97")

  /** How long the performance chart's names are. */
  const PerformanceNameLength := 15

  // ---------------------------------------------------------------------------
  // the summary agrees with the campaigns

  function Impressions(campaigns: seq<Campaign>): int {
    if campaigns == [] then 0 else campaigns[0].impressions + Impressions(campaigns[1..])
  }

  function Clicks(campaigns: seq<Campaign>): int {
    if campaigns == [] then 0 else campaigns[0].clicks + Clicks(campaigns[1..])
  }

  function Cost(campaigns: seq<Campaign>): real {
    if campaigns == [] then 0.0 else campaigns[0].cost + Cost(campaigns[1..])
  }

  function CountWithStatus(campaigns: seq<Campaign>, status: string): nat {
    if campaigns == [] then 0 else (if campaigns[0].status == status then 1 else 0) + CountWithStatus(campaigns[1..], status)
  }

  /** Every figure of the demo summary is what the demo campaigns add up to:
      their number, the enabled ones, the impressions, the clicks, the cost
      (832200 cents), and the overall CTR as the backend computes it. */
  lemma DemoMetricsConsistent()
    ensures DemoMetrics.totalCampaigns == |DemoCampaigns|
    ensures DemoMetrics.activeCampaigns == CountWithStatus(DemoCampaigns, "ENABLED")
    ensures DemoMetrics.totalImpressions == Impressions(DemoCampaigns)
    ensures DemoMetrics.totalClicks == Clicks(DemoCampaigns)
    ensures DemoMetrics.totalCost == Cost(DemoCampaigns) && DemoMetrics.totalCost * 100.0 == 832200.0
    ensures DemoMetrics.averageCtr == CalculateCTR(DemoMetrics.totalClicks, Some(DemoMetrics.totalImpressions))
  {
    assert "PAUSED" != "ENABLED" && "REMOVED" != "ENABLED" by {
      assert "PAUSED"[0] != "ENABLED"[0] && "REMOVED"[0] != "ENABLED"[0];
    }
    CalculateCTRIs(13860, 349000, 397);
    assert FormatHundredths(397) == "3.97" by {
      assert NatToString(3) == "3";
    }
  }

  /** Each demo campaign's CTR text is the one the backend would compute from
      its clicks and impressions. */
  lemma DemoCtrConsistent()
    ensures forall i :: 0 <= i < |DemoCampaigns| ==>
      CalculateCTR(DemoCampaigns[i].clicks, Some(DemoCampaigns[i].impressions)) == DemoCampaigns[i].ctr
  {
    CtrTexts();
    forall i | 0 <= i < |DemoCampaigns|
      ensures CalculateCTR(DemoCampaigns[i].clicks, Some(DemoCampaigns[i].impressions)) == DemoCampaigns[i].ctr
    {
      if i == 0 {
        CalculateCTRIs(6250, 125000, 500);
      } else if i == 1 {
        CalculateCTRIs(3560, 89000, 400);
      } else if i == 2 {
        CalculateCTRIs(1350, 45000, 300);
      } else if i == 3 {
        CalculateCTRIs(2010, 67000, 300);
      } else {
        CalculateCTRIs(690, 23000, 300);
      }
    }
  }

  lemma CtrTexts()
    ensures FormatHundredths(500) == "5.00" && FormatHundredths(400) == "4.00" && FormatHundredths(300) == "3.00"
  {
    assert NatToString(5) == "5" && NatToString(4) == "4" && NatToString(3) == "3";
  }

  // ---------------------------------------------------------------------------
  // chart data

  /** `performanceData`: every campaign, names cut to fifteen characters. */
  function PerformanceData(campaigns: seq<Campaign>): (chart: seq<ChartEntry>)
    ensures |chart| == |campaigns|
    ensures forall i :: 0 <= i < |chart| ==>
      var c := campaigns[i];
      chart[i].impressions == c.impressions && chart[i].clicks == c.clicks && chart[i].cost == c.cost &&
      (|c.name| <= PerformanceNameLength ==> chart[i].name == c.name) &&
      (|c.name| > PerformanceNameLength ==> chart[i].name == c.name[..PerformanceNameLength] + "...")
  {
    seq(|campaigns|, i requires 0 <= i < |campaigns| =>
      var c := campaigns[i];
      ChartEntry(Truncate(c.name, PerformanceNameLength), c.impressions, c.clicks, c.cost))
  }

  /** The names the demo chart shows. */
  lemma DemoPerformanceNames()
    ensures var chart := PerformanceData(DemoCampaigns);
      chart[0].name == "Campanha Black ..." && chart[1].name == "Produtos Eletrô..." &&
      chart[2].name == "Campanha Natal" && chart[3].name == "Remarketing Sit..." && chart[4].name == "Campanha Brand"
  {
    assert "Campanha Black Friday 2024"[..15] == "Campanha Black ";
    assert "Produtos Eletrônicos"[..15] == "Produtos Eletrô";
    assert "Remarketing Site"[..15] == "Remarketing Sit";
  }

  /** The demo pie chart: three enabled, one paused, one removed, in the
      order the statuses first appear. */
  lemma DemoDistribution()
    ensures RawDistribution(DemoCampaigns) == [("ENABLED", 3), ("PAUSED", 1), ("REMOVED", 1)]
  {
    assert Statuses(DemoCampaigns) == ["ENABLED", "ENABLED", "PAUSED", "ENABLED", "REMOVED"];
    assert "PAUSED" != "ENABLED" && "REMOVED" != "ENABLED" && "REMOVED" != "PAUSED" by {
      assert "PAUSED"[0] != "ENABLED"[0] && "REMOVED"[0] != "ENABLED"[0] && "REMOVED"[0] != "PAUSED"[0];
    }
    TallyOfDemoShape("ENABLED", "PAUSED", "REMOVED");
  }

  /** Three keys in the demo's order of statuses. */
  lemma TallyOfDemoShape(e: string, p: string, r: string)
    requires e != p && e != r && p != r
    ensures TallyOf([e, e, p, e, r]) == [(e, 3), (p, 1), (r, 1)]
  {
    var k := [e, e, p, e, r];
    assert k[..1][..0] == [];
    assert TallyOf(k[..1]) == [(e, 1)];
    assert k[..2][..1] == k[..1];
    assert TallyOf(k[..2]) == [(e, 2)];
    assert k[..3][..2] == k[..2];
    var t2: Entries := [(e, 2)];
    assert t2[1..] == [];
    assert Bump(t2, p) == [(e, 2)] + Bump(t2[1..], p);
    assert TallyOf(k[..3]) == [(e, 2), (p, 1)];
    assert k[..4][..3] == k[..3];
    assert TallyOf(k[..4]) == [(e, 3), (p, 1)];
    assert k[..4] == k[..|k| - 1];
    var t: Entries := [(e, 3), (p, 1)];
    assert t[1..] == [(p, 1)] && t[1..][1..] == [];
    assert Bump(t, r) == [(e, 3)] + Bump(t[1..], r) == [(e, 3)] + ([(p, 1)] + Bump(t[1..][1..], r));
  }

  /** The badges label the demo statuses in Portuguese. */
  lemma DemoStatusLabels()
    ensures StatusText("ENABLED") == "Ativa" && StatusText("PAUSED") == "Pausada" && StatusText("REMOVED") == "Removida"
  {
    EnabledLowered();
    PausedLowered();
    RemovedLowered();
  }

  // ---------------------------------------------------------------------------
  // badge colour

  /** This dashboard's `getStatusColor`: like the others but without the
      "active" case, so an active status is gray here. */
  function DemoStatusColor(status: string): (classes: string)
    ensures AsciiLower(status) == "enabled" ==> classes == "bg-green-100 text-green-800"
    ensures AsciiLower(status) == "paused" ==> classes == "bg-yellow-100 text-yellow-800"
    ensures AsciiLower(status) == "removed" ==> classes == "bg-red-100 text-red-800"
    ensures AsciiLower(status) !in {"enabled", "paused", "removed"} ==> classes == "bg-gray-100 text-gray-800"
  {
    match AsciiLower(status)
    case "enabled" => "bg-green-100 text-green-800"
    case "paused" => "bg-yellow-100 text-yellow-800"
    case "removed" => "bg-red-100 text-red-800"
    case _ => "bg-gray-100 text-gray-800"
  }

  /** The demo badge agrees with the first dashboard's on every status except
      "active" in any case. */
  lemma DemoColorDiffersOnActive(status: string)
    ensures DemoStatusColor(status) == PlainStatusColor(status) <==> AsciiLower(status) != "active"
  {
    if AsciiLower(status) == "active" {
      assert |DemoStatusColor(status)| != |PlainStatusColor(status)|;
    }
  }
}
