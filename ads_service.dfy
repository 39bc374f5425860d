/** The Google Ads service of the backend: the credential check that builds the
    API client, and the aggregation of the per-(campaign, day) rows a campaign
    report returns into one summary per campaign.

    The aggregation fills an insertion-ordered map keyed by campaign id, adding
    each row's metrics to the entry of its campaign, then computes each entry's
    CTR. The map is modelled as the sequence of keys in insertion order plus a
    Dafny `map`; the method is proved against `Summaries`, which states the
    result declaratively: one summary per campaign id in order of first
    appearance, with the descriptive fields of the first row of that id and
    every metric summed over the rows of that id. */
module AdsService {
  import opened Wrappers
  import opened Helpers

  type CampaignId = string

  /** The `campaign` part of a report row. */
  datatype CampaignFields = CampaignFields(id: CampaignId, name: string, status: string, channelType: string)

  /** The `metrics` part of a report row; each value may be absent. */
  datatype RowMetrics = RowMetrics(
    impressions: Option<int>, clicks: Option<int>, costMicros: Option<int>, conversions: Option<real>)

  datatype Row = Row(campaign: CampaignFields, metrics: RowMetrics)

  /** A campaign's CTR: the number 0 it starts with, or the text `calculateCTR`
      returns. */
  datatype Ctr = InitialZero | Percent(text: string)

  datatype SummaryMetrics = SummaryMetrics(impressions: int, clicks: int, cost: real, conversions: real, ctr: Ctr)

  /** One entry of the response; `channelType` is the `type` property. */
  datatype CampaignSummary = CampaignSummary(
    id: CampaignId, name: string, status: string, channelType: string, metrics: SummaryMetrics)

  datatype Counter = Impressions | Clicks
  datatype Amount = Cost | Conversions

  /** `parseInt(row.metrics.impressions || 0)` and likewise for clicks. */
  function RowCount(row: Row, c: Counter): int {
    match c
    case Impressions => row.metrics.impressions.GetOr(0)
    case Clicks => row.metrics.clicks.GetOr(0)
  }

  /** `microsToDecimal(row.metrics.cost_micros || 0)` and
      `parseFloat(row.metrics.conversions || 0)`. */
  function RowAmount(row: Row, a: Amount): real {
    match a
    case Cost => MicrosToDecimal(row.metrics.costMicros)
    case Conversions => row.metrics.conversions.GetOr(0.0)
  }

  function CountOf(m: SummaryMetrics, c: Counter): int {
    match c
    case Impressions => m.impressions
    case Clicks => m.clicks
  }

  // ---------------------------------------------------------------------------
  // The reference definition

  /** Some row belongs to campaign `id`. */
  predicate Occurs(rows: seq<Row>, id: CampaignId) {
    exists k :: 0 <= k < |rows| && rows[k].campaign.id == id
  }

  /** No id appears twice. */
  predicate Distinct(ids: seq<CampaignId>) {
    forall i, j :: 0 <= i < j < |ids| ==> ids[i] != ids[j]
  }

  /** The campaign ids of the rows, each once, in order of first appearance. */
  function CampaignIds(rows: seq<Row>): (ids: seq<CampaignId>)
    ensures Distinct(ids)
    ensures forall id :: id in ids <==> Occurs(rows, id)
    ensures |ids| <= |rows|
  {
    if rows == [] then []
    else
      var p := rows[..|rows| - 1];
      var id := rows[|rows| - 1].campaign.id;
      var ids := CampaignIds(p);
      assert forall x :: Occurs(p, x) ==> Occurs(rows, x) by {
        forall x | Occurs(p, x) ensures Occurs(rows, x) {
          var k :| 0 <= k < |p| && p[k].campaign.id == x;
          assert rows[k] == p[k];
        }
      }
      assert forall x :: Occurs(rows, x) ==> Occurs(p, x) || x == id by {
        forall x | Occurs(rows, x) && x != id ensures Occurs(p, x) {
          var k :| 0 <= k < |rows| && rows[k].campaign.id == x;
          assert p[k] == rows[k];
        }
      }
      assert Occurs(rows, id) by { assert rows[|rows| - 1].campaign.id == id; }
      if id in ids then ids else ids + [id]
  }

  /** The index of the first row of campaign `id`. */
  function FirstIndex(rows: seq<Row>, id: CampaignId): (k: nat)
    requires Occurs(rows, id)
    ensures k < |rows| && rows[k].campaign.id == id
    ensures forall j :: 0 <= j < k ==> rows[j].campaign.id != id
  {
    if rows[0].campaign.id == id then 0
    else
      assert Occurs(rows[1..], id) by {
        var k :| 0 <= k < |rows| && rows[k].campaign.id == id;
        assert rows[1..][k - 1] == rows[k];
      }
      var k := FirstIndex(rows[1..], id);
      assert forall j :: 1 <= j < k + 1 ==> rows[j] == rows[1..][j - 1];
      1 + k
  }

  /** The sum of a count over the rows of campaign `id`. */
  function SumCount(rows: seq<Row>, id: CampaignId, c: Counter): int {
    if rows == [] then 0
    else
      var last := rows[|rows| - 1];
      SumCount(rows[..|rows| - 1], id, c) + (if last.campaign.id == id then RowCount(last, c) else 0)
  }

  /** The sum of an amount over the rows of campaign `id`. */
  function SumAmount(rows: seq<Row>, id: CampaignId, a: Amount): real {
    if rows == [] then 0.0
    else
      var last := rows[|rows| - 1];
      SumAmount(rows[..|rows| - 1], id, a) + (if last.campaign.id == id then RowAmount(last, a) else 0.0)
  }

  /** The sum of the (possibly absent) cost micros over the rows of campaign `id`. */
  function SumMicros(rows: seq<Row>, id: CampaignId): int {
    if rows == [] then 0
    else
      var last := rows[|rows| - 1];
      SumMicros(rows[..|rows| - 1], id) + (if last.campaign.id == id then last.metrics.costMicros.GetOr(0) else 0)
  }

  /** The entry of campaign `id` after the first pass: descriptive fields of its
      first row, every metric summed, CTR still the initial zero. */
  function Accumulated(rows: seq<Row>, id: CampaignId): CampaignSummary
    requires Occurs(rows, id)
  {
    var first := rows[FirstIndex(rows, id)].campaign;
    CampaignSummary(id, first.name, first.status, first.channelType,
      SummaryMetrics(SumCount(rows, id, Impressions), SumCount(rows, id, Clicks),
        SumAmount(rows, id, Cost), SumAmount(rows, id, Conversions), InitialZero))
  }

  /** The second pass on one entry: the CTR is set only when there were
      impressions. */
  function WithCtr(c: CampaignSummary): CampaignSummary {
    if c.metrics.impressions > 0 then
      c.(metrics := c.metrics.(ctr := Percent(CalculateCTR(c.metrics.clicks, Some(c.metrics.impressions)))))
    else c
  }

  /** The response, declaratively. */
  function Summaries(rows: seq<Row>): seq<CampaignSummary> {
    var ids := CampaignIds(rows);
    seq(|ids|, k requires 0 <= k < |ids| => WithCtr(Accumulated(rows, ids[k])))
  }

  // ---------------------------------------------------------------------------
  // The service

  /** The credentials `initializeClient` hands to the API client. */
  datatype Credentials = Credentials(clientId: string, clientSecret: string, developerToken: string)

  type Env = map<string, string>

  const ClientIdVar := "GOOGLE_ADS_CLIENT_ID"
  const ClientSecretVar := "GOOGLE_ADS_CLIENT_SECRET"
  const DeveloperTokenVar := "GOOGLE_ADS_DEVELOPER_TOKEN"
  const MissingCredentials := "Credenciais do Google Ads não configuradas corretamente"

  /** An environment variable is truthy: set and not empty. */
  predicate Set(env: Env, name: string) {
    name in env && env[name] != ""
  }

  /** The credential check of `initializeClient`. */
  function ClientCredentials(env: Env): (r: Result<Credentials, string>)
    ensures r.Success? <==> Set(env, ClientIdVar) && Set(env, ClientSecretVar) && Set(env, DeveloperTokenVar)
    ensures r.Failure? ==> r.error == MissingCredentials
    ensures r.Success? ==>
      r.value == Credentials(env[ClientIdVar], env[ClientSecretVar], env[DeveloperTokenVar])
  {
    if !Set(env, ClientIdVar) || !Set(env, ClientSecretVar) || !Set(env, DeveloperTokenVar) then
      Failure(MissingCredentials)
    else
      Success(Credentials(env[ClientIdVar], env[ClientSecretVar], env[DeveloperTokenVar]))
  }

  class GoogleAdsService {
    /** `this.client`: absent until `initializeClient` succeeds. */
    var client: Option<Credentials>

    constructor ()
      ensures client == None
    {
      client := None;
    }

    /** `initializeClient`: throws (a `Failure` here) and leaves the client
        alone when a credential is missing; otherwise sets the client. */
    method InitializeClient(env: Env) returns (r: Result<Credentials, string>)
      modifies this
      ensures r == ClientCredentials(env)
      ensures client == if r.Success? then Some(r.value) else old(client)
    {
      r := ClientCredentials(env);
      if r.Success? {
        client := Some(r.value);
      }
    }

    /** `formatCampaignsResponse`. */
    method FormatCampaignsResponse(rows: seq<Row>) returns (out: seq<CampaignSummary>)
      ensures out == Summaries(rows)
    {
      // the Map: its keys in insertion order, and its entries
      var order: seq<CampaignId> := [];
      var entries: map<CampaignId, CampaignSummary> := map[];
      var i := 0;
      while i < |rows|
        invariant 0 <= i <= |rows|
        invariant Mirrors(rows[..i], order, entries)
      {
        var row := rows[i];
        var id := row.campaign.id;
        MirrorsStep(rows, i, order, entries);
        if id !in entries {
          entries := entries[id := Opened(row)];
          order := order + [id];
        }
        var c := entries[id];
        entries := entries[id := AddRow(c, row)];
        i := i + 1;
      }
      assert rows[..i] == rows;
      MirrorsKeys(rows, order, entries);
      var values := Values(order, entries);
      out := WithCtrs(values);
      MirrorsFinal(rows, order, entries, out);
    }
  }

  /** `Array.from(map.values())`: the entries in the insertion order of their
      keys. */
  function Values(order: seq<CampaignId>, entries: map<CampaignId, CampaignSummary>): (values: seq<CampaignSummary>)
    requires forall k :: 0 <= k < |order| ==> order[k] in entries
    ensures |values| == |order| && forall k :: 0 <= k < |order| ==> values[k] == entries[order[k]]
  {
    seq(|order|, k requires 0 <= k < |order| => entries[order[k]])
  }

  /** The `.map` of the second pass: each entry with its CTR set. */
  method WithCtrs(values: seq<CampaignSummary>) returns (out: seq<CampaignSummary>)
    ensures |out| == |values| && forall j :: 0 <= j < |values| ==> out[j] == WithCtr(values[j])
  {
    out := [];
    var k := 0;
    while k < |values|
      invariant 0 <= k <= |values| && |out| == k
      invariant forall j :: 0 <= j < k ==> out[j] == WithCtr(values[j])
    {
      out := out + [WithCtr(values[k])];
      k := k + 1;
    }
  }

  /** Every key recorded in insertion order has its entry. */
  lemma MirrorsKeys(rows: seq<Row>, order: seq<CampaignId>, entries: map<CampaignId, CampaignSummary>)
    requires Mirrors(rows, order, entries)
    ensures forall k :: 0 <= k < |order| ==> order[k] in entries
  {
  }

  /** The Map after some rows: its keys in insertion order are the campaign ids
      of those rows, and each entry is the accumulated entry of its campaign. */
  ghost predicate Mirrors(rows: seq<Row>, order: seq<CampaignId>, entries: map<CampaignId, CampaignSummary>) {
    order == CampaignIds(rows) &&
    (forall id :: id in entries <==> id in order) &&
    (forall id :: id in entries ==> Occurs(rows, id) && entries[id] == Accumulated(rows, id))
  }

  /** Once every row is in, the entries taken in key order, each with its CTR
      set, are the summaries of the campaigns. */
  lemma MirrorsFinal(rows: seq<Row>, order: seq<CampaignId>, entries: map<CampaignId, CampaignSummary>,
                     out: seq<CampaignSummary>)
    requires Mirrors(rows, order, entries)
    requires |out| == |order| && forall j :: 0 <= j < |order| ==> out[j] == WithCtr(entries[order[j]])
    ensures out == Summaries(rows)
  {
  }

  lemma MirrorsStep(rows: seq<Row>, i: nat, order: seq<CampaignId>, entries: map<CampaignId, CampaignSummary>)
    requires i < |rows| && Mirrors(rows[..i], order, entries)
    ensures var id := rows[i].campaign.id;
      var e := if id in entries then entries else entries[id := Opened(rows[i])];
      var o := if id in entries then order else order + [id];
      Mirrors(rows[..i + 1], o, e[id := AddRow(e[id], rows[i])])
  {
    var id := rows[i].campaign.id;
    var p, q := rows[..i], rows[..i + 1];
    assert q[..|q| - 1] == p && q[|q| - 1] == rows[i];
    AccumulatedStep(rows, i);
    var e := if id in entries then entries else entries[id := Opened(rows[i])];
    var o := if id in entries then order else order + [id];
    var e2 := e[id := AddRow(e[id], rows[i])];
    assert CampaignIds(q) == o;
    forall x | x in e2 ensures Occurs(q, x) && e2[x] == Accumulated(q, x) {
      if x != id {
        assert e2[x] == entries[x];
      }
    }
  }

  /** The entry a campaign's first row creates. */
  function Opened(row: Row): CampaignSummary {
    CampaignSummary(row.campaign.id, row.campaign.name, row.campaign.status, row.campaign.channelType,
      SummaryMetrics(0, 0, 0.0, 0.0, InitialZero))
  }

  /** The four `+=` of one row. */
  function AddRow(c: CampaignSummary, row: Row): CampaignSummary {
    c.(metrics := c.metrics.(
      impressions := c.metrics.impressions + RowCount(row, Impressions),
      clicks := c.metrics.clicks + RowCount(row, Clicks),
      cost := c.metrics.cost + RowAmount(row, Cost),
      conversions := c.metrics.conversions + RowAmount(row, Conversions)))
  }

  // ---------------------------------------------------------------------------
  // The step of the first pass

  lemma SumsWithout(rows: seq<Row>, id: CampaignId)
    requires !Occurs(rows, id)
    ensures SumCount(rows, id, Impressions) == 0 && SumCount(rows, id, Clicks) == 0
    ensures SumAmount(rows, id, Cost) == 0.0 && SumAmount(rows, id, Conversions) == 0.0
  {
    if rows != [] {
      var p := rows[..|rows| - 1];
      assert !Occurs(p, id);
      SumsWithout(p, id);
      assert rows[|rows| - 1].campaign.id != id;
    }
  }

  /** Adding row `i` to the entries of `rows[..i]` gives the entries of
      `rows[..i+1]`. */
  lemma AccumulatedStep(rows: seq<Row>, i: nat)
    requires i < |rows|
    ensures var id := rows[i].campaign.id;
      Occurs(rows[..i + 1], id) &&
      Accumulated(rows[..i + 1], id) ==
        AddRow(if Occurs(rows[..i], id) then Accumulated(rows[..i], id) else Opened(rows[i]), rows[i])
    ensures forall x :: x != rows[i].campaign.id && Occurs(rows[..i], x) ==>
      Occurs(rows[..i + 1], x) && Accumulated(rows[..i + 1], x) == Accumulated(rows[..i], x)
  {
    var p, q, r := rows[..i], rows[..i + 1], rows[i];
    assert q[..|q| - 1] == p && q[|q| - 1] == r;
    assert q == p + [r];
    var id := r.campaign.id;
    assert Occurs(q, id) by { assert q[i] == r; }
    forall x | Occurs(p, x) ensures Occurs(q, x) && FirstIndex(q, x) == FirstIndex(p, x) {
      var k :| 0 <= k < |p| && p[k].campaign.id == x;
      assert q[k] == p[k];
      FirstIndexExtend(p, r, x);
    }
    if !Occurs(p, id) {
      SumsWithout(p, id);
      assert FirstIndex(q, id) == i;
    }
  }

  /** The first row of a campaign does not move when rows are appended. */
  lemma FirstIndexExtend(p: seq<Row>, r: Row, id: CampaignId)
    requires Occurs(p, id)
    ensures Occurs(p + [r], id) && FirstIndex(p + [r], id) == FirstIndex(p, id)
  {
    var q := p + [r];
    var b := FirstIndex(p, id);
    assert q[b] == p[b];
  }

  // ---------------------------------------------------------------------------
  // What the response promises

  /** One entry per distinct campaign id, no id twice, and no entry for an id
      that no row carries. */
  lemma SummariesIds(rows: seq<Row>)
    ensures Distinct(seq(|Summaries(rows)|, k requires 0 <= k < |Summaries(rows)| => Summaries(rows)[k].id))
    ensures forall id :: Occurs(rows, id) <==> exists k :: 0 <= k < |Summaries(rows)| && Summaries(rows)[k].id == id
  {
    var ids := CampaignIds(rows);
    var out := Summaries(rows);
    assert forall k :: 0 <= k < |out| ==> out[k].id == ids[k];
    forall id | Occurs(rows, id) ensures exists k :: 0 <= k < |out| && out[k].id == id {
      var k :| 0 <= k < |ids| && ids[k] == id;
      assert out[k].id == id;
    }
  }

  /** Entries come in order of the first appearance of their ids. */
  lemma SummariesOrder(rows: seq<Row>, i: nat, j: nat)
    requires i < j < |Summaries(rows)|
    ensures Occurs(rows, Summaries(rows)[i].id) && Occurs(rows, Summaries(rows)[j].id)
    ensures FirstIndex(rows, Summaries(rows)[i].id) < FirstIndex(rows, Summaries(rows)[j].id)
  {
    CampaignIdsOrder(rows, i, j);
  }

  lemma {:induction false} CampaignIdsOrder(rows: seq<Row>, i: nat, j: nat)
    requires i < j < |CampaignIds(rows)|
    ensures Occurs(rows, CampaignIds(rows)[i]) && Occurs(rows, CampaignIds(rows)[j])
    ensures FirstIndex(rows, CampaignIds(rows)[i]) < FirstIndex(rows, CampaignIds(rows)[j])
  {
    var p := rows[..|rows| - 1];
    var r := rows[|rows| - 1];
    assert rows == p + [r];
    var ids, pids := CampaignIds(rows), CampaignIds(p);
    var x, y := ids[i], ids[j];
    if j < |pids| {
      assert ids[i] == pids[i] && ids[j] == pids[j];
      CampaignIdsOrder(p, i, j);
      FirstIndexExtend(p, r, x);
      FirstIndexExtend(p, r, y);
    } else {
      // y is the id the last row introduced
      assert ids == pids + [r.campaign.id] && y == r.campaign.id && !Occurs(p, y);
      assert ids[i] == pids[i];
      FirstIndexExtend(p, r, x);
    }
  }

  /** Name, status and type of an entry are those of the first row of its
      campaign. */
  lemma SummariesFirstRow(rows: seq<Row>, k: nat)
    requires k < |Summaries(rows)|
    ensures var s := Summaries(rows)[k];
      exists f :: 0 <= f < |rows| && rows[f].campaign.id == s.id &&
        (forall j :: 0 <= j < f ==> rows[j].campaign.id != s.id) &&
        s.name == rows[f].campaign.name && s.status == rows[f].campaign.status &&
        s.channelType == rows[f].campaign.channelType
  {
    var s := Summaries(rows)[k];
    var f := FirstIndex(rows, s.id);
    assert rows[f].campaign.id == s.id;
  }

  /** Later rows never change a campaign's name, status or type. */
  lemma LaterRowsKeepFields(rows: seq<Row>, more: seq<Row>, id: CampaignId)
    requires Occurs(rows, id)
    ensures Occurs(rows + more, id)
    ensures var a, b := Accumulated(rows, id), Accumulated(rows + more, id);
      a.name == b.name && a.status == b.status && a.channelType == b.channelType
  {
    var f := FirstIndex(rows, id);
    var q := rows + more;
    assert q[f] == rows[f];
  }

  /** Each entry's metrics are the sums over the rows of its campaign, and its
      CTR is `calculateCTR` of those sums exactly when there were impressions. */
  lemma SummariesMetrics(rows: seq<Row>, k: nat)
    requires k < |Summaries(rows)|
    ensures var s := Summaries(rows)[k];
      s.metrics.impressions == SumCount(rows, s.id, Impressions) &&
      s.metrics.clicks == SumCount(rows, s.id, Clicks) &&
      s.metrics.cost == SumAmount(rows, s.id, Cost) &&
      s.metrics.conversions == SumAmount(rows, s.id, Conversions) &&
      s.metrics.ctr == if s.metrics.impressions > 0
        then Percent(CalculateCTR(s.metrics.clicks, Some(s.metrics.impressions))) else InitialZero
  {
  }

  /** Summing per row after dividing each row's micros equals dividing the
      summed micros once. */
  lemma {:induction false} SumCostIsMicros(rows: seq<Row>, id: CampaignId)
    ensures SumAmount(rows, id, Cost) * 1000000.0 == SumMicros(rows, id) as real
  {
    if rows != [] {
      SumCostIsMicros(rows[..|rows| - 1], id);
    }
  }

  lemma SummariesSize(rows: seq<Row>)
    ensures |Summaries(rows)| <= |rows|
    ensures (Summaries(rows) == []) <==> (rows == [])
  {
    if rows != [] {
      assert Occurs(rows, rows[0].campaign.id);
      assert rows[0].campaign.id in CampaignIds(rows);
    }
  }

  // ---------------------------------------------------------------------------
  // Totals are preserved

  function RowsTotal(rows: seq<Row>, c: Counter): int {
    if rows == [] then 0 else RowsTotal(rows[..|rows| - 1], c) + RowCount(rows[|rows| - 1], c)
  }

  function SummariesTotal(out: seq<CampaignSummary>, c: Counter): int {
    if out == [] then 0 else CountOf(out[0].metrics, c) + SummariesTotal(out[1..], c)
  }

  function SumOverIds(rows: seq<Row>, ids: seq<CampaignId>, c: Counter): int {
    if ids == [] then 0 else SumCount(rows, ids[0], c) + SumOverIds(rows, ids[1..], c)
  }

  /** The impressions (or clicks) over the response equal those over the rows. */
  lemma SummariesTotals(rows: seq<Row>, c: Counter)
    ensures SummariesTotal(Summaries(rows), c) == RowsTotal(rows, c)
  {
    var ids := CampaignIds(rows);
    SummariesTotalIsSumOverIds(rows, ids, c);
    assert Summaries(rows) == seq(|ids|, k requires 0 <= k < |ids| => WithCtr(Accumulated(rows, ids[k])));
    SumOverCampaignIds(rows, c);
  }

  lemma {:induction false} SummariesTotalIsSumOverIds(rows: seq<Row>, ids: seq<CampaignId>, c: Counter)
    requires forall id :: id in ids ==> Occurs(rows, id)
    ensures SummariesTotal(seq(|ids|, k requires 0 <= k < |ids| => WithCtr(Accumulated(rows, ids[k]))), c)
      == SumOverIds(rows, ids, c)
  {
    var s := seq(|ids|, k requires 0 <= k < |ids| => WithCtr(Accumulated(rows, ids[k])));
    if ids != [] {
      var t := ids[1..];
      assert s[1..] == seq(|t|, k requires 0 <= k < |t| => WithCtr(Accumulated(rows, t[k])));
      SummariesTotalIsSumOverIds(rows, t, c);
    }
  }

  lemma {:induction false} SumOverCampaignIds(rows: seq<Row>, c: Counter)
    ensures SumOverIds(rows, CampaignIds(rows), c) == RowsTotal(rows, c)
  {
    if rows != [] {
      var p := rows[..|rows| - 1];
      var r := rows[|rows| - 1];
      var pids := CampaignIds(p);
      SumOverCampaignIds(p, c);
      SumOverIdsStep(rows, pids, c);
      if r.campaign.id !in pids {
        SumOverIdsAppend(rows, pids, r.campaign.id, c);
        SumsWithout(p, r.campaign.id);
      }
    }
  }

  /** Adding the last row adds its count to the one id it belongs to. */
  lemma {:induction false} SumOverIdsStep(rows: seq<Row>, ids: seq<CampaignId>, c: Counter)
    requires rows != [] && Distinct(ids)
    ensures var r := rows[|rows| - 1];
      SumOverIds(rows, ids, c) ==
        SumOverIds(rows[..|rows| - 1], ids, c) + (if r.campaign.id in ids then RowCount(r, c) else 0)
  {
    if ids != [] {
      assert Distinct(ids[1..]) by {
        forall i, j | 0 <= i < j < |ids[1..]| ensures ids[1..][i] != ids[1..][j] {
          assert ids[1..][i] == ids[i + 1] && ids[1..][j] == ids[j + 1];
        }
      }
      SumOverIdsStep(rows, ids[1..], c);
      var x := rows[|rows| - 1].campaign.id;
      assert (x in ids) <==> (x == ids[0] || x in ids[1..]) by {
        assert ids == [ids[0]] + ids[1..];
      }
      assert x == ids[0] ==> x !in ids[1..];
    }
  }

  lemma {:induction false} SumOverIdsAppend(rows: seq<Row>, ids: seq<CampaignId>, id: CampaignId, c: Counter)
    ensures SumOverIds(rows, ids + [id], c) == SumOverIds(rows, ids, c) + SumCount(rows, id, c)
  {
    if ids != [] {
      assert (ids + [id])[1..] == ids[1..] + [id];
      SumOverIdsAppend(rows, ids[1..], id, c);
    }
  }
}
