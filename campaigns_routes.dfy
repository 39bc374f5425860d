/** The campaign listing route of the backend: it reads the `limit` and
    `status` query parameters, lists the customer's campaigns with them and
    answers with the list, its size and the options used. */
module CampaignsRoutes {
  import opened Wrappers
  import opened Text
  import opened Http
  import opened AdsService

  const DefaultLimit := 50

  /** `parseInt(limit) || 50`: `NaN` and `0` give the default; any other
      parsed value, negative ones included, is kept. */
  function ParseLimit(limit: Option<string>): (n: int)
    ensures n != 0
    ensures limit.None? ==> n == DefaultLimit
    ensures limit.Some? && ParseInt(limit.value).Some? && ParseInt(limit.value).value != 0 ==> n == ParseInt(limit.value).value
    ensures limit.Some? && (ParseInt(limit.value).None? || ParseInt(limit.value) == Some(0)) ==> n == DefaultLimit
  {
    if limit.None? then DefaultLimit
    else
      match ParseInt(limit.value)
      case Some(v) => if v != 0 then v else DefaultLimit
      case None => DefaultLimit
  }

  /** Any non-zero limit the client prints is read back unchanged. */
  lemma ParseLimitRoundTrip(n: int)
    requires n != 0
    ensures ParseLimit(Some(IntToString(n))) == n
  {
    ParseIntToString(n);
  }

  /** "0" falls back to the default. */
  lemma ParseLimitZero()
    ensures ParseLimit(Some("0")) == DefaultLimit
  {
    ParseIntToString(0);
    assert IntToString(0) == "0";
  }

  /** A text without digits falls back to the default. */
  lemma ParseLimitNoDigits(s: string)
    requires s != [] && s[0] !in JsWhitespace && s[0] != '-' && s[0] != '+' && !IsRadixDigit(s[0], 10)
    ensures ParseLimit(Some(s)) == DefaultLimit
  {
    assert TrimStart(s) == s;
  }

  /** `String(v)` of a query value, which `parseInt` reads: a string is
      itself, an object is `"[object Object]"`, and an array (a repeated
      parameter) is its items' texts joined by `","`, a `null` item giving
      `""`. The query parser builds only strings, arrays and objects; a number
      has no text here. */
  function QueryText(v: Json): Option<string>
    decreases v, 1
  {
    match v
    case JStr(s) => Some(s)
    case JObj(_) => Some("[object Object]")
    case JNull => Some("null")
    case JBool(b) => Some(if b then "true" else "false")
    case JNum(_) => None
    case JArr(items) => ItemsText(v, 0)
  }

  /** The texts of the items of the array `v` from position `i`, joined. */
  function ItemsText(v: Json, i: nat): Option<string>
    requires v.JArr? && i <= |v.items|
    decreases v, 0, |v.items| - i
  {
    if i == |v.items| then Some("")
    else
      var head := if v.items[i].JNull? then Some("") else QueryText(v.items[i]);
      if i + 1 == |v.items| then head
      else
        match (head, ItemsText(v, i + 1))
        case (Some(h), Some(t)) => Some(h + "," + t)
        case _ => None
  }

  /** The `options` object: the parsed limit and the raw `status`. */
  datatype ListOptions = ListOptions(limit: int, status: Option<Json>)

  function Options(query: map<string, Json>): (o: ListOptions)
    ensures o.status == (if "status" in query then Some(query["status"]) else None)
    ensures o.limit == ParseLimit(if "limit" in query then QueryText(query["limit"]) else None)
  {
    ListOptions(ParseLimit(if "limit" in query then QueryText(query["limit"]) else None),
      if "status" in query then Some(query["status"]) else None)
  }

  /** A single `limit` is parsed as it was sent. */
  lemma OptionsSingleLimit(query: map<string, Json>, s: string)
    requires "limit" in query && query["limit"] == JStr(s)
    ensures Options(query).limit == ParseLimit(Some(s))
  {
  }

  /** A repeated `limit` whose first copy is a positive number is read from
      that copy: the texts are joined with `","` and `parseInt` stops at the
      first comma. */
  lemma OptionsRepeatedLimit(query: map<string, Json>, n: nat)
    requires n != 0 && "limit" in query && query["limit"].JArr? && |query["limit"].items| >= 2
    requires query["limit"].items[0] == JStr(NatToString(n)) && ItemsText(query["limit"], 1).Some?
    ensures Options(query).limit == n
  {
    var v := query["limit"];
    var d, rest := NatToString(n), ItemsText(v, 1).value;
    assert QueryText(v.items[0]) == Some(d);
    assert ItemsText(v, 0) == Some(d + "," + rest);
    var t := d + "," + rest;
    ParseDigitsOfNat(n);
    NatToStringNoHexPrefix(n);
    assert t == d + ("," + rest);
    LeadingDigitsStop(d, "," + rest, 10);
    DigitIsNotBlank(d[0]);
    assert t[0] == d[0];
    assert TrimStart(t) == t;
    assert ParseMagnitude(t) == Some(n);
    assert ParseInt(t) == Some(n);
  }

  /** `?limit=5&limit=6` lists five campaigns. */
  lemma OptionsFiveAndSix()
    ensures Options(map["limit" := JArr([JStr("5"), JStr("6")])]).limit == 5
  {
    assert NatToString(5) == "5";
    OptionsRepeatedLimit(map["limit" := JArr([JStr("5"), JStr("6")])], 5);
  }

  function OptionsJson(o: ListOptions): Json {
    JObj([("limit", JNum(o.limit as real))] + Member("status", o.status))
  }

  function CtrJson(c: Ctr): Json {
    match c
    case InitialZero => JNum(0.0)
    case Percent(t) => JStr(t)
  }

  /** A campaign summary as `res.json` writes it. */
  function CampaignJson(c: CampaignSummary): Json {
    JObj([("id", JStr(c.id)), ("name", JStr(c.name)), ("status", JStr(c.status)), ("type", JStr(c.channelType)),
      ("metrics", JObj([("impressions", JNum(c.metrics.impressions as real)), ("clicks", JNum(c.metrics.clicks as real)),
        ("cost", JNum(c.metrics.cost)), ("conversions", JNum(c.metrics.conversions)), ("ctr", CtrJson(c.metrics.ctr))]))])
  }

  function FoundMessage(n: nat): string {
    IntToString(n) + " campanhas encontradas"
  }

  function ListingData(campaigns: seq<CampaignSummary>, customerId: string, o: ListOptions): Json {
    JObj([("campaigns", JArr(seq(|campaigns|, i requires 0 <= i < |campaigns| => CampaignJson(campaigns[i])))),
      ("total", JNum(|campaigns| as real)), ("customerId", JStr(customerId)), ("filters", OptionsJson(o))])
  }

  /** `GET /:customerId` for an authenticated user; `list` is the service's
      `listCampaigns(customerId, refreshToken, options)`. */
  function ListCampaignsRoute(
    customerId: string, user: User, query: map<string, Json>,
    list: (string, Option<string>, ListOptions) -> Result<seq<CampaignSummary>, string>): (h: Handled)
    ensures h.Threw? <==> list(customerId, user.refreshToken, Options(query)).Failure?
  {
    var options := Options(query);
    match list(customerId, user.refreshToken, options)
    case Failure(m) => Threw(m)
    case Success(campaigns) =>
      Replied(Reply(200, JObj([("success", JBool(true)), ("data", ListingData(campaigns, customerId, options)),
        ("message", JStr(FoundMessage(|campaigns|)))])))
  }

  /** The reply lists what the service returned, with `total` its length, the
      message naming that number, the customer id, and as `filters` the very
      options the service was called with. */
  lemma ListCampaignsReply(
    customerId: string, user: User, query: map<string, Json>,
    list: (string, Option<string>, ListOptions) -> Result<seq<CampaignSummary>, string>)
    requires list(customerId, user.refreshToken, Options(query)).Success?
    ensures var campaigns := list(customerId, user.refreshToken, Options(query)).value;
      var body := ListCampaignsRoute(customerId, user, query, list).reply.body;
      Get(body, "message") == Some(JStr(FoundMessage(|campaigns|))) &&
      Get(body, "data") == Some(ListingData(campaigns, customerId, Options(query)))
    ensures var campaigns := list(customerId, user.refreshToken, Options(query)).value;
      var data := ListingData(campaigns, customerId, Options(query));
      Get(data, "total") == Some(JNum(|campaigns| as real)) &&
      Get(data, "customerId") == Some(JStr(customerId)) &&
      Get(data, "filters") == Some(OptionsJson(Options(query)))
  {
    var campaigns := list(customerId, user.refreshToken, Options(query)).value;
    var body := ListCampaignsRoute(customerId, user, query, list).reply.body;
    LookupAt(body.fields, 1);
    LookupAt(body.fields, 2);
    ListingDataFields(campaigns, customerId, Options(query));
  }

  /** The `data` object carries the count, the customer id and the options. */
  lemma ListingDataFields(campaigns: seq<CampaignSummary>, customerId: string, o: ListOptions)
    ensures var data := ListingData(campaigns, customerId, o);
      Get(data, "total") == Some(JNum(|campaigns| as real)) &&
      Get(data, "customerId") == Some(JStr(customerId)) &&
      Get(data, "filters") == Some(OptionsJson(o))
  {
    var data := ListingData(campaigns, customerId, o);
    LookupAt(data.fields, 1);
    LookupAt(data.fields, 2);
    LookupAt(data.fields, 3);
  }
}
