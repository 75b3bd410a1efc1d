/**
 * The `gaql` and `path` properties of the streams in
 * `tap_googleads/streams.py`: the query text each stream submits, the
 * inline start date of the performance reports, and the request path that
 * carries the query.
 */
module Queries {
  import opened Wrappers
  import opened Calendar
  import opened Streams

  /** The exceptions rendering a query can raise. */
  datatype RenderError =
    | IntervalDaysMissing   // TypeError: timedelta(days=None)
    | StartDateOverflow     // OverflowError: the start date leaves 0001-01-01 .. 9999-12-31

  /** Where a dated query takes its start date from. */
  datatype StartBound =
    | Lookback      // computed inline: today minus performance_report_interval_days
    | ClientStart   // the stream's `start_date`, defined by the API client

  datatype Clause =
    | NoWhere
    | Where(condition: string)
    /** `WHERE segments.date >= <start> <conj> segments.date <= <end>` followed by `extra`. */
    | DateWindow(start: StartBound, conj: string, extra: string)

  /**
   * A query template. Each run of whitespace inside the source text is one
   * space here, and the whitespace at its start and end is dropped.
   */
  datatype Template = Template(fields: seq<string>, resource: string, clause: Clause, orderBy: string)

  /** The client-defined `start_date` and `end_date` of a stream, taken as given text. */
  datatype ClientWindow = ClientWindow(startDate: string, endDate: string)

  /** Streams that define `gaql` (AccessibleCustomers has a fixed path instead). */
  predicate HasQuery(k: StreamKind) {
    !k.AccessibleCustomers?
  }

  /** A SELECT list as the query text writes it: the fields separated by `, `. */
  function Join(fields: seq<string>): string {
    if |fields| == 0 then "" else if |fields| == 1 then fields[0] else fields[0] + ", " + Join(fields[1..])
  }

  // The SELECT lists, as the source has them, one field after the other.
  const CustomerHierarchyStreamFields: seq<string> :=
    ["customer_client.client_customer", "customer_client.level", "customer_client.manager",
     "customer_client.descriptive_name", "customer_client.currency_code", "customer_client.time_zone",
     "customer_client.id"]
  const GeotargetsStreamFields: seq<string> :=
    ["geo_target_constant.canonical_name", "geo_target_constant.country_code", "geo_target_constant.id",
     "geo_target_constant.name", "geo_target_constant.status", "geo_target_constant.target_type"]
  const CampaignsStreamFields: seq<string> :=
    ["campaign.id", "campaign.name"]
  const AdGroupsStreamFields: seq<string> :=
    ["ad_group.url_custom_parameters", "ad_group.type", "ad_group.tracking_url_template",
     "ad_group.targeting_setting.target_restrictions", "ad_group.target_roas", "ad_group.target_cpm_micros",
     "ad_group.status", "ad_group.target_cpa_micros", "ad_group.resource_name",
     "ad_group.percent_cpc_bid_micros", "ad_group.name", "ad_group.labels", "ad_group.id",
     "ad_group.final_url_suffix", "ad_group.excluded_parent_asset_field_types",
     "ad_group.effective_target_roas_source", "ad_group.effective_target_roas",
     "ad_group.effective_target_cpa_source", "ad_group.effective_target_cpa_micros",
     "ad_group.display_custom_bid_dimension", "ad_group.cpv_bid_micros", "ad_group.cpm_bid_micros",
     "ad_group.cpc_bid_micros", "ad_group.campaign", "ad_group.base_ad_group", "ad_group.ad_rotation_mode"]
  const AdsStreamFields: seq<string> :=
    ["ad_group_ad.ad.type", "ad_group_ad.ad.resource_name", "ad_group_ad.ad.name", "ad_group_ad.ad.id",
     "campaign.name", "campaign.id"]
  const AdsPerformanceFields: seq<string> :=
    ["campaign.name", "campaign.id", "ad_group.name", "ad_group.id", "ad_group_ad.ad.name",
     "ad_group_ad.ad.id", "segments.date", "metrics.impressions", "metrics.clicks", "metrics.cost_micros",
     "metrics.conversions", "metrics.conversions_by_conversion_date", "metrics.conversions_value",
     "metrics.conversions_value_by_conversion_date", "metrics.engagements", "metrics.interactions",
     "metrics.video_views", "metrics.video_quartile_p25_rate", "metrics.video_quartile_p50_rate",
     "metrics.video_quartile_p75_rate", "metrics.video_quartile_p100_rate"]
  const AdGroupsPerformanceFields: seq<string> :=
    ["campaign.name", "campaign.id", "ad_group.name", "ad_group.id", "segments.date", "metrics.impressions",
     "metrics.clicks", "metrics.cost_micros", "metrics.conversions", "metrics.conversions_by_conversion_date",
     "metrics.conversions_value", "metrics.conversions_value_by_conversion_date", "metrics.video_views",
     "metrics.video_quartile_p100_rate"]
  const AdGroupsHourlyPerformanceFields: seq<string> :=
    ["campaign.name", "campaign.id", "ad_group.name", "ad_group.id", "segments.date", "segments.hour",
     "metrics.impressions", "metrics.clicks", "metrics.cost_micros", "metrics.conversions",
     "metrics.conversions_by_conversion_date", "metrics.conversions_value",
     "metrics.conversions_value_by_conversion_date", "metrics.video_views",
     "metrics.video_quartile_p100_rate"]
  const CampaignPerformanceFields: seq<string> :=
    ["campaign.name", "campaign.id", "campaign.status", "segments.device", "segments.date",
     "metrics.impressions", "metrics.clicks", "metrics.ctr", "metrics.average_cpc", "metrics.cost_micros",
     "metrics.conversions", "metrics.conversions_by_conversion_date", "metrics.conversions_value",
     "metrics.conversions_value_by_conversion_date", "metrics.video_views",
     "metrics.video_quartile_p100_rate"]
  const CampaignHourlyPerformanceFields: seq<string> :=
    ["campaign.name", "campaign.id", "campaign.status", "segments.device", "segments.date", "segments.hour",
     "metrics.impressions", "metrics.clicks", "metrics.ctr", "metrics.average_cpc", "metrics.cost_micros",
     "metrics.conversions", "metrics.conversions_by_conversion_date", "metrics.conversions_value",
     "metrics.conversions_value_by_conversion_date", "metrics.video_views",
     "metrics.video_quartile_p100_rate"]
  const CampaignPerformanceByAgeRangeAndDeviceFields: seq<string> :=
    ["ad_group_criterion.age_range.type", "campaign.name", "campaign.status", "ad_group.name",
     "segments.date", "segments.device", "ad_group_criterion.system_serving_status",
     "ad_group_criterion.bid_modifier", "metrics.clicks", "metrics.impressions", "metrics.ctr",
     "metrics.average_cpc", "metrics.cost_micros", "campaign.advertising_channel_type"]
  const CampaignPerformanceByGenderAndDeviceFields: seq<string> :=
    ["ad_group_criterion.gender.type", "campaign.name", "campaign.status", "ad_group.name", "segments.date",
     "segments.device", "ad_group_criterion.system_serving_status", "ad_group_criterion.bid_modifier",
     "metrics.clicks", "metrics.impressions", "metrics.ctr", "metrics.average_cpc", "metrics.cost_micros",
     "campaign.advertising_channel_type"]
  const CampaignPerformanceByLocationFields: seq<string> :=
    ["campaign_criterion.location.geo_target_constant", "campaign.name", "campaign_criterion.bid_modifier",
     "segments.date", "metrics.clicks", "metrics.impressions", "metrics.ctr", "metrics.average_cpc",
     "metrics.cost_micros"]
  const GeoPerformanceFields: seq<string> :=
    ["campaign.name", "campaign.status", "segments.date", "metrics.clicks", "metrics.cost_micros",
     "metrics.impressions", "metrics.conversions", "geographic_view.location_type",
     "geographic_view.country_criterion_id"]
  const AssetGroupPerformanceFields: seq<string> :=
    ["customer.id", "campaign.id", "campaign.name", "campaign.status", "asset_group.id", "asset_group.name",
     "asset_group.status", "metrics.impressions", "metrics.clicks", "metrics.cost_micros",
     "metrics.conversions", "metrics.conversions_by_conversion_date", "metrics.conversions_value",
     "metrics.conversions_value_by_conversion_date", "metrics.interactions", "segments.date"]

  /** The `gaql` template of each stream. */
  function TemplateOf(k: StreamKind): (t: Template)
    requires HasQuery(k)
    ensures |t.fields| > 0 && t.resource != ""
    ensures t.clause.DateWindow? ==> IsReport(k)
  {
    match k
    case CustomerHierarchyStream =>
      Template(CustomerHierarchyStreamFields, "customer_client", Where("customer_client.level <= 1"), "")
    case GeotargetsStream =>
      Template(GeotargetsStreamFields,
        "geo_target_constant", NoWhere, "")
    case CampaignsStream =>
      Template(CampaignsStreamFields, "campaign", NoWhere, "campaign.id")
    case AdGroupsStream =>
      Template(AdGroupsStreamFields, "ad_group", NoWhere, "")
    case AdsStream =>
      Template(AdsStreamFields, "ad_group_ad", NoWhere, "")
    case AdsPerformance =>
      Template(AdsPerformanceFields,
        "ad_group_ad", DateWindow(Lookback, "and", ""), "")
    case AdGroupsPerformance =>
      Template(AdGroupsPerformanceFields, "ad_group", DateWindow(Lookback, "and", ""), "")
    case AdGroupsHourlyPerformance =>
      Template(AdGroupsHourlyPerformanceFields,
        "ad_group", DateWindow(Lookback, "and", ""), "")
    case CampaignPerformance =>
      Template(CampaignPerformanceFields,
        "campaign", DateWindow(Lookback, "and", ""), "")
    case CampaignHourlyPerformance =>
      Template(CampaignHourlyPerformanceFields,
        "campaign", DateWindow(Lookback, "and", ""), "")
    case CampaignPerformanceByAgeRangeAndDevice =>
      Template(CampaignPerformanceByAgeRangeAndDeviceFields, "age_range_view", DateWindow(ClientStart, "and", ""), "")
    case CampaignPerformanceByGenderAndDevice =>
      Template(CampaignPerformanceByGenderAndDeviceFields, "gender_view", DateWindow(ClientStart, "and", ""), "")
    case CampaignPerformanceByLocation =>
      Template(CampaignPerformanceByLocationFields, "location_view",
        DateWindow(ClientStart, "and", " AND campaign_criterion.status != 'REMOVED'"), "")
    case GeoPerformance =>
      Template(GeoPerformanceFields, "geographic_view", DateWindow(ClientStart, "and", ""), "")
    case AssetGroupPerformance =>
      Template(AssetGroupPerformanceFields,
        "asset_group", DateWindow(Lookback, "AND", ""), "segments.date")
  }

  /**
   * The inline start date of the performance reports:
   * `datetime.now() - timedelta(days=interval)` written as `'YYYY-MM-DD'`.
   * It fails where Python raises: no interval configured (TypeError), or a
   * start date outside the years 1 .. 9999 (OverflowError). Otherwise it is
   * a 12-character literal, quoted at both ends, whose date lies exactly
   * `interval` days before today.
   */
  function StartDateLiteral(today: Date, intervalDays: Option<int>): (r: Result<string, RenderError>)
    requires ValidDate(today)
    ensures intervalDays.None? ==> r == Err(IntervalDaysMissing)
    ensures intervalDays.Some? ==>
      (r.Ok? <==> 1 <= ToOrdinal(today) - intervalDays.value <= MaxOrdinal)
    ensures intervalDays.Some? && r.Err? ==> r.error == StartDateOverflow
    ensures r.Ok? ==>
      |r.value| == 12 && r.value[0] == '\'' && r.value[11] == '\''
      && ParseIsoDate(r.value[1..11]).Some?
      && ToOrdinal(ParseIsoDate(r.value[1..11]).value) == ToOrdinal(today) - intervalDays.value
  {
    match intervalDays
    case None => Err(IntervalDaysMissing)
    case Some(n) =>
      match MinusDays(today, n)
      case None => Err(StartDateOverflow)
      case Some(start) =>
        var lit := "'" + FormatIsoDate(start) + "'";
        assert lit[1..11] == FormatIsoDate(start);
        IsoDateRoundTrip(start);
        Ok(lit)
  }

  /** With a 30-day lookback, on 2024-03-10 the literal is `'2024-02-09'` (across the leap day). */
  lemma StartDateExample()
    ensures StartDateLiteral(Date(2024, 3, 10), Some(30)) == Ok("'2024-02-09'")
  {
    assert ToOrdinal(Date(2024, 3, 10)) == 738955;
    assert ToOrdinal(Date(2024, 2, 9)) == 738925;
    DateRoundTrip(Date(2024, 2, 9));
    assert MinusDays(Date(2024, 3, 10), 30) == Some(Date(2024, 2, 9));
    assert FormatIsoDate(Date(2024, 2, 9)) == "2024-02-09";
    assert "'" + "2024-02-09" + "'" == "'2024-02-09'";
  }

  /** The range filter of a dated query. */
  function RangeFilter(start: string, conj: string, end: string): string {
    "segments.date >= " + start + " " + conj + " segments.date <= " + end
  }

  function ClauseText(c: Clause, start: string, end: string): string {
    match c
    case NoWhere => ""
    case Where(condition) => " WHERE " + condition
    case DateWindow(_, conj, extra) => " WHERE " + RangeFilter(start, conj, end) + extra
  }

  function OrderText(orderBy: string): string {
    if orderBy == "" then "" else " ORDER BY " + orderBy
  }

  /** Fills a template's date slots with the given start and end literals. */
  function Render(t: Template, start: string, end: string): string {
    "SELECT " + Join(t.fields) + " FROM " + t.resource + ClauseText(t.clause, start, end) + OrderText(t.orderBy)
  }

  /** The start literal a dated template takes: the inline lookback date or the client's `start_date`. */
  function StartOf(b: StartBound, config: Config, today: Date, window: ClientWindow): Result<string, RenderError>
    requires ValidDate(today)
  {
    match b
    case Lookback => StartDateLiteral(today, config.reportIntervalDays)
    case ClientStart => Ok(window.startDate)
  }

  /**
   * The stream's `gaql` property. Only the inline start date can fail; the
   * error is then the one of the start date.
   */
  function Gaql(k: StreamKind, config: Config, today: Date, window: ClientWindow): (r: Result<string, RenderError>)
    requires HasQuery(k) && ValidDate(today)
    ensures r.Err? <==> TemplateOf(k).clause.DateWindow? && TemplateOf(k).clause.start.Lookback?
                        && StartDateLiteral(today, config.reportIntervalDays).Err?
    ensures r.Err? ==> r == StartDateLiteral(today, config.reportIntervalDays)
  {
    var t := TemplateOf(k);
    match t.clause
    case DateWindow(b, _, _) =>
      (match StartOf(b, config, today, window)
       case Err(e) => Err(e)
       case Ok(start) => Ok(Render(t, start, window.endDate)))
    case _ => Ok(Render(t, "", window.endDate))
  }

  /** `s` occurs in `text` starting at index `i`. */
  predicate OccursAt(text: string, s: string, i: int) {
    0 <= i <= |text| - |s| && text[i..i + |s|] == s
  }

  /** `s` occurs in `text` as a contiguous piece. */
  ghost predicate Contains(text: string, s: string) {
    exists i :: OccursAt(text, s, i)
  }

  /** A rendered dated template holds its range filter right after `WHERE`. */
  lemma RenderedRangeFilter(t: Template, start: string, end: string)
    requires t.clause.DateWindow?
    ensures OccursAt(Render(t, start, end), RangeFilter(start, t.clause.conj, end),
                     |"SELECT " + Join(t.fields) + " FROM " + t.resource + " WHERE "|)
  {
    var head := "SELECT " + Join(t.fields) + " FROM " + t.resource + " WHERE ";
    var filter := RangeFilter(start, t.clause.conj, end);
    assert ClauseText(t.clause, start, end) == " WHERE " + filter + t.clause.extra;
    assert Render(t, start, end) == head + filter + (t.clause.extra + OrderText(t.orderBy));
    OccursAfter(head, filter, t.clause.extra + OrderText(t.orderBy));
  }

  /** The middle piece of a three-piece concatenation occurs right after the first. */
  lemma OccursAfter(head: string, s: string, tail: string)
    ensures OccursAt(head + s + tail, s, |head|)
  {
    assert (head + s + tail)[|head|..|head| + |s|] == s;
  }

  /**
   * Every dated query carries the range filter with its start literal
   * substituted verbatim: the inline lookback literal for the performance
   * reports, the client's `start_date` for the others; the end is always
   * the client's `end_date`.
   */
  lemma GaqlRangeFilter(k: StreamKind, config: Config, today: Date, window: ClientWindow)
    requires HasQuery(k) && ValidDate(today)
    requires TemplateOf(k).clause.DateWindow?
    requires Gaql(k, config, today, window).Ok?
    ensures var c := TemplateOf(k).clause;
      var start := if c.start.Lookback? then StartDateLiteral(today, config.reportIntervalDays).value
                   else window.startDate;
      Contains(Gaql(k, config, today, window).value, RangeFilter(start, c.conj, window.endDate))
  {
    var t := TemplateOf(k);
    var start := StartOf(t.clause.start, config, today, window).value;
    RenderedRangeFilter(t, start, window.endDate);
  }

  /** A stream's rows are keyed by date exactly when its query selects a date range. */
  lemma DatedStreamsKeyByDate(k: StreamKind)
    requires HasQuery(k)
    ensures TemplateOf(k).clause.DateWindow? <==> "segments__date" in PrimaryKeys(k)
  {
  }

  /** The report streams whose range filter starts at the inline lookback date. */
  lemma LookbackReports(k: StreamKind)
    requires HasQuery(k)
    ensures (TemplateOf(k).clause.DateWindow? && TemplateOf(k).clause.start.Lookback?)
        <==> k in {AdsPerformance, AdGroupsPerformance, AdGroupsHourlyPerformance, CampaignPerformance,
                   CampaignHourlyPerformance, AssetGroupPerformance}
  {
  }

  // ---------------------------------------------------------------------
  // Request paths.

  /** `str(value)` in an f-string: a missing configuration value prints as `None`. */
  function ConfigText(v: Option<string>): string {
    match v
    case Some(s) => s
    case None => "None"
  }

  const SearchEndpoint: string := "/googleAds:search"
  const AccessibleCustomersPath: string := "/customers:listAccessibleCustomers"

  /** `"/customers/" + customer_id + "/googleAds:search"`, the stem of every search path. */
  function SearchStem(config: Config): string {
    "/customers/" + ConfigText(config.customerId) + SearchEndpoint
  }

  /** The query-string suffix a stream appends to the stem. */
  function QueryPrefix(k: StreamKind): string {
    if k.GeotargetsStream? then "?pageSize=10000&query=" else "?query="
  }

  /**
   * The stream's `path` property: AccessibleCustomers has a fixed path; the
   * others append their rendered query to the search stem, and fail where
   * their query fails.
   */
  function Path(k: StreamKind, config: Config, today: Date, window: ClientWindow): (r: Result<string, RenderError>)
    requires ValidDate(today)
    ensures !HasQuery(k) ==> r == Ok(AccessibleCustomersPath)
    ensures HasQuery(k) ==> (r.Err? <==> Gaql(k, config, today, window).Err?)
  {
    if !HasQuery(k) then Ok(AccessibleCustomersPath)
    else
      match Gaql(k, config, today, window)
      case Err(e) => Err(e)
      case Ok(q) => Ok(SearchStem(config) + QueryPrefix(k) + q)
  }

  /**
   * Layout of every search path: it starts with `/customers/` and the
   * configured id, continues with `/googleAds:search`, then asks for pages
   * of 10000 rows when it is GeotargetsStream's, and ends with the stream's
   * query text.
   */
  lemma PathLayout(k: StreamKind, config: Config, today: Date, window: ClientWindow)
    requires ValidDate(today) && HasQuery(k)
    requires Path(k, config, today, window).Ok?
    ensures var p := Path(k, config, today, window).value;
      var id := ConfigText(config.customerId);
      var q := Gaql(k, config, today, window).value;
      var pre := if k.GeotargetsStream? then "?pageSize=10000&query=" else "?query=";
      |p| == 11 + |id| + |SearchEndpoint| + |pre| + |q|
      && p[..11] == "/customers/"
      && p[11..11 + |id|] == id
      && p[11 + |id|..11 + |id| + |SearchEndpoint|] == SearchEndpoint
      && p[11 + |id| + |SearchEndpoint|..|p| - |q|] == pre
      && p[|p| - |q|..] == q
  {
    var p := Path(k, config, today, window).value;
    var id := ConfigText(config.customerId);
    var q := Gaql(k, config, today, window).value;
    assert p == "/customers/" + id + SearchEndpoint + QueryPrefix(k) + q;
    ConcatSlices("/customers/", id, SearchEndpoint, QueryPrefix(k), q);
  }

  /** Where each piece of a five-piece concatenation lies in the result. */
  lemma ConcatSlices(a: string, b: string, c: string, d: string, e: string)
    ensures var p := a + b + c + d + e;
      |p| == |a| + |b| + |c| + |d| + |e|
      && p[..|a|] == a
      && p[|a|..|a| + |b|] == b
      && p[|a| + |b|..|a| + |b| + |c|] == c
      && p[|a| + |b| + |c|..|p| - |e|] == d
      && p[|p| - |e|..] == e
  {
    var p := a + b + c + d + e;
    assert p == (a + b + c + d) + e;
    assert p == (a + b + c) + d + e;
    assert p == (a + b) + c + (d + e);
    assert p == a + b + (c + d + e);
  }
}
