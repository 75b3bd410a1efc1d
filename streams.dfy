/**
 * The stream classes of `tap_googleads/streams.py` as data: one constructor
 * per class, and the class attributes `name`, `primary_keys` and
 * `parent_stream_type` as functions of it. Also the tap configuration the
 * streams read.
 */
module Streams {
  import opened Wrappers

  /** One constructor per stream class defined in streams.py. */
  datatype StreamKind =
    | AccessibleCustomers
    | CustomerHierarchyStream
    | GeotargetsStream
    | CampaignsStream
    | AdGroupsStream
    | AdsStream
    | AdsPerformance
    | AdGroupsPerformance
    | AdGroupsHourlyPerformance
    | CampaignPerformance
    | CampaignHourlyPerformance
    | CampaignPerformanceByAgeRangeAndDevice
    | CampaignPerformanceByGenderAndDevice
    | CampaignPerformanceByLocation
    | GeoPerformance
    | AssetGroupPerformance

  /** The subclasses of `ReportsStream`. */
  predicate IsReport(k: StreamKind) {
    !(k.AccessibleCustomers? || k.CustomerHierarchyStream? || k.GeotargetsStream?)
  }

  /**
   * The configuration values the streams read with `config.get`; either may
   * be absent, in which case `get` gives None.
   */
  datatype Config = Config(customerId: Option<string>, reportIntervalDays: Option<int>)

  /** How many parent links separate a stream from the root of its tree. */
  function Depth(k: StreamKind): nat {
    if k.AccessibleCustomers? || k.GeotargetsStream? then 0
    else if k.CustomerHierarchyStream? then 1
    else 2
  }

  /**
   * `parent_stream_type`: AccessibleCustomers declares none and
   * GeotargetsStream overrides it with None; the hierarchy stream hangs
   * below AccessibleCustomers and every report below the hierarchy stream.
   * Each parent link goes up exactly one level.
   */
  function ParentKind(k: StreamKind): (p: Option<StreamKind>)
    ensures p.None? <==> Depth(k) == 0
    ensures p.Some? ==> Depth(p.value) + 1 == Depth(k)
    ensures k.CustomerHierarchyStream? ==> p == Some(AccessibleCustomers)
    ensures IsReport(k) ==> p == Some(CustomerHierarchyStream)
  {
    if k.AccessibleCustomers? || k.GeotargetsStream? then None
    else if k.CustomerHierarchyStream? then Some(AccessibleCustomers)
    else Some(CustomerHierarchyStream)
  }

  /** The stream's `name` attribute; every name carries the `stream_` prefix. */
  function Name(k: StreamKind): (n: string)
    ensures |n| > 7 && n[..7] == "stream_"
  {
    match k
    case AccessibleCustomers => "stream_accessible_customers"
    case CustomerHierarchyStream => "stream_customer_hierarchy"
    case GeotargetsStream => "stream_geo_target_constant"
    case CampaignsStream => "stream_campaign"
    case AdGroupsStream => "stream_adgroups"
    case AdsStream => "stream_ads"
    case AdsPerformance => "stream_adsperformance"
    case AdGroupsPerformance => "stream_adgroupsperformance"
    case AdGroupsHourlyPerformance => "stream_adgroupshourlyperformance"
    case CampaignPerformance => "stream_campaign_performance"
    case CampaignHourlyPerformance => "stream_campaign_hourly_performance"
    // The two longest names are written in two pieces, which the verifier can index into.
    case CampaignPerformanceByAgeRangeAndDevice => "stream_campaign_performance" + "_by_age_range_and_device"
    case CampaignPerformanceByGenderAndDevice => "stream_campaign_performance" + "_by_gender_and_device"
    case CampaignPerformanceByLocation => "stream_campaign_performance_by_location"
    case GeoPerformance => "stream_geo_performance"
    case AssetGroupPerformance => "stream_asset_group_performance"
  }

  /** The stream's `primary_keys` attribute: flattened field names, in order; never empty. */
  function PrimaryKeys(k: StreamKind): (keys: seq<string>)
    ensures |keys| > 0
  {
    match k
    case AccessibleCustomers => ["resource_names"]
    case CustomerHierarchyStream => ["customer_client__id"]
    case GeotargetsStream => ["geo_target_constant__id"]
    case CampaignsStream => ["campaign__id"]
    case AdGroupsStream => ["ad_group__id", "ad_group__campaign", "ad_group__status"]
    case AdsStream => ["campaign__id", "ad_group_ad__ad__id"]
    case AdsPerformance => ["campaign__id", "ad_group_ad__ad__id", "segments__date"]
    case AdGroupsPerformance => ["campaign__id", "ad_group__id", "segments__date"]
    case AdGroupsHourlyPerformance => ["campaign__id", "ad_group__id", "segments__date", "segments__hour"]
    case CampaignPerformance => ["campaign__name", "campaign__status", "segments__date", "segments__device"]
    case CampaignHourlyPerformance =>
      ["campaign__name", "campaign__status", "segments__date", "segments__hour", "segments__device"]
    case CampaignPerformanceByAgeRangeAndDevice =>
      ["ad_group_criterion__age_range__type", "campaign__name", "segments__date", "campaign__status", "segments__device"]
    case CampaignPerformanceByGenderAndDevice =>
      ["ad_group_criterion__gender__type", "campaign__name", "segments__date", "campaign__status", "segments__device"]
    case CampaignPerformanceByLocation =>
      ["campaign_criterion__location__geo_target_constant", "campaign__name", "segments__date"]
    case GeoPerformance => ["geographic_view__country_criterion_id", "customer_id", "campaign__name", "segments__date"]
    case AssetGroupPerformance => ["customer_id", "campaign__id", "asset_group__id", "segments__date"]
  }

  /** Distinct stream classes carry distinct names. */
  lemma NameInjective(k1: StreamKind, k2: StreamKind)
    requires Name(k1) == Name(k2)
    ensures k1 == k2
  {
    // One case per class keeps each comparison to sixteen names.
    match k1
    case AccessibleCustomers =>
    case CustomerHierarchyStream =>
    case GeotargetsStream =>
    case CampaignsStream =>
    case AdGroupsStream =>
    case AdsStream =>
    case AdsPerformance =>
    case AdGroupsPerformance =>
    case AdGroupsHourlyPerformance =>
    case CampaignPerformance =>
    case CampaignHourlyPerformance =>
    case CampaignPerformanceByAgeRangeAndDevice =>
    case CampaignPerformanceByGenderAndDevice =>
    case CampaignPerformanceByLocation =>
    case GeoPerformance =>
    case AssetGroupPerformance =>
  }

  /** Every stream declares a non-empty primary key with no field named twice. */
  lemma PrimaryKeysWellFormed(k: StreamKind)
    ensures forall i, j :: 0 <= i < j < |PrimaryKeys(k)| ==> PrimaryKeys(k)[i] != PrimaryKeys(k)[j]
  {
  }
}
