/** The wrapper's default dimensions (MetricWrapper.java:121-163) and the dimension list it
    attaches to every datapoint (MetricWrapper.java:91-97). */
module Dimensions {
  import opened Options
  import Regions

  /** A protobuf `Dimension`: one key/value label. */
  datatype Dimension = Dimension(key: string, value: string)

  const Undefined := "undefined"

  const RegionKey := "azure_region"
  const FunctionNameKey := "azure_function_name"
  const ResourceNameKey := "azure_resource_name"
  const WrapperVersionKey := "function_wrapper_version"
  const IsAzureFunctionKey := "is_Azure_Function"
  const MetricSourceKey := "metric_source"

  const DefaultKeys: set<string> :=
    {RegionKey, FunctionNameKey, ResourceNameKey, WrapperVersionKey, IsAzureFunctionKey, MetricSourceKey}

  const RegionWarning := "region undefined"
  const FunctionNameWarning := "function name undefined"
  const ResourceNameWarning := "azure resource name undefined"

  /** What `getDefaultDimensions` reads, a Java `null` as `None`: the context's function name,
      the variables `WEBSITE_SITE_NAME`, `APP_POOL_ID` and `REGION_NAME`, and the wrapper's
      version string from its properties file. */
  datatype Sources = Sources(
    functionName: Option<string>,
    websiteSiteName: Option<string>,
    appPoolId: Option<string>,
    regionName: Option<string>,
    wrapperVersion: Option<string>)

  /** The label value of a source: the source itself, or "undefined" when it is null or empty. */
  function OrUndefined(s: Option<string>): string {
    if NullOrEmpty(s) then Undefined else s.value
  }

  /** The default label map and the warnings logged while computing it, in logging order. */
  datatype Defaults = Defaults(labels: map<string, string>, warnings: seq<string>)

  /** `getDefaultDimensions`. Each of the first four labels takes its source when that is
      neither null nor empty and "undefined" otherwise; the region goes through the region
      table first; the resource name prefers `WEBSITE_SITE_NAME` to `APP_POOL_ID`; a warning is
      logged once for each of region, function name and resource name that falls back. */
  function DefaultDimensions(src: Sources): (d: Defaults)
    ensures d.labels.Keys == DefaultKeys
    ensures d.labels[IsAzureFunctionKey] == "true"
    ensures d.labels[MetricSourceKey] == "azure_function_wrapper"
    ensures !NullOrEmpty(Regions.RegionName(src.regionName)) ==> d.labels[RegionKey] == Regions.RegionName(src.regionName).value
    ensures NullOrEmpty(Regions.RegionName(src.regionName)) ==> d.labels[RegionKey] == Undefined
    ensures !NullOrEmpty(src.functionName) ==> d.labels[FunctionNameKey] == src.functionName.value
    ensures NullOrEmpty(src.functionName) ==> d.labels[FunctionNameKey] == Undefined
    ensures !NullOrEmpty(src.websiteSiteName) ==> d.labels[ResourceNameKey] == src.websiteSiteName.value
    ensures NullOrEmpty(src.websiteSiteName) && !NullOrEmpty(src.appPoolId) ==> d.labels[ResourceNameKey] == src.appPoolId.value
    ensures NullOrEmpty(src.websiteSiteName) && NullOrEmpty(src.appPoolId) ==> d.labels[ResourceNameKey] == Undefined
    ensures !NullOrEmpty(src.wrapperVersion) ==> d.labels[WrapperVersionKey] == src.wrapperVersion.value
    ensures NullOrEmpty(src.wrapperVersion) ==> d.labels[WrapperVersionKey] == Undefined
    ensures d.warnings ==
      (if NullOrEmpty(Regions.RegionName(src.regionName)) then [RegionWarning] else []) +
      (if NullOrEmpty(src.functionName) then [FunctionNameWarning] else []) +
      (if NullOrEmpty(src.websiteSiteName) && NullOrEmpty(src.appPoolId) then [ResourceNameWarning] else [])
  {
    var region := Regions.RegionName(src.regionName);
    var resource := if !NullOrEmpty(src.websiteSiteName) then src.websiteSiteName else src.appPoolId;
    var labels := map[
      RegionKey := OrUndefined(region),
      FunctionNameKey := OrUndefined(src.functionName),
      ResourceNameKey := OrUndefined(resource),
      WrapperVersionKey := OrUndefined(src.wrapperVersion),
      IsAzureFunctionKey := "true",
      MetricSourceKey := "azure_function_wrapper"];
    var warnings :=
      (if NullOrEmpty(region) then [RegionWarning] else []) +
      (if NullOrEmpty(src.functionName) then [FunctionNameWarning] else []) +
      (if NullOrEmpty(resource) then [ResourceNameWarning] else []);
    Defaults(labels, warnings)
  }

  /** Every logged warning is one of the three fallback notices. */
  lemma WarningsAreFallbackNotices(src: Sources)
    ensures forall i :: 0 <= i < |DefaultDimensions(src).warnings| ==>
      DefaultDimensions(src).warnings[i] in {RegionWarning, FunctionNameWarning, ResourceNameWarning}
  {
  }

  /** No label value is ever empty: an empty source is replaced by "undefined". */
  lemma LabelsNeverEmpty(src: Sources)
    ensures forall k :: k in DefaultDimensions(src).labels ==> DefaultDimensions(src).labels[k] != ""
  {
  }

  /** `APP_POOL_ID` is never consulted when `WEBSITE_SITE_NAME` is set: changing it changes no
      label and no warning. */
  lemma SecondaryResourceNameUnused(src: Sources, appPoolId: Option<string>)
    requires !NullOrEmpty(src.websiteSiteName)
    ensures DefaultDimensions(src.(appPoolId := appPoolId)) == DefaultDimensions(src)
  {
  }

  /** A region missing from the table is labelled "undefined" and warned about, whatever its
      text, the empty string included. */
  lemma UnknownRegionUndefined(src: Sources)
    requires src.regionName.None? || !Regions.Known(src.regionName.value)
    ensures DefaultDimensions(src).labels[RegionKey] == Undefined
    ensures RegionWarning in DefaultDimensions(src).warnings
  {
  }

  /** Each warning is logged at most once, and only the three fallbacks log anything: a missing
      wrapper version is silent. */
  lemma WarningsOncePerFallback(src: Sources)
    ensures |DefaultDimensions(src).warnings| <= 3
    ensures forall i, j :: 0 <= i < j < |DefaultDimensions(src).warnings| ==>
      DefaultDimensions(src).warnings[i] != DefaultDimensions(src).warnings[j]
    ensures DefaultDimensions(src).warnings == DefaultDimensions(src.(wrapperVersion := None)).warnings
  {
  }

  /** A fully configured host in "East US 2": every label takes its source and nothing is
      warned about. */
  lemma EastUs2Example(version: Option<string>)
    ensures var d := DefaultDimensions(Sources(Some("Hello-SignalFx"), Some("myapp"), None, Some("East US 2"), version));
      && d.labels[RegionKey] == "eastus2"
      && d.labels[ResourceNameKey] == "myapp"
      && d.labels[FunctionNameKey] == "Hello-SignalFx"
      && d.labels[IsAzureFunctionKey] == "true"
      && d.labels[MetricSourceKey] == "azure_function_wrapper"
      && d.warnings == []
  {
    Regions.KnownRegionsHaveTheirSlug();
    assert Regions.Table[0] == Regions.Region("East US 2", "eastus2");
  }

  /** `order` lists every key of `keys` exactly once: the iteration order of a `HashMap`,
      which Java leaves unspecified. */
  predicate Enumerates(order: seq<string>, keys: set<string>) {
    && (forall i, j :: 0 <= i < j < |order| ==> order[i] != order[j])
    && (forall i :: 0 <= i < |order| ==> order[i] in keys)
    && (forall k :: k in keys ==> k in order)
  }

  /** An enumeration of a set is as long as the set is large. */
  lemma {:induction false} EnumerationLength(order: seq<string>, keys: set<string>)
    requires Enumerates(order, keys)
    ensures |order| == |keys|
    decreases |order|
  {
    if |order| > 0 {
      var rest := order[1..];
      assert Enumerates(rest, keys - {order[0]}) by {
        forall k ensures k in rest <==> k in keys - {order[0]} {
          if k in rest {
            var i :| 0 <= i < |rest| && rest[i] == k;
            assert order[i + 1] == k;
          }
          if k in keys - {order[0]} {
            var i :| 0 <= i < |order| && order[i] == k;
            assert rest[i - 1] == k;
          }
        }
      }
      EnumerationLength(rest, keys - {order[0]});
    } else {
      assert forall k :: k !in keys;
      assert keys == {};
    }
  }

  /** The wrapper's dimension list: the default labels in map iteration order, then the
      caller's dimensions verbatim, with no deduplication; a null caller list adds nothing. */
  function MergeDimensions(labels: map<string, string>, order: seq<string>, extra: Option<seq<Dimension>>): (dims: seq<Dimension>)
    requires Enumerates(order, labels.Keys)
    ensures |dims| == |labels| + |extra.GetOr([])|
    ensures forall k :: k in labels ==> Dimension(k, labels[k]) in dims[..|labels|]
    ensures forall i :: 0 <= i < |labels| ==> dims[i].key in labels && dims[i].value == labels[dims[i].key]
    ensures forall i, j :: 0 <= i < j < |labels| ==> dims[i].key != dims[j].key
    ensures dims[|labels|..] == extra.GetOr([])
  {
    EnumerationLength(order, labels.Keys);
    var defaults := seq(|order|, i requires 0 <= i < |order| => Dimension(order[i], labels[order[i]]));
    assert forall k :: k in labels ==> Dimension(k, labels[k]) in defaults by {
      forall k | k in labels ensures Dimension(k, labels[k]) in defaults {
        var i :| 0 <= i < |order| && order[i] == k;
        assert defaults[i] == Dimension(k, labels[k]);
      }
    }
    defaults + extra.GetOr([])
  }

  /** The six keys are distinct, so every wrapper's list starts with exactly six defaults. */
  lemma SixDefaultKeys()
    ensures |DefaultKeys| == 6
  {
  }
}
