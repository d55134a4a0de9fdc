/**
 * The records the boilerplate reads and writes: its settings, the responses of
 * the portal and of item requests (inputs of the model), the `results` object
 * it fills, and the parts of the global request configuration it sets.
 */
module BoilerplateModel {
  import opened JsValues

  /** `settings.webscene` / `settings.webmap`. */
  datatype FetchSettings = FetchSettings(fetch: bool, useLocal: bool, localFile: string)

  /** `settings.group`; `itemParams` may be absent. */
  datatype GroupSettings = GroupSettings(fetchInfo: bool, fetchItems: bool, itemParams: Option<map<string, Value>>)

  /** The boilerplate settings after the defaults were mixed in. */
  datatype Settings = Settings(
    webscene: FetchSettings,
    webmap: FetchSettings,
    group: GroupSettings,
    portalFetch: bool,
    urlItems: seq<string>,
    esriEnvironment: bool,
    webTierSecurity: bool)

  /** What the page tells the boilerplate: `location.search`, `pathname`, `host`, and `kernel.locale`. */
  datatype Environment = Environment(search: string, pathname: string, host: string, locale: string)

  /** `response.user` of the portal self request. */
  datatype User = User(units: Option<Value>, region: Option<Value>, roleId: Option<Value>, privileges: Option<Value>)

  /** The loaded portal: the fields the boilerplate reads. */
  datatype PortalResponse = PortalResponse(
    user: Option<User>,
    units: Option<Value>,
    region: Option<Value>,
    ipCntryCode: Option<Value>,
    authorizedCrossOriginDomains: Option<seq<Value>>,
    helperServices: Option<Value>)

  /** One entry of `item.appProxies` of the application item. */
  datatype AppProxy = AppProxy(sourceUrl: Value, proxyUrl: Value)

  datatype AppItemInfo = AppItemInfo(extent: Option<Value>, appProxies: Option<seq<AppProxy>>)

  /** The loaded application item: its configured `values` and its `item` description. */
  datatype AppItem = AppItem(values: Option<map<string, Value>>, item: Option<AppItemInfo>)

  /** `results.applicationItem`. */
  datatype AppItemResult = AppItemResult(data: AppItem, config: map<string, Value>)

  /** A number produced by `parseFloat` from what was read; its value is not computed. */
  datatype Float = ParseFloat(arg: Option<Value>)

  /** An item's extent: as loaded, or as written by `_overwriteExtent`. */
  datatype Extent =
    | RawExtent(raw: Value)
    | ParsedExtent(xmin: Float, ymin: Float, xmax: Float, ymax: Float)
  {
    /** Truthiness of `item.extent`; the rewritten extent is an array. */
    predicate Truthy()
    {
      match this
      case RawExtent(v) => JsValues.Truthy(v)
      case ParsedExtent(_, _, _, _) => true
    }
  }

  datatype ItemInfo = ItemInfo(extent: Option<Extent>)

  /** A loaded web scene or web map portal item. */
  datatype ItemData = ItemData(title: Option<Value>, item: Option<ItemInfo>)

  /** `results.websceneItem` / `results.webmapItem`: `{}` then `json` or `data`. */
  datatype ItemRecord = ItemRecord(json: Option<Value>, data: Option<ItemData>)

  /** `results.group`: `{}` then `infoData` and `itemsData`. */
  datatype GroupRecord = GroupRecord(infoData: Option<Value>, itemsData: Option<Value>)

  /** The `results` object; `None` is a property never assigned. */
  datatype Results = Results(
    urlParams: Option<map<string, Value>>,
    applicationItem: Option<AppItemResult>,
    portal: Option<PortalResponse>,
    webmapItem: Option<ItemRecord>,
    websceneItem: Option<ItemRecord>,
    group: Option<GroupRecord>)

  const NoResults := Results(None, None, None, None, None, None)

  /** `this.portal`: `null`, or the loading portal, whose `helperServices` appear once it loaded. */
  datatype PortalState = NoPortal | PortalObject(helperServices: Option<Value>)

  /** One entry of `esriConfig.request.corsEnabledServers`. */
  datatype CorsServer = CorsServer(host: Value, withCredentials: bool)

  /** The parts of the global `esriConfig` the boilerplate sets. */
  datatype RequestConfig = RequestConfig(
    portalUrl: Option<Value>,
    proxyUrl: Option<Value>,
    corsEnabledServers: seq<CorsServer>,
    geometryServiceUrl: Option<Value>)
}
