/**
 * The `Boilerplate` object: its fields and the steps of `_init` that update them.
 * Remote responses are parameters of the steps that receive them; the two
 * asynchronous phases run one after the other.
 */
module Boilerplate {
  import opened JsValues
  import opened QueryString
  import opened BoilerplateModel
  import opened ConfigRules

  /** The fields of the object, read together. */
  datatype BoilerplateState = BoilerplateState(
    config: map<string, Value>,
    results: Results,
    portal: PortalState,
    direction: Option<string>,
    units: Option<Value>,
    userPrivileges: Option<Value>,
    request: RequestConfig)

  /** How `_init` ends: both phases ran, or a step threw and the chain stopped. */
  datatype InitResult =
    | Completed(phase1: seq<Outcome>, phase2: seq<Outcome>)
    | Aborted(error: Error)

  const ApplicationFailure := "Error retrieving application configuration."
  const PortalFailure := "Error retrieving organization information."
  const GroupInfoFailure := "Error retrieving group info."
  const GroupItemsFailure := "Error retrieving group items."

  /** Neither item record holds both `json` and `data`. */
  predicate ItemsConsistent(results: Results)
  {
    (results.websceneItem.Some? ==> !(results.websceneItem.value.json.Some? && results.websceneItem.value.data.Some?)) &&
    (results.webmapItem.Some? ==> !(results.webmapItem.value.json.Some? && results.webmapItem.value.data.Some?))
  }

  //--------------------------------------------------------------------------
  //  _completeApplication: the application extent
  //--------------------------------------------------------------------------

  /**
   * The extent part of `_completeApplication` as written: it reads
   * `results.websceneItem.data` and `results.webmapItem.data` whenever the application
   * has an extent, and a record that was never assigned makes that read throw.
   */
  function CompleteExtentAsWritten(config: map<string, Value>, results: Results): (r: Result<Results>)
    ensures !WantsExtent(config) ==> r == Ok(results)
    ensures WantsExtent(config) && results.websceneItem.None? ==> r == Threw(TypeError)
  {
    if !WantsExtent(config) then Ok(results)
    else
      var extent := config["application_extent"];
      if results.websceneItem.None? then Threw(TypeError)
      else
        var scene := OverwriteExtent(results.websceneItem.value.data, extent);
        if scene.Threw? then Threw(scene.error)
        else if results.webmapItem.None? then Threw(TypeError)
        else
          var map_ := OverwriteExtent(results.webmapItem.value.data, extent);
          if map_.Threw? then Threw(map_.error)
          else
            Ok(results.(websceneItem := Some(results.websceneItem.value.(data := scene.value)),
                        webmapItem := Some(results.webmapItem.value.(data := map_.value))))
  }

  /** An application with an extent, as the application item leaves it in the configuration. */
  const ExampleConfig: map<string, Value> := map[
    "appid" := Str("app"),
    "application_extent" := List([List([Num(1), Num(2)]), List([Num(3), Num(4)])])]

  /**
   * When `_completeApplication` runs, only `urlParams`, `applicationItem` and `portal`
   * have been assigned; with an application extent the as-written step throws.
   */
  lemma CompleteExtentAsWrittenThrows(urlParams: Option<map<string, Value>>, app: Option<AppItemResult>, portal: Option<PortalResponse>)
    ensures CompleteExtentAsWritten(ExampleConfig, Results(urlParams, app, portal, None, None, None)) == Threw(TypeError)
  {
    assert WantsExtent(ExampleConfig);
  }

  /** `_overwriteExtent` on an item record that may not exist (corrected: a missing one is skipped). */
  function OverwriteRecord(record: Option<ItemRecord>, extent: Value): (r: Result<Option<ItemRecord>>)
    ensures record.None? ==> r == Ok(None)
    ensures r.Threw? ==> record.Some? && HasExtent(record.value.data) && ParseExtent(extent).Threw?
    ensures r.Ok? ==> (r.value.Some? <==> record.Some?)
    ensures r.Ok? && record.Some? ==>
              r.value.value.json == record.value.json &&
              OverwriteExtent(record.value.data, extent) == Ok(r.value.value.data)
  {
    match record
    case None => Ok(None)
    case Some(rec) =>
      match OverwriteExtent(rec.data, extent)
      case Threw(e) => Threw(e)
      case Ok(d) => Ok(Some(rec.(data := d)))
  }

  /**
   * The extent step as intended: run once the item records are filled, rewrite the
   * extent of every loaded item that has one, and skip records that do not exist.
   */
  function ApplyApplicationExtent(config: map<string, Value>, results: Results): (r: Result<Results>)
    ensures !WantsExtent(config) ==> r == Ok(results)
    ensures results.websceneItem.None? && results.webmapItem.None? ==> r == Ok(results)
    ensures r.Threw? ==> WantsExtent(config) && ParseExtent(config["application_extent"]).Threw?
    ensures r.Ok? ==> r.value.(websceneItem := results.websceneItem, webmapItem := results.webmapItem) == results
    ensures r.Ok? && WantsExtent(config) && results.websceneItem.Some? ==>
              r.value.websceneItem.Some? &&
              OverwriteExtent(results.websceneItem.value.data, config["application_extent"]) == Ok(r.value.websceneItem.value.data)
    ensures r.Ok? && WantsExtent(config) && results.webmapItem.Some? ==>
              r.value.webmapItem.Some? &&
              OverwriteExtent(results.webmapItem.value.data, config["application_extent"]) == Ok(r.value.webmapItem.value.data)
    ensures r.Ok? && ItemsConsistent(results) ==> ItemsConsistent(r.value)
  {
    if !WantsExtent(config) then Ok(results)
    else
      var extent := config["application_extent"];
      var scene := OverwriteRecord(results.websceneItem, extent);
      var map_ := OverwriteRecord(results.webmapItem, extent);
      if scene.Threw? then Threw(scene.error)
      else if map_.Threw? then Threw(map_.error)
      else Ok(results.(websceneItem := scene.value, webmapItem := map_.value))
  }

  /** Wherever the code as written succeeds, the corrected step does the same. */
  lemma ApplyAgreesWhereAsWrittenSucceeds(config: map<string, Value>, results: Results)
    requires CompleteExtentAsWritten(config, results).Ok?
    ensures ApplyApplicationExtent(config, results) == CompleteExtentAsWritten(config, results)
  {
  }

  //--------------------------------------------------------------------------
  //  The steps of `_init`, on the fields
  //--------------------------------------------------------------------------

  /** The application layer: `results.applicationItem ? results.applicationItem.config : null`. */
  function AppLayerOf(results: Results): Option<map<string, Value>>
  {
    if results.applicationItem.Some? then Some(results.applicationItem.value.config) else None
  }

  /** The URL layer, `_getUrlParamValues(settings.urlItems)`. */
  function UrlLayer(settings: Settings, env: Environment): Option<map<string, Value>>
  {
    Some(UrlParamConfig(env.search, settings.urlItems))
  }

  /** `results.urlParams = {config: …}`. */
  function UrlParamsSet(st: BoilerplateState, settings: Settings, env: Environment): BoilerplateState
  {
    st.(results := st.results.(urlParams := UrlLayer(settings, env)))
  }

  /** `_mixinAllConfigs`: config <- application settings <- URL parameters. */
  function Merged(st: BoilerplateState): BoilerplateState
  {
    st.(config := MixinAll(st.config, AppLayerOf(st.results), st.results.urlParams))
  }

  /** The portal and proxy URLs `_initializeApplication` writes for an app hosted on a portal. */
  function HostedEdits(settings: Settings, env: Environment): map<string, Value>
  {
    var hosted := HostedPortal(env.pathname, env.host);
    if settings.esriEnvironment && hosted.Some?
    then map["portalUrl" := Str(hosted.value.0), "proxyUrl" := Str(hosted.value.1)]
    else map[]
  }

  /** `esriConfig.portalUrl = config.portalUrl`, and the proxy URL when the configuration has one. */
  function WithPortalUrls(request: RequestConfig, config: map<string, Value>): RequestConfig
  {
    request.(portalUrl := Get(config, "portalUrl"),
             proxyUrl := if IsSet(Get(config, "proxyUrl")) then Get(config, "proxyUrl") else request.proxyUrl)
  }

  /** `_initializeApplication`. */
  function Initialized(st: BoilerplateState, settings: Settings, env: Environment): BoilerplateState
  {
    var config := st.config + HostedEdits(settings, env);
    st.(config := config, request := WithPortalUrls(st.request, config))
  }

  /** `_setDirection`. */
  function DirectionSet(st: BoilerplateState, env: Environment): BoilerplateState
  {
    st.(direction := Some(Direction(env.locale)))
  }

  /** How a deferred that waits for one response settles. */
  function Settled<T>(response: Fetch<T>, failure: string): Outcome
  {
    match response
    case Loaded(_) => Resolved
    case Failed(reason) => Rejected(RejectionError(reason, failure))
  }

  /** `_queryApplicationItem`: with an `appid`, the loaded item becomes `results.applicationItem`. */
  function AppItemQueried(st: BoilerplateState, response: Fetch<AppItem>): BoilerplateState
  {
    if IsSet(Get(st.config, "appid")) && response.Loaded?
    then st.(results := st.results.(applicationItem := Some(AppItemRecord(response.value))))
    else st
  }

  function AppItemOutcome(config: map<string, Value>, response: Fetch<AppItem>): Outcome
  {
    if IsSet(Get(config, "appid")) then Settled(response, ApplicationFailure) else Resolved
  }

  /** The custom-role check: privileges are kept for a user with a defined role. */
  function Privileges(r: PortalResponse, current: Option<Value>): Option<Value>
  {
    if r.user.Some? && IsDefined(r.user.value.roleId) && IsSet(r.user.value.privileges)
    then r.user.value.privileges else current
  }

  /** The `corsEnabledServers` entries pushed for a loaded portal: none without web-tier security. */
  function TrustedHosts(settings: Settings, r: PortalResponse): seq<CorsServer>
  {
    if settings.webTierSecurity && r.authorizedCrossOriginDomains.Some?
    then CorsEntries(r.authorizedCrossOriginDomains.value)
    else []
  }

  /**
   * `_queryPortal`: a loaded portal gives the helper services, the units, the privileges,
   * `results.portal` and the trusted hosts; a failed one leaves a portal without helper services.
   */
  function PortalQueried(st: BoilerplateState, settings: Settings, env: Environment, response: Fetch<PortalResponse>): BoilerplateState
  {
    if !settings.portalFetch then st
    else
      match response
      case Loaded(r) =>
        st.(portal := PortalObject(r.helperServices),
            units := Some(Units(r, env.locale)),
            userPrivileges := Privileges(r, st.userPrivileges),
            results := st.results.(portal := Some(r)),
            request := st.request.(corsEnabledServers := st.request.corsEnabledServers + TrustedHosts(settings, r)))
      case Failed(_) => st.(portal := PortalObject(None))
  }

  function PortalOutcome(settings: Settings, response: Fetch<PortalResponse>): Outcome
  {
    if settings.portalFetch then Settled(response, PortalFailure) else Resolved
  }

  /** The geometry-service part of `_completeApplication`. */
  function GeometrySet(st: BoilerplateState): BoilerplateState
  {
    st.(request := st.request.(geometryServiceUrl :=
      GeometryServiceUrl(Get(st.config, "helperServices"), st.portal, st.request.geometryServiceUrl)))
  }

  /** The synchronous start of `_init`: URL parameters, first merge, portal URLs, direction. */
  function Started(st: BoilerplateState, settings: Settings, env: Environment): BoilerplateState
  {
    DirectionSet(Initialized(Merged(UrlParamsSet(st, settings, env)), settings, env), env)
  }

  /** The first phase: the start, both queries, the second merge and the geometry service. */
  function AfterPhase1(st: BoilerplateState, settings: Settings, env: Environment,
                       appItem: Fetch<AppItem>, portalResponse: Fetch<PortalResponse>): BoilerplateState
  {
    var started := Started(st, settings, env);
    GeometrySet(Merged(PortalQueried(AppItemQueried(started, appItem), settings, env, portalResponse)))
  }

  /** The deferreds of the first phase: the application item's, then the portal's. */
  function Phase1Outcomes(st: BoilerplateState, settings: Settings, env: Environment,
                          appItem: Fetch<AppItem>, portalResponse: Fetch<PortalResponse>): seq<Outcome>
  {
    [AppItemOutcome(Started(st, settings, env).config, appItem), PortalOutcome(settings, portalResponse)]
  }

  /**
   * After the first phase the configuration is the static configuration with the hosted-portal
   * URLs, overridden by the application item, overridden by the URL parameters; the results hold
   * the URL layer, the application item when one was loaded, and the portal when it loaded.
   */
  lemma AfterPhase1Layers(st: BoilerplateState, settings: Settings, env: Environment,
                          appItem: Fetch<AppItem>, portalResponse: Fetch<PortalResponse>)
    requires st.results.applicationItem.None?
    ensures var p := AfterPhase1(st, settings, env, appItem, portalResponse);
      && p.config == MixinAll(st.config + HostedEdits(settings, env), AppLayerOf(p.results), UrlLayer(settings, env))
      && p.results == st.results.(
           urlParams := UrlLayer(settings, env),
           applicationItem := if IsSet(Get(Started(st, settings, env).config, "appid")) && appItem.Loaded?
                              then Some(AppItemRecord(appItem.value)) else None,
           portal := if settings.portalFetch && portalResponse.Loaded? then Some(portalResponse.value) else st.results.portal)
  {
    var p := AfterPhase1(st, settings, env, appItem, portalResponse);
    MixinAllTwice(st.config, HostedEdits(settings, env), AppLayerOf(p.results), UrlLayer(settings, env));
  }

  /** The first phase takes the URL layer's value for every URL parameter. */
  lemma AfterPhase1UrlWins(st: BoilerplateState, settings: Settings, env: Environment,
                           appItem: Fetch<AppItem>, portalResponse: Fetch<PortalResponse>, k: string)
    requires st.results.applicationItem.None?
    requires k in UrlParamConfig(env.search, settings.urlItems)
    ensures var p := AfterPhase1(st, settings, env, appItem, portalResponse);
      k in p.config && p.config[k] == UrlParamConfig(env.search, settings.urlItems)[k]
  {
    AfterPhase1Layers(st, settings, env, appItem, portalResponse);
  }

  /** `_queryWebmapItem`: the record the query leaves, when it touches one. */
  function WebmapQueried(st: BoilerplateState, settings: Settings, localJson: Value, response: Fetch<ItemData>): BoilerplateState
  {
    var q := ItemQuery(settings.webmap, Get(st.config, "webmap"), localJson, DefaultWebmap, response, WebmapFailure).0;
    if q.Some? then st.(results := st.results.(webmapItem := q)) else st
  }

  /** `_queryWebsceneItem`: the record the query leaves, when it touches one. */
  function WebsceneQueried(st: BoilerplateState, settings: Settings, localJson: Value, response: Fetch<ItemData>): BoilerplateState
  {
    var q := ItemQuery(settings.webscene, Get(st.config, "webscene"), localJson, DefaultWebscene, response, WebsceneFailure).0;
    if q.Some? then st.(results := st.results.(websceneItem := q)) else st
  }

  /** Both item queries, the web map first. */
  function ItemsQueried(st: BoilerplateState, settings: Settings,
                        webmapJson: Value, webmapResponse: Fetch<ItemData>,
                        websceneJson: Value, websceneResponse: Fetch<ItemData>): BoilerplateState
  {
    WebsceneQueried(WebmapQueried(st, settings, webmapJson, webmapResponse), settings, websceneJson, websceneResponse)
  }

  function ItemOutcomes(config: map<string, Value>, settings: Settings,
                        webmapJson: Value, webmapResponse: Fetch<ItemData>,
                        websceneJson: Value, websceneResponse: Fetch<ItemData>): seq<Outcome>
  {
    [ItemQuery(settings.webmap, Get(config, "webmap"), webmapJson, DefaultWebmap, webmapResponse, WebmapFailure).1,
     ItemQuery(settings.webscene, Get(config, "webscene"), websceneJson, DefaultWebscene, websceneResponse, WebsceneFailure).1]
  }

  /** `_queryGroupInfo` and `queryGroupItems` query only with a group id and their setting. */
  predicate WantsGroupInfo(settings: Settings, config: map<string, Value>)
  {
    settings.group.fetchInfo && IsSet(Get(config, "group"))
  }

  predicate WantsGroupItems(settings: Settings, config: map<string, Value>)
  {
    settings.group.fetchItems && IsSet(Get(config, "group"))
  }

  /**
   * Both group queries: the error of the start that throws, with `results.group` as it left
   * it, or the outcomes of both deferreds with the one record both responses landed in.
   */
  function GroupQueried(st: BoilerplateState, settings: Settings, groupInfo: Fetch<Value>, groupItems: Fetch<Value>)
    : (Result<seq<Outcome>>, BoilerplateState)
  {
    var info := WantsGroupInfo(settings, st.config);
    var items := WantsGroupItems(settings, st.config);
    var reset := st.(results := st.results.(group := Some(GroupRecord(None, None))));
    if info && st.portal.NoPortal? then (Threw(TypeError), reset)
    else if items && GroupItemParams(settings.group.itemParams, None, st.config["group"]).Threw? then
      (Threw(GroupItemParams(settings.group.itemParams, None, st.config["group"]).error), reset)
    else if items && st.portal.NoPortal? then (Threw(TypeError), reset)
    else if !info && !items then (Ok([Resolved, Resolved]), st)
    else
      var record := GroupRecord(if info && groupInfo.Loaded? then Some(groupInfo.value) else None,
                                if items && groupItems.Loaded? then Some(groupItems.value) else None);
      (Ok([if info then Settled(groupInfo, GroupInfoFailure) else Resolved,
           if items then Settled(groupItems, GroupItemsFailure) else Resolved]),
       st.(results := st.results.(group := Some(record))))
  }

  /**
   * Although `queryGroupItems` resets `results.group` after `_queryGroupInfo` started, both
   * responses land in the record that is left.
   */
  lemma GroupResponsesLand(st: BoilerplateState, settings: Settings, info: Value, items: Value)
    requires WantsGroupInfo(settings, st.config) && WantsGroupItems(settings, st.config) && !st.portal.NoPortal?
    requires GroupItemParams(settings.group.itemParams, None, st.config["group"]).Ok?
    ensures GroupQueried(st, settings, Loaded(info), Loaded(items)) ==
            (Ok([Resolved, Resolved]), st.(results := st.results.(group := Some(GroupRecord(Some(info), Some(items))))))
  {
  }

  /**
   * The second phase: the item queries, the group queries, then the application extent. A start
   * that throws stops the chain; `Completed` carries the four outcomes of this phase.
   */
  function AfterPhase2(st: BoilerplateState, settings: Settings,
                       webmapJson: Value, webmapResponse: Fetch<ItemData>,
                       websceneJson: Value, websceneResponse: Fetch<ItemData>,
                       groupInfo: Fetch<Value>, groupItems: Fetch<Value>): (InitResult, BoilerplateState)
  {
    var items := ItemsQueried(st, settings, webmapJson, webmapResponse, websceneJson, websceneResponse);
    var group := GroupQueried(items, settings, groupInfo, groupItems);
    if group.0.Threw? then (Aborted(group.0.error), group.1)
    else
      match ApplyApplicationExtent(group.1.config, group.1.results)
      case Threw(e) => (Aborted(e), group.1)
      case Ok(rs) =>
        (Completed([], ItemOutcomes(st.config, settings, webmapJson, webmapResponse, websceneJson, websceneResponse) + group.0.value),
         group.1.(results := rs))
  }

  /**
   * The second phase changes only the item records and the group record, and keeps every
   * item record without both `json` and `data`.
   */
  lemma AfterPhase2Results(st: BoilerplateState, settings: Settings,
                           webmapJson: Value, webmapResponse: Fetch<ItemData>,
                           websceneJson: Value, websceneResponse: Fetch<ItemData>,
                           groupInfo: Fetch<Value>, groupItems: Fetch<Value>)
    ensures var p := AfterPhase2(st, settings, webmapJson, webmapResponse, websceneJson, websceneResponse, groupInfo, groupItems);
      && p.1.(results := st.results) == st
      && p.1.results.(webmapItem := st.results.webmapItem, websceneItem := st.results.websceneItem, group := st.results.group) == st.results
      && (ItemsConsistent(st.results) ==> ItemsConsistent(p.1.results))
      && (p.0.Completed? ==> |p.0.phase2| == 4)
  {
    var items := ItemsQueried(st, settings, webmapJson, webmapResponse, websceneJson, websceneResponse);
    ItemsQueriedConsistent(st, settings, webmapJson, webmapResponse, websceneJson, websceneResponse);
    GroupQueriedKeeps(items, settings, groupInfo, groupItems);
  }

  /** The group queries touch only `results.group`. */
  lemma GroupQueriedKeeps(st: BoilerplateState, settings: Settings, groupInfo: Fetch<Value>, groupItems: Fetch<Value>)
    ensures var g := GroupQueried(st, settings, groupInfo, groupItems);
      && g.1.(results := st.results) == st
      && g.1.results.(group := st.results.group) == st.results
      && (g.0.Ok? ==> |g.0.value| == 2)
  {
  }

  lemma ItemsQueriedConsistent(st: BoilerplateState, settings: Settings,
                               webmapJson: Value, webmapResponse: Fetch<ItemData>,
                               websceneJson: Value, websceneResponse: Fetch<ItemData>)
    ensures var p := ItemsQueried(st, settings, webmapJson, webmapResponse, websceneJson, websceneResponse);
      && p.(results := st.results) == st
      && p.results.(webmapItem := st.results.webmapItem, websceneItem := st.results.websceneItem) == st.results
      && (ItemsConsistent(st.results) ==> ItemsConsistent(p.results))
  {
    var mid := WebmapQueried(st, settings, webmapJson, webmapResponse);
    WebmapQueriedKeeps(st, settings, webmapJson, webmapResponse);
    WebsceneQueriedKeeps(mid, settings, websceneJson, websceneResponse);
  }

  /** The web map query touches only `results.webmapItem`, and never leaves both `json` and `data`. */
  lemma WebmapQueriedKeeps(st: BoilerplateState, settings: Settings, localJson: Value, response: Fetch<ItemData>)
    ensures var p := WebmapQueried(st, settings, localJson, response);
      && p.(results := st.results) == st
      && p.results.(webmapItem := st.results.webmapItem) == st.results
      && (ItemsConsistent(st.results) ==> ItemsConsistent(p.results))
  {
    RecordQueriedKeeps(settings.webmap, Get(st.config, "webmap"), localJson, DefaultWebmap, response, WebmapFailure);
  }

  /** The web scene query touches only `results.websceneItem`, and never leaves both `json` and `data`. */
  lemma WebsceneQueriedKeeps(st: BoilerplateState, settings: Settings, localJson: Value, response: Fetch<ItemData>)
    ensures var p := WebsceneQueried(st, settings, localJson, response);
      && p.(results := st.results) == st
      && p.results.(websceneItem := st.results.websceneItem) == st.results
      && (ItemsConsistent(st.results) ==> ItemsConsistent(p.results))
  {
    RecordQueriedKeeps(settings.webscene, Get(st.config, "webscene"), localJson, DefaultWebscene, response, WebsceneFailure);
  }

  lemma RecordQueriedKeeps(fs: FetchSettings, id: Option<Value>, localJson: Value, defaultJson: Value,
                           response: Fetch<ItemData>, failure: string)
    ensures var q := ItemQuery(fs, id, localJson, defaultJson, response, failure).0;
      q.Some? ==> !(q.value.json.Some? && q.value.data.Some?)
  {
  }

  //--------------------------------------------------------------------------
  //  The object
  //--------------------------------------------------------------------------

  class Boilerplate {
    const settings: Settings
    const env: Environment
    var config: map<string, Value>
    var results: Results
    var portal: PortalState
    var direction: Option<string>
    var units: Option<Value>
    var userPrivileges: Option<Value>
    /** The global `esriConfig` request settings the boilerplate writes. */
    var request: RequestConfig

    function State(): BoilerplateState
      reads this
    {
      BoilerplateState(config, results, portal, direction, units, userPrivileges, request)
    }

    /** The fields as the constructor leaves them: `results` is `{}`, the rest `null`. */
    constructor(settings: Settings, config: map<string, Value>, env: Environment, request: RequestConfig)
      ensures this.settings == settings && this.env == env
      ensures State() == BoilerplateState(config, NoResults, NoPortal, None, None, None, request)
    {
      this.settings := settings;
      this.env := env;
      this.config := config;
      this.results := NoResults;
      this.portal := NoPortal;
      this.direction := None;
      this.units := None;
      this.userPrivileges := None;
      this.request := request;
    }

    /** `results.urlParams = {config: _getUrlParamValues(settings.urlItems)}`. */
    method SetUrlParams()
      modifies this
      ensures State() == UrlParamsSet(old(State()), settings, env)
    {
      var params := ReadUrlParams(env.search, settings.urlItems);
      results := results.(urlParams := Some(params));
    }

    /** `_mixinAllConfigs`: config <- application settings <- URL parameters. */
    method MixinAllConfigs()
      modifies this
      ensures State() == Merged(old(State()))
    {
      config := MixinAll(config, AppLayerOf(results), results.urlParams);
    }

    /** `_initializeApplication`: the hosted-portal URLs, then `esriConfig.portalUrl` and its proxy. */
    method InitializeApplication()
      modifies this
      ensures State() == Initialized(old(State()), settings, env)
    {
      if settings.esriEnvironment {
        var hosted := HostedPortal(env.pathname, env.host);
        if hosted.Some? {
          ghost var before := config;
          config := config["portalUrl" := Str(hosted.value.0)]["proxyUrl" := Str(hosted.value.1)];
          assert config == before + HostedEdits(settings, env);
        }
      }
      request := request.(portalUrl := Get(config, "portalUrl"));
      if IsSet(Get(config, "proxyUrl")) {
        request := request.(proxyUrl := Get(config, "proxyUrl"));
      }
    }

    /** `_setDirection`. */
    method SetDirection()
      modifies this
      ensures State() == DirectionSet(old(State()), env)
    {
      direction := Some(Direction(env.locale));
    }

    /** `_queryApplicationItem`, given the response of loading the application item. */
    method QueryApplicationItem(response: Fetch<AppItem>) returns (o: Outcome)
      modifies this
      ensures State() == AppItemQueried(old(State()), response)
      ensures o == AppItemOutcome(old(config), response)
    {
      o := Resolved;
      if IsSet(Get(config, "appid")) {
        match response
        case Loaded(d) =>
          results := results.(applicationItem := Some(AppItemRecord(d)));
        case Failed(reason) =>
          o := Rejected(RejectionError(reason, ApplicationFailure));
      }
    }

    /** The loop over `authorizedCrossOriginDomains`, pushing every trusted host. */
    method PushTrustedHosts(domains: seq<Value>)
      modifies this
      ensures State() == old(State()).(request := old(request).(corsEnabledServers :=
                old(request.corsEnabledServers) + CorsEntries(domains)))
    {
      for i := 0 to |domains|
        invariant State() == old(State()).(request := old(request).(corsEnabledServers :=
                    old(request.corsEnabledServers) + CorsEntries(domains[..i])))
      {
        assert domains[..i + 1][..i] == domains[..i];
        var trustedHost := domains[i];
        if IsDefined(Some(trustedHost)) && HasPositiveLength(trustedHost) {
          request := request.(corsEnabledServers := request.corsEnabledServers + [CorsServer(trustedHost, true)]);
        }
      }
      assert domains[..|domains|] == domains;
    }

    /** `_queryPortal`, given the response of loading the portal. */
    method QueryPortal(response: Fetch<PortalResponse>) returns (o: Outcome)
      modifies this
      ensures State() == PortalQueried(old(State()), settings, env, response)
      ensures o == PortalOutcome(settings, response)
    {
      o := Resolved;
      if settings.portalFetch {
        match response
        case Loaded(r) =>
          portal := PortalObject(r.helperServices);
          if settings.webTierSecurity {
            if r.authorizedCrossOriginDomains.Some? && |r.authorizedCrossOriginDomains.value| > 0 {
              PushTrustedHosts(r.authorizedCrossOriginDomains.value);
            }
          }
          units := Some(Units(r, env.locale));
          if r.user.Some? && IsDefined(r.user.value.roleId) {
            if IsSet(r.user.value.privileges) {
              userPrivileges := r.user.value.privileges;
            }
          }
          results := results.(portal := Some(r));
        case Failed(reason) =>
          portal := PortalObject(None);
          o := Rejected(RejectionError(reason, PortalFailure));
      }
    }

    /** The geometry-service part of `_completeApplication`. */
    method CompleteApplication()
      modifies this
      ensures State() == GeometrySet(old(State()))
    {
      var url := GeometryServiceUrl(Get(config, "helperServices"), portal, request.geometryServiceUrl);
      request := request.(geometryServiceUrl := url);
    }

    /** The extent part of `_completeApplication`, run once the item records exist. */
    method ApplyExtent() returns (r: Result<()>)
      modifies this
      ensures var applied := ApplyApplicationExtent(old(config), old(results));
        match applied
        case Ok(rs) => r == Ok(()) && State() == old(State()).(results := rs)
        case Threw(e) => r == Threw(e) && State() == old(State())
    {
      match ApplyApplicationExtent(config, results)
      case Ok(rs) =>
        results := rs;
        r := Ok(());
      case Threw(e) =>
        r := Threw(e);
    }

    /** `_queryWebmapItem`, given the local JSON file and the response of loading the item. */
    method QueryWebmapItem(localJson: Value, response: Fetch<ItemData>) returns (o: Outcome)
      modifies this
      ensures State() == WebmapQueried(old(State()), settings, localJson, response)
      ensures o == ItemQuery(settings.webmap, Get(old(config), "webmap"), localJson, DefaultWebmap, response, WebmapFailure).1
    {
      var q := ItemQuery(settings.webmap, Get(config, "webmap"), localJson, DefaultWebmap, response, WebmapFailure);
      if q.0.Some? {
        results := results.(webmapItem := q.0);
      }
      o := q.1;
    }

    /** `_queryWebsceneItem`, given the local JSON file and the response of loading the item. */
    method QueryWebsceneItem(localJson: Value, response: Fetch<ItemData>) returns (o: Outcome)
      modifies this
      ensures State() == WebsceneQueried(old(State()), settings, localJson, response)
      ensures o == ItemQuery(settings.webscene, Get(old(config), "webscene"), localJson, DefaultWebscene, response, WebsceneFailure).1
    {
      var q := ItemQuery(settings.webscene, Get(config, "webscene"), localJson, DefaultWebscene, response, WebsceneFailure);
      if q.0.Some? {
        results := results.(websceneItem := q.0);
      }
      o := q.1;
    }

    /**
     * The synchronous part of `_queryGroupInfo`: `Ok(None)` when nothing is queried,
     * else the query sent; `results.group` is reset to `{}` first. Without a portal
     * the call `this.portal.queryGroups` throws.
     */
    method BeginGroupInfo() returns (r: Result<Option<string>>)
      modifies this
      ensures !settings.group.fetchInfo || !IsSet(Get(old(config), "group")) ==> r == Ok(None) && State() == old(State())
      ensures settings.group.fetchInfo && IsSet(Get(old(config), "group")) ==>
                && State() == old(State()).(results := old(results).(group := Some(GroupRecord(None, None))))
                && r == (if portal.NoPortal? then Threw(TypeError) else Ok(Some(GroupInfoQuery(config["group"]))))
    {
      if !settings.group.fetchInfo || !IsSet(Get(config, "group")) {
        return Ok(None);
      }
      results := results.(group := Some(GroupRecord(None, None)));
      if portal.NoPortal? {
        return Threw(TypeError);
      }
      r := Ok(Some(GroupInfoQuery(config["group"])));
    }

    /** The response of `queryGroups` lands in whatever `results.group` is by then. */
    method EndGroupInfo(response: Fetch<Value>) returns (o: Outcome)
      requires results.group.Some?
      modifies this
      ensures match response
        case Loaded(v) =>
          o == Resolved && State() == old(State()).(results := old(results).(group := Some(old(results.group.value).(infoData := Some(v)))))
        case Failed(reason) =>
          o == Rejected(RejectionError(reason, GroupInfoFailure)) && State() == old(State())
    {
      match response
      case Loaded(v) =>
        results := results.(group := Some(results.group.value.(infoData := Some(v))));
        o := Resolved;
      case Failed(reason) =>
        o := Rejected(RejectionError(reason, GroupInfoFailure));
    }

    /**
     * The synchronous part of `queryGroupItems(options)`: `Ok(None)` when nothing is
     * queried, else the query parameters sent; `results.group` is reset to `{}` first.
     */
    method BeginGroupItems(options: Option<map<string, Value>>) returns (r: Result<Option<map<string, Value>>>)
      modifies this
      ensures !settings.group.fetchItems || !IsSet(Get(old(config), "group")) ==> r == Ok(None) && State() == old(State())
      ensures settings.group.fetchItems && IsSet(Get(old(config), "group")) ==>
                && State() == old(State()).(results := old(results).(group := Some(GroupRecord(None, None))))
                && var params := GroupItemParams(settings.group.itemParams, options, config["group"]);
                   r == (if params.Threw? then Threw(params.error)
                         else if portal.NoPortal? then Threw(TypeError)
                         else Ok(Some(params.value)))
    {
      if !settings.group.fetchItems || !IsSet(Get(config, "group")) {
        return Ok(None);
      }
      results := results.(group := Some(GroupRecord(None, None)));
      var params := GroupItemParams(settings.group.itemParams, options, config["group"]);
      if params.Threw? {
        return Threw(params.error);
      }
      if portal.NoPortal? {
        return Threw(TypeError);
      }
      r := Ok(Some(params.value));
    }

    /** The response of `queryItems` lands in whatever `results.group` is by then. */
    method EndGroupItems(response: Fetch<Value>) returns (o: Outcome)
      requires results.group.Some?
      modifies this
      ensures match response
        case Loaded(v) =>
          o == Resolved && State() == old(State()).(results := old(results).(group := Some(old(results.group.value).(itemsData := Some(v)))))
        case Failed(reason) =>
          o == Rejected(RejectionError(reason, GroupItemsFailure)) && State() == old(State())
    {
      match response
      case Loaded(v) =>
        results := results.(group := Some(results.group.value.(itemsData := Some(v))));
        o := Resolved;
      case Failed(reason) =>
        o := Rejected(RejectionError(reason, GroupItemsFailure));
    }

    /**
     * The synchronous start of `_init` and its first phase: URL parameters, first merge,
     * portal URLs and direction; then the application item and the portal; then the
     * second merge and the geometry service. `asWritten` is what the extent step of the
     * code as written gives at the point where the code runs it.
     */
    method InitPhase1(appItem: Fetch<AppItem>, portalResponse: Fetch<PortalResponse>)
      returns (outcomes: seq<Outcome>, ghost asWritten: Result<Results>)
      requires results == NoResults
      modifies this
      ensures State() == AfterPhase1(old(State()), settings, env, appItem, portalResponse)
      ensures outcomes == Phase1Outcomes(old(State()), settings, env, appItem, portalResponse)
      ensures config == MixinAll(old(config) + HostedEdits(settings, env), AppLayerOf(results), results.urlParams)
      ensures results.urlParams == UrlLayer(settings, env)
      ensures results.websceneItem.None? && results.webmapItem.None? && results.group.None?
      ensures asWritten == CompleteExtentAsWritten(config, results)
      ensures WantsExtent(config) ==> asWritten == Threw(TypeError)
    {
      ghost var s0 := State();
      SetUrlParams();
      MixinAllConfigs();
      InitializeApplication();
      SetDirection();
      assert State() == Started(s0, settings, env);
      var o1 := QueryApplicationItem(appItem);
      var o2 := QueryPortal(portalResponse);
      MixinAllConfigs();
      asWritten := CompleteExtentAsWritten(config, results);
      CompleteApplication();
      outcomes := [o1, o2];
      AfterPhase1Layers(s0, settings, env, appItem, portalResponse);
    }

    /** The web map and web scene queries of the second phase. */
    method QueryItems(webmapJson: Value, webmapResponse: Fetch<ItemData>,
                      websceneJson: Value, websceneResponse: Fetch<ItemData>)
      returns (outcomes: seq<Outcome>)
      modifies this
      ensures State() == ItemsQueried(old(State()), settings, webmapJson, webmapResponse, websceneJson, websceneResponse)
      ensures outcomes == ItemOutcomes(old(config), settings, webmapJson, webmapResponse, websceneJson, websceneResponse)
    {
      var o3 := QueryWebmapItem(webmapJson, webmapResponse);
      var o4 := QueryWebsceneItem(websceneJson, websceneResponse);
      outcomes := [o3, o4];
    }

    /** The group queries of the second phase: both start, then both responses arrive. */
    method QueryGroup(groupInfo: Fetch<Value>, groupItems: Fetch<Value>)
      returns (r: Result<seq<Outcome>>)
      modifies this
      ensures (r, State()) == GroupQueried(old(State()), settings, groupInfo, groupItems)
    {
      var info := BeginGroupInfo();
      if info.Threw? {
        return Threw(info.error);
      }
      var items := BeginGroupItems(None);
      if items.Threw? {
        return Threw(items.error);
      }
      var o5 := Resolved;
      if info.value.Some? {
        o5 := EndGroupInfo(groupInfo);
      }
      var o6 := Resolved;
      if items.value.Some? {
        o6 := EndGroupItems(groupItems);
      }
      r := Ok([o5, o6]);
    }

    /**
     * The second phase of `_init`: the web map, web scene and group queries, whose
     * responses are given, then the application extent (see `ApplyApplicationExtent`).
     * A start that throws stops the chain.
     */
    method InitPhase2(webmapJson: Value, webmapResponse: Fetch<ItemData>,
                      websceneJson: Value, websceneResponse: Fetch<ItemData>,
                      groupInfo: Fetch<Value>, groupItems: Fetch<Value>)
      returns (r: InitResult)
      modifies this
      ensures (r, State()) == AfterPhase2(old(State()), settings, webmapJson, webmapResponse,
                                          websceneJson, websceneResponse, groupInfo, groupItems)
      ensures config == old(config) && direction == old(direction) && portal == old(portal)
      ensures ItemsConsistent(old(results)) ==> ItemsConsistent(results)
    {
      ghost var s0 := State();
      var items := QueryItems(webmapJson, webmapResponse, websceneJson, websceneResponse);
      var group := QueryGroup(groupInfo, groupItems);
      AfterPhase2Results(s0, settings, webmapJson, webmapResponse, websceneJson, websceneResponse, groupInfo, groupItems);
      if group.Threw? {
        return Aborted(group.error);
      }
      var extent := ApplyExtent();
      if extent.Threw? {
        return Aborted(extent.error);
      }
      r := Completed([], items + group.value);
    }

    /** `_init`: the two phases one after the other. */
    method Init(appItem: Fetch<AppItem>, portalResponse: Fetch<PortalResponse>,
                webmapJson: Value, webmapResponse: Fetch<ItemData>,
                websceneJson: Value, websceneResponse: Fetch<ItemData>,
                groupInfo: Fetch<Value>, groupItems: Fetch<Value>)
      returns (r: InitResult, ghost asWritten: Result<Results>)
      requires results == NoResults
      modifies this
      ensures var p1 := AfterPhase1(old(State()), settings, env, appItem, portalResponse);
        var p2 := AfterPhase2(p1, settings, webmapJson, webmapResponse, websceneJson, websceneResponse, groupInfo, groupItems);
        && State() == p2.1
        && r == (if p2.0.Completed? then Completed(Phase1Outcomes(old(State()), settings, env, appItem, portalResponse), p2.0.phase2) else p2.0)
        && asWritten == CompleteExtentAsWritten(p1.config, p1.results)
      ensures config == MixinAll(old(config) + HostedEdits(settings, env), AppLayerOf(results), results.urlParams)
      ensures results.urlParams == UrlLayer(settings, env)
      ensures forall k :: k in results.urlParams.value ==> k in config && config[k] == results.urlParams.value[k]
      ensures direction == Some(Direction(env.locale))
      ensures ItemsConsistent(results)
      ensures WantsExtent(config) ==> asWritten == Threw(TypeError)
      ensures r.Completed? ==> |r.phase1| == 2 && |r.phase2| == 4
    {
      var phase1;
      phase1, asWritten := InitPhase1(appItem, portalResponse);
      ghost var s1 := State();
      r := InitPhase2(webmapJson, webmapResponse, websceneJson, websceneResponse, groupInfo, groupItems);
      AfterPhase2Results(s1, settings, webmapJson, webmapResponse, websceneJson, websceneResponse, groupInfo, groupItems);
      if r.Completed? {
        r := Completed(phase1, r.phase2);
      }
    }
  }
}
