/**
 * The decision rules of Boilerplate.js, as functions of what was read: the
 * three-layer configuration merge, the units chain, the hosted-portal URLs, the
 * language direction, the group query parameters, the item-fetch branches, the
 * geometry-service precedence, the trusted-host filter and the extent rewrite.
 */
module ConfigRules {
  import opened JsValues
  import opened Strings
  import opened BoilerplateModel

  //--------------------------------------------------------------------------
  //  _mixinAllConfigs
  //--------------------------------------------------------------------------

  /** `lang.mixin(dest, src)`: every own property of `src` is copied onto `dest`. */
  function Mixin(dest: map<string, Value>, src: Option<map<string, Value>>): map<string, Value>
  {
    match src
    case None => dest
    case Some(s) => dest + s
  }

  /** A layer that is present and holds `k`. */
  predicate HasKey(layer: Option<map<string, Value>>, k: string)
  {
    layer.Some? && k in layer.value
  }

  /**
   * `lang.mixin(config, appConfig, urlConfig)`: config <- application settings <- URL
   * parameters. A key takes the URL value if that layer has it, else the application
   * value if that layer has it, else keeps its configured value.
   */
  function MixinAll(config: map<string, Value>, app: Option<map<string, Value>>, url: Option<map<string, Value>>): (r: map<string, Value>)
    ensures forall k :: k in r <==> k in config || HasKey(app, k) || HasKey(url, k)
    ensures forall k :: HasKey(url, k) ==> r[k] == url.value[k]
    ensures forall k :: !HasKey(url, k) && HasKey(app, k) ==> r[k] == app.value[k]
    ensures forall k :: k in config && !HasKey(url, k) && !HasKey(app, k) ==> r[k] == config[k]
  {
    Mixin(Mixin(config, app), url)
  }

  /** Merging the same layers a second time changes nothing. */
  lemma MixinAllIdempotent(config: map<string, Value>, app: Option<map<string, Value>>, url: Option<map<string, Value>>)
    ensures MixinAll(MixinAll(config, app, url), app, url) == MixinAll(config, app, url)
  {
    var once := MixinAll(config, app, url);
    var twice := MixinAll(once, app, url);
    assert forall k :: k in twice <==> k in once;
    forall k | k in twice ensures twice[k] == once[k] {
      if !HasKey(url, k) && !HasKey(app, k) {
        assert k in once;
      }
    }
  }

  /**
   * The two merges of `_init`: the first has only the URL layer, then the configuration
   * changes by `edits` (the hosted-portal URLs), then the application layer arrives.
   * The outcome is that of one merge of the edited configuration: the edits override the
   * static configuration, the application layer overrides them, the URL layer wins.
   */
  lemma {:induction false} MixinAllTwice(config: map<string, Value>, edits: map<string, Value>, app: Option<map<string, Value>>, url: Option<map<string, Value>>)
    ensures MixinAll(MixinAll(config, None, url) + edits, app, url) == MixinAll(config + edits, app, url)
  {
    var lhs := MixinAll(MixinAll(config, None, url) + edits, app, url);
    var rhs := MixinAll(config + edits, app, url);
    forall k ensures k in lhs <==> k in rhs {
    }
    forall k | k in lhs ensures lhs[k] == rhs[k] {
      if !HasKey(url, k) && !HasKey(app, k) {
        if k in edits {
          assert lhs[k] == edits[k];
        } else {
          assert k in config;
        }
      }
    }
  }

  //--------------------------------------------------------------------------
  //  Units (_queryPortal)
  //--------------------------------------------------------------------------

  /** `x === "US"` on a property read. */
  predicate IsUS(o: Option<Value>)
  {
    o == Some(Str("US"))
  }

  /** The condition under which feet and miles are used when no units are configured. */
  predicate UsesEnglish(r: PortalResponse, locale: string)
  {
    (r.user.Some? && IsSet(r.user.value.region) && IsUS(r.user.value.region))
    || (r.user.Some? && !IsSet(r.user.value.region) && IsUS(r.region))
    || (r.user.Some? && !IsSet(r.user.value.region) && !IsSet(r.region))
    || (r.user.None? && IsUS(r.ipCntryCode))
    || (r.user.None? && !IsSet(r.ipCntryCode) && locale == "en-us")
  }

  /**
   * The units the boilerplate adopts: the user's units, else the organisation's, else
   * "english" for a US context, else "metric".
   */
  function Units(r: PortalResponse, locale: string): (u: Value)
    ensures r.user.Some? && IsSet(r.user.value.units) ==> u == r.user.value.units.value
    ensures !(r.user.Some? && IsSet(r.user.value.units)) && IsSet(r.units) ==> u == r.units.value
    ensures !(r.user.Some? && IsSet(r.user.value.units)) && !IsSet(r.units) ==>
              (u == Str("english") <==> UsesEnglish(r, locale)) && (u == Str("english") || u == Str("metric"))
  {
    if r.user.Some? && IsSet(r.user.value.units) then r.user.value.units.value
    else if IsSet(r.units) then r.units.value
    else if UsesEnglish(r, locale) then Str("english")
    else Str("metric")
  }

  /** No units configured anywhere. */
  predicate NoUnitsSet(r: PortalResponse)
  {
    !(r.user.Some? && IsSet(r.user.value.units)) && !IsSet(r.units)
  }

  /** The result always comes from one of four sources. */
  lemma UnitsSources(r: PortalResponse, locale: string)
    ensures var u := Units(r, locale);
      (r.user.Some? && r.user.value.units == Some(u)) || r.units == Some(u) || u == Str("english") || u == Str("metric")
  {
  }

  /** A signed-in user with a region: US means english, any other region metric. */
  lemma UnitsByUserRegion(r: PortalResponse, locale: string)
    requires NoUnitsSet(r) && r.user.Some? && IsSet(r.user.value.region)
    ensures Units(r, locale) == (if IsUS(r.user.value.region) then Str("english") else Str("metric"))
  {
  }

  /** A signed-in user without a region: the organisation's region decides, and its absence means english. */
  lemma UnitsByOrgRegion(r: PortalResponse, locale: string)
    requires NoUnitsSet(r) && r.user.Some? && !IsSet(r.user.value.region)
    ensures Units(r, locale) == (if IsUS(r.region) || !IsSet(r.region) then Str("english") else Str("metric"))
  {
  }

  /** Anonymous access: the country of the IP address decides, else the locale `en-us`. */
  lemma UnitsAnonymous(r: PortalResponse, locale: string)
    requires NoUnitsSet(r) && r.user.None?
    ensures Units(r, locale) == Str("english") <==> IsUS(r.ipCntryCode) || (!IsSet(r.ipCntryCode) && locale == "en-us")
  {
  }

  //--------------------------------------------------------------------------
  //  _initializeApplication
  //--------------------------------------------------------------------------

  const AppsPath := "/apps/"
  const HomePath := "/home/"
  const ProxyPath := "/sharing/proxy"

  /**
   * The portal and proxy URLs of an app hosted on a portal: the portal instance is the
   * path before the first `/apps/`, or before the first `/home/` when there is no `/apps/`.
   */
  function HostedPortal(pathname: string, host: string): (r: Option<(string, string)>)
    ensures r.None? <==> !Occurs(pathname, AppsPath) && !Occurs(pathname, HomePath)
    ensures r.Some? ==> r.value.1 == r.value.0 + ProxyPath
    ensures forall n :: FirstAt(pathname, AppsPath, n) ==>
              r == Some(("https://" + host + pathname[..n], "https://" + host + pathname[..n] + ProxyPath))
    ensures !Occurs(pathname, AppsPath) ==> forall n :: FirstAt(pathname, HomePath, n) ==>
              r == Some(("https://" + host + pathname[..n], "https://" + host + pathname[..n] + ProxyPath))
  {
    var apps := IndexOf(pathname, AppsPath);
    var at := if apps == -1 then IndexOf(pathname, HomePath) else apps;
    IndexOfFinds(pathname, AppsPath);
    IndexOfFinds(pathname, HomePath);
    assert forall n :: FirstAt(pathname, AppsPath, n) ==> n == apps by {
      forall n | FirstAt(pathname, AppsPath, n) ensures n == apps {
        FirstAtIndexOf(pathname, AppsPath, n);
      }
    }
    assert apps == -1 ==> forall n :: FirstAt(pathname, HomePath, n) ==> n == at by {
      forall n | apps == -1 && FirstAt(pathname, HomePath, n) ensures n == at {
        FirstAtIndexOf(pathname, HomePath, n);
      }
    }
    if at == -1 then None
    else
      var instance := pathname[..at];
      Some(("https://" + host + instance, "https://" + host + instance + ProxyPath))
  }

  //--------------------------------------------------------------------------
  //  _setDirection (Boilerplate.js and main.js)
  //--------------------------------------------------------------------------

  const RtlLangs: seq<string> := ["ar", "he"]

  /** `langs.some(l => locale.indexOf(l) !== -1)`. */
  function SomeOccurs(locale: string, langs: seq<string>): (b: bool)
    ensures b <==> exists i :: 0 <= i < |langs| && Occurs(locale, langs[i])
  {
    if langs == [] then false
    else if IndexOf(locale, langs[0]) != -1 then
      IndexOfFinds(locale, langs[0]);
      true
    else
      IndexOfFinds(locale, langs[0]);
      var b := SomeOccurs(locale, langs[1..]);
      assert (exists i :: 0 <= i < |langs[1..]| && Occurs(locale, langs[1..][i])) <==>
             (exists i :: 1 <= i < |langs| && Occurs(locale, langs[i])) by {
        forall i | 1 <= i < |langs| ensures langs[1..][i - 1] == langs[i] { }
      }
      b
  }

  /** The text direction of the page: right to left exactly when the locale mentions "ar" or "he". */
  function Direction(locale: string): (d: string)
    ensures d == "rtl" <==> Occurs(locale, "ar") || Occurs(locale, "he")
    ensures d == "rtl" || d == "ltr"
  {
    var rtl := SomeOccurs(locale, RtlLangs);
    assert rtl <==> Occurs(locale, RtlLangs[0]) || Occurs(locale, RtlLangs[1]);
    if rtl then "rtl" else "ltr"
  }

  //--------------------------------------------------------------------------
  //  queryGroupItems and _queryGroupInfo
  //--------------------------------------------------------------------------

  /** The one name `queryGroupItems` gives `lang.replace`, and its placeholder. */
  const GroupIdKey := "groupid"
  const GroupIdPlaceholder := "{" + GroupIdKey + "}"
  const GroupQueryPrefix := "group:\""
  const GroupQuerySuffix := "\" AND -type:\"Code Attachment\""
  /** `group:"{groupid}" AND -type:"Code Attachment"`. */
  const DefaultGroupQuery := GroupQueryPrefix + GroupIdPlaceholder + GroupQuerySuffix

  const DefaultItemParams: map<string, Value> := map[
    "query" := Str(DefaultGroupQuery),
    "sortField" := Str("modified"),
    "sortOrder" := Str("desc"),
    "num" := Num(9),
    "start" := Num(1)]

  /**
   * The parameters of the group-items query: defaults <- `settings.group.itemParams` <-
   * `options`, then the placeholders of a truthy `query` filled in by `lang.replace`.
   * A truthy query that is not a string has no `replace` and throws.
   */
  function GroupItemParams(itemParams: Option<map<string, Value>>, options: Option<map<string, Value>>, group: Value): (r: Result<map<string, Value>>)
  {
    SubstituteGroup(Mixin(Mixin(DefaultItemParams, itemParams), options), group)
  }

  /**
   * `lang.replace(query, {groupid: group})` on a truthy `query`: `{groupid}` becomes the
   * group id and any other `{name}` "undefined"; a truthy non-string query throws.
   */
  function SubstituteGroup(merged: map<string, Value>, group: Value): (r: Result<map<string, Value>>)
  {
    if "query" in merged && Truthy(merged["query"]) then
      var q := merged["query"];
      if q.Str? then Ok(merged["query" := Str(LangReplace(q.s, GroupIdKey, JsString(group)))])
      else Threw(TypeError)
    else
      Ok(merged)
  }

  /** What the substituted parameters are, and when substituting throws. */
  lemma SubstituteGroupSpec(merged: map<string, Value>, group: Value)
    ensures var r := SubstituteGroup(merged, group);
      && (r.Threw? <==> "query" in merged && Truthy(merged["query"]) && !merged["query"].Str?)
      && (r.Threw? ==> r.error == TypeError)
      && (r.Ok? ==> r.value.Keys == merged.Keys)
      && (r.Ok? ==> forall k :: k in merged && k != "query" ==> r.value[k] == merged[k])
      && (r.Ok? && "query" in merged && merged["query"].Str? && merged["query"].s != "" ==>
            r.value["query"] == Str(LangReplace(merged["query"].s, GroupIdKey, JsString(group))))
      && (r.Ok? && !("query" in merged && Truthy(merged["query"])) ==> r.value == merged)
  {
  }

  /** Each merged parameter comes from `options`, else from `itemParams`, else from the defaults. */
  lemma GroupItemParamsPrecedence(itemParams: Option<map<string, Value>>, options: Option<map<string, Value>>, group: Value, k: string)
    requires GroupItemParams(itemParams, options, group).Ok? && k != "query"
    ensures var p := GroupItemParams(itemParams, options, group).value;
      && (HasKey(options, k) ==> k in p && p[k] == options.value[k])
      && (!HasKey(options, k) && HasKey(itemParams, k) ==> k in p && p[k] == itemParams.value[k])
      && (!HasKey(options, k) && !HasKey(itemParams, k) && k in DefaultItemParams ==> k in p && p[k] == DefaultItemParams[k])
      && (k in p ==> HasKey(options, k) || HasKey(itemParams, k) || k in DefaultItemParams)
  {
  }

  /** With the default query, the group id lands between the quotes of `group:"…"`. */
  lemma DefaultQueryNamesGroup(itemParams: Option<map<string, Value>>, options: Option<map<string, Value>>, group: Value)
    requires !HasKey(itemParams, "query") && !HasKey(options, "query")
    ensures GroupItemParams(itemParams, options, group).Ok?
    ensures GroupItemParams(itemParams, options, group).value["query"] ==
            Str(GroupQueryPrefix + JsString(group) + GroupQuerySuffix)
  {
    var merged := Mixin(Mixin(DefaultItemParams, itemParams), options);
    assert merged["query"] == Str(DefaultGroupQuery);
    SubstituteGroupSpec(merged, group);
    PlaceholderOnce();
    LangReplaceFirst(GroupQueryPrefix, GroupIdKey, JsString(group), GroupQuerySuffix);
    LangReplaceCopies(GroupQuerySuffix, [], GroupIdKey, JsString(group));
    assert GroupQuerySuffix + [] == GroupQuerySuffix;
  }

  /** The default query holds the placeholder once, between texts without a `{`. */
  lemma PlaceholderOnce()
    ensures '{' !in GroupQueryPrefix && '{' !in GroupQuerySuffix && '}' !in GroupIdKey
  {
  }

  /**
   * A query whose every `{` starts `{groupid}` has each `{groupid}` replaced by the
   * group id, whatever else it holds.
   */
  lemma GroupQueryReplacesPlaceholders(merged: map<string, Value>, group: Value)
    requires "query" in merged && merged["query"].Str? && merged["query"].s != ""
    requires BracesStart(merged["query"].s, GroupIdPlaceholder)
    ensures SubstituteGroup(merged, group) ==
            Ok(merged["query" := Str(ReplaceAll(merged["query"].s, GroupIdPlaceholder, JsString(group)))])
  {
    PlaceholderOnce();
    LangReplaceIsReplaceAll(merged["query"].s, GroupIdKey, JsString(group));
  }

  /** The query of `_queryGroupInfo`: the group with that id. */
  function GroupInfoQuery(group: Value): (q: string)
    ensures |q| == |JsString(group)| + 5
    ensures q[..4] == "id:\"" && q[|q| - 1] == '"' && q[4..|q| - 1] == JsString(group)
  {
    "id:\"" + JsString(group) + "\""
  }

  /** Different group ids give different group-info queries. */
  lemma GroupInfoQueryInjective(a: Value, b: Value)
    ensures GroupInfoQuery(a) == GroupInfoQuery(b) <==> JsString(a) == JsString(b)
  {
    if GroupInfoQuery(a) == GroupInfoQuery(b) {
      var q := GroupInfoQuery(a);
      assert JsString(a) == q[4..|q| - 1] == JsString(b);
    }
  }

  //--------------------------------------------------------------------------
  //  _queryWebsceneItem / _queryWebmapItem
  //--------------------------------------------------------------------------

  /** `{}` for a fresh item record, before any branch fills it. */
  const EmptyItem := ItemRecord(None, None)

  /**
   * The item record an item query leaves and how its deferred settles. `None` means the
   * record is not touched. With `fetch` set, exactly one branch runs: `useLocal` takes
   * the local JSON, a missing id the built-in default, an id the loaded item.
   */
  function ItemQuery(fs: FetchSettings, id: Option<Value>, localJson: Value, defaultJson: Value,
                     response: Fetch<ItemData>, failure: string): (r: (Option<ItemRecord>, Outcome))
    ensures !fs.fetch ==> r == (None, Resolved)
    ensures fs.fetch ==> r.0.Some? && !(r.0.value.json.Some? && r.0.value.data.Some?)
    ensures fs.fetch && fs.useLocal ==> r == (Some(ItemRecord(Some(localJson), None)), Resolved)
    ensures fs.fetch && !fs.useLocal && !IsSet(id) ==> r == (Some(ItemRecord(Some(defaultJson), None)), Resolved)
    ensures fs.fetch && !fs.useLocal && IsSet(id) ==>
              r.0.value.json.None? &&
              match response
              case Loaded(d) => r == (Some(ItemRecord(None, Some(d))), Resolved)
              case Failed(reason) => r == (Some(EmptyItem), Rejected(RejectionError(reason, failure)))
  {
    if !fs.fetch then (None, Resolved)
    else if fs.useLocal then (Some(EmptyItem.(json := Some(localJson))), Resolved)
    else if !IsSet(id) then (Some(EmptyItem.(json := Some(defaultJson))), Resolved)
    else
      match response
      case Loaded(d) => (Some(EmptyItem.(data := Some(d))), Resolved)
      case Failed(reason) => (Some(EmptyItem), Rejected(RejectionError(reason, failure)))
  }

  const WebsceneFailure := "Error retrieving webscene item."
  const WebmapFailure := "Error retrieving webmap item."

  /** The basemap both built-in defaults use. */
  const DefaultBasemap: Value := Obj(map[
    "baseMapLayers" := List([Obj(map[
      "id" := Str("defaultBasemap"),
      "layerType" := Str("ArcGISTiledMapServiceLayer"),
      "opacity" := Num(1),
      "visibility" := Bool(true),
      "url" := Str("http://services.arcgisonline.com/ArcGIS/rest/services/World_Topo_Map/MapServer")])]),
    "title" := Str("Topographic")])

  /** The built-in web scene used when no web scene id is configured. */
  const DefaultWebscene: Value := Obj(map[
    "item" := Obj(map[
      "title" := Str("Default Webscene"),
      "type" := Str("Web Scene"),
      "description" := Str("A web scene with the default basemap and extent."),
      "snippet" := Str("A web scene with the default basemap and extent.")]),
    "itemData" := Obj(map[
      "operationalLayers" := List([]),
      "version" := Str("1.3"),
      "baseMap" := DefaultBasemap])])

  /** The built-in web map used when no web map id is configured. */
  const DefaultWebmap: Value := Obj(map[
    "item" := Obj(map[
      "title" := Str("Default Webmap"),
      "type" := Str("Web Map"),
      "description" := Str("A webmap with the default basemap and extent."),
      "snippet" := Str("A webmap with the default basemap and extent.")]),
    "itemData" := Obj(map[
      "operationalLayers" := List([]),
      "baseMap" := DefaultBasemap,
      "spatialReference" := Obj(map["wkid" := Num(102100), "latestWkid" := Num(3857)]),
      "version" := Str("2.1")])])

  /** `json.itemData.operationalLayers` and `json.itemData.baseMap.title`. */
  function DefaultShape(json: Value): (Option<Value>, Option<Value>)
  {
    var itemData := Field(json, "itemData");
    var layers := if itemData.Some? then Field(itemData.value, "operationalLayers") else None;
    var baseMap := if itemData.Some? then Field(itemData.value, "baseMap") else None;
    (layers, if baseMap.Some? then Field(baseMap.value, "title") else None)
  }

  /** Both defaults have no operational layers and the "Topographic" basemap. */
  lemma DefaultsAreEmptyTopographic()
    ensures DefaultShape(DefaultWebscene) == (Some(List([])), Some(Str("Topographic")))
    ensures DefaultShape(DefaultWebmap) == (Some(List([])), Some(Str("Topographic")))
  {
  }

  //--------------------------------------------------------------------------
  //  _completeApplication: geometry service
  //--------------------------------------------------------------------------

  /** `h && h.geometry && h.geometry.url`. */
  function GeometryUrlOf(helperServices: Option<Value>): (r: Option<Value>)
    ensures !IsSet(helperServices) ==> r == helperServices
    ensures IsSet(r) ==> IsSet(helperServices) && IsSet(Field(helperServices.value, "geometry"))
                         && r == Field(helperServices.value.fields["geometry"], "url")
  {
    AndField(AndField(helperServices, "geometry"), "url")
  }

  /** `this.portal && this.portal.helperServices`; a `null` portal reads as falsy. */
  function PortalHelperServices(portal: PortalState): Option<Value>
  {
    match portal
    case NoPortal => Some(Null)
    case PortalObject(h) => h
  }

  /**
   * The geometry service the boilerplate configures: the portal's, else the configuration's,
   * else the one already set.
   */
  function GeometryServiceUrl(configHelpers: Option<Value>, portal: PortalState, current: Option<Value>): (r: Option<Value>)
    ensures IsSet(GeometryUrlOf(PortalHelperServices(portal))) ==> r == GeometryUrlOf(PortalHelperServices(portal))
    ensures !IsSet(GeometryUrlOf(PortalHelperServices(portal))) && IsSet(GeometryUrlOf(configHelpers)) ==> r == GeometryUrlOf(configHelpers)
    ensures !IsSet(GeometryUrlOf(PortalHelperServices(portal))) && !IsSet(GeometryUrlOf(configHelpers)) ==> r == current
  {
    var url := Or(GeometryUrlOf(PortalHelperServices(portal)), GeometryUrlOf(configHelpers));
    if IsSet(url) then url else current
  }

  /** Without a portal the configuration's geometry service is taken. */
  lemma GeometryWithoutPortal(configHelpers: Option<Value>, current: Option<Value>)
    ensures GeometryServiceUrl(configHelpers, NoPortal, current) ==
            (if IsSet(GeometryUrlOf(configHelpers)) then GeometryUrlOf(configHelpers) else current)
  {
  }

  //--------------------------------------------------------------------------
  //  _queryPortal: trusted hosts
  //--------------------------------------------------------------------------

  /** `_isDefined(h) && h.length > 0`. */
  predicate IsTrustedHost(h: Value)
  {
    IsDefined(Some(h)) && HasPositiveLength(h)
  }

  /** The servers the loop over `authorizedCrossOriginDomains` pushes, in order. */
  function CorsEntries(domains: seq<Value>): (r: seq<CorsServer>)
    ensures |r| <= |domains|
    ensures forall i :: 0 <= i < |r| ==> r[i].withCredentials && IsTrustedHost(r[i].host)
    decreases |domains|
  {
    if domains == [] then []
    else
      var last := domains[|domains| - 1];
      CorsEntries(domains[..|domains| - 1]) + (if IsTrustedHost(last) then [CorsServer(last, true)] else [])
  }

  /** A host is pushed exactly when it is in the list, defined and non-empty. */
  lemma {:induction false} CorsEntriesMembership(domains: seq<Value>, h: Value)
    ensures CorsServer(h, true) in CorsEntries(domains) <==> h in domains && IsTrustedHost(h)
    decreases |domains|
  {
    if domains != [] {
      var init := domains[..|domains| - 1];
      CorsEntriesMembership(init, h);
      assert domains == init + [domains[|domains| - 1]];
    }
  }

  //--------------------------------------------------------------------------
  //  _queryApplicationItem
  //--------------------------------------------------------------------------

  /** `{url: p.sourceUrl, mixin: {url: p.proxyUrl}}`. */
  function LayerMixin(p: AppProxy): Value
  {
    Obj(map["url" := p.sourceUrl, "mixin" := Obj(map["url" := p.proxyUrl])])
  }

  /**
   * The configuration taken from the application item: its `values`, plus its extent as
   * `application_extent` and its app proxies as `layerMixins` when present.
   */
  function AppConfig(data: AppItem): (cfg: map<string, Value>)
    ensures forall k :: k != "application_extent" && k != "layerMixins" ==>
              (k in cfg <==> HasKey(data.values, k)) && (k in cfg ==> cfg[k] == data.values.value[k])
    ensures data.item.Some? && IsSet(data.item.value.extent) ==>
              "application_extent" in cfg && cfg["application_extent"] == data.item.value.extent.value
    ensures data.item.Some? && data.item.value.appProxies.Some? ==>
              "layerMixins" in cfg &&
              var proxies := data.item.value.appProxies.value;
              cfg["layerMixins"].List? && |cfg["layerMixins"].items| == |proxies| &&
              forall i :: 0 <= i < |proxies| ==> cfg["layerMixins"].items[i] == LayerMixin(proxies[i])
    ensures !(data.item.Some? && IsSet(data.item.value.extent)) ==>
              ("application_extent" in cfg <==> HasKey(data.values, "application_extent"))
    ensures !(data.item.Some? && data.item.value.appProxies.Some?) ==>
              ("layerMixins" in cfg <==> HasKey(data.values, "layerMixins"))
  {
    var cfg := data.values.GetOr(map[]);
    var withExtent :=
      if data.item.Some? && IsSet(data.item.value.extent) then cfg["application_extent" := data.item.value.extent.value]
      else cfg;
    if data.item.Some? && data.item.value.appProxies.Some? then
      var proxies := data.item.value.appProxies.value;
      withExtent["layerMixins" := List(seq(|proxies|, i requires 0 <= i < |proxies| => LayerMixin(proxies[i])))]
    else
      withExtent
  }

  /**
   * `results.applicationItem`. `cfg` is the item's own `values` object, so the keys
   * added to `cfg` also appear in `data.values`.
   */
  function AppItemRecord(data: AppItem): (r: AppItemResult)
    ensures r.config == AppConfig(data)
    ensures r.data.item == data.item
    ensures data.values.Some? ==> r.data.values == Some(r.config)
    ensures data.values.None? ==> r.data.values.None?
  {
    var cfg := AppConfig(data);
    AppItemResult(data.(values := if data.values.Some? then Some(cfg) else None), cfg)
  }

  //--------------------------------------------------------------------------
  //  _overwriteExtent
  //--------------------------------------------------------------------------

  /** `o[i]`; reading a property of `undefined` or `null` throws. */
  function Index(o: Option<Value>, i: nat): (r: Result<Option<Value>>)
    ensures r.Threw? <==> !IsDefined(o)
    ensures r.Threw? ==> r.error == TypeError
    ensures IsDefined(o) && o.value.List? ==> r == Ok(if i < |o.value.items| then Some(o.value.items[i]) else None)
  {
    if !IsDefined(o) then Threw(TypeError)
    else
      match o.value
      case List(items) => Ok(if i < |items| then Some(items[i]) else None)
      case Str(s) => Ok(if i < |s| then Some(Str([s[i]])) else None)
      case Obj(fields) => Ok(Get(fields, NatToDecimal(i)))
      case _ => Ok(None)
  }

  /** `extent[i][j]`. */
  function Corner(extent: Value, i: nat, j: nat): (r: Result<Option<Value>>)
    ensures r.Threw? <==> Index(Some(extent), i).Threw? || !IsDefined(Index(Some(extent), i).value)
  {
    var row := Index(Some(extent), i);
    if row.Threw? then Threw(row.error) else Index(row.value, j)
  }

  /** A corner read as a number by `parseFloat`. */
  function CornerFloat(c: Result<Option<Value>>): Float
    requires c.Ok?
  {
    ParseFloat(c.value)
  }

  /**
   * The extent `_overwriteExtent` writes, `[[xmin, ymin], [xmax, ymax]]` parsed from
   * `extent`, or the TypeError of reading a missing row.
   */
  function ParseExtent(extent: Value): (r: Result<Extent>)
    ensures r.Threw? <==> extent == Null || !IsDefined(Index(Some(extent), 0).value) || !IsDefined(Index(Some(extent), 1).value)
    ensures r.Ok? ==> r.value.ParsedExtent?
  {
    var a := Corner(extent, 0, 0);
    var b := Corner(extent, 0, 1);
    var c := Corner(extent, 1, 0);
    var d := Corner(extent, 1, 1);
    if a.Threw? then Threw(a.error)
    else if c.Threw? then Threw(c.error)
    else Ok(ParsedExtent(CornerFloat(a), CornerFloat(b), CornerFloat(c), CornerFloat(d)))
  }

  /** A two-by-two array gives its four numbers in order. */
  lemma ParseExtentOfPairs(x0: Value, y0: Value, x1: Value, y1: Value)
    ensures ParseExtent(List([List([x0, y0]), List([x1, y1])])) ==
            Ok(ParsedExtent(ParseFloat(Some(x0)), ParseFloat(Some(y0)), ParseFloat(Some(x1)), ParseFloat(Some(y1))))
  {
  }

  /** A one-row extent has no second row to read. */
  lemma ParseExtentOneRow(x0: Value, y0: Value)
    ensures ParseExtent(List([List([x0, y0])])) == Threw(TypeError)
  {
  }

  /** `itemInfo && itemInfo.item`, then `item.extent` truthy. */
  predicate HasExtent(itemInfo: Option<ItemData>)
  {
    itemInfo.Some? && itemInfo.value.item.Some? && itemInfo.value.item.value.extent.Some? &&
    itemInfo.value.item.value.extent.value.Truthy()
  }

  /**
   * `_overwriteExtent(itemInfo, extent)`: an item that has an extent gets the parsed
   * application extent; anything else is left as it is.
   */
  function OverwriteExtent(itemInfo: Option<ItemData>, extent: Value): (r: Result<Option<ItemData>>)
    ensures !HasExtent(itemInfo) ==> r == Ok(itemInfo)
    ensures HasExtent(itemInfo) ==> (r.Threw? <==> ParseExtent(extent).Threw?)
    ensures HasExtent(itemInfo) && r.Ok? ==>
              r.value == Some(itemInfo.value.(item := Some(ItemInfo(Some(ParseExtent(extent).value)))))
    ensures r.Ok? && r.value.Some? ==> itemInfo.Some? && r.value.value.title == itemInfo.value.title
  {
    if HasExtent(itemInfo) then
      match ParseExtent(extent)
      case Threw(e) => Threw(e)
      case Ok(parsed) => Ok(Some(itemInfo.value.(item := Some(ItemInfo(Some(parsed))))))
    else
      Ok(itemInfo)
  }

  /** Rewriting twice with the same extent is rewriting once. */
  lemma OverwriteExtentIdempotent(itemInfo: Option<ItemData>, extent: Value)
    requires OverwriteExtent(itemInfo, extent).Ok?
    ensures OverwriteExtent(OverwriteExtent(itemInfo, extent).value, extent) == OverwriteExtent(itemInfo, extent)
  {
  }

  /** `this.config.appid && applicationExtent && applicationExtent.length > 0`. */
  predicate WantsExtent(config: map<string, Value>)
  {
    IsSet(Get(config, "appid")) && IsSet(Get(config, "application_extent")) &&
    HasPositiveLength(config["application_extent"])
  }
}
