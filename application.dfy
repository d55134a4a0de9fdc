/**
 * The sample application of main.js: it takes the boilerplate's `config` and
 * `results`, sets the page direction, builds the view of the web scene and
 * reports errors on the page. The scene, the view and the page are records of
 * what the code hands to them; the view's readiness is a parameter.
 */
module Application {
  import opened JsValues
  import opened Strings
  import opened BoilerplateModel
  import opened ConfigRules
  import opened Viewpoint

  /** Where the web scene comes from: a loaded portal item, or `itemData`/`item` of a JSON record. */
  datatype SceneSource =
    | FromItem(portalItem: ItemData)
    | FromJson(itemData: Option<Value>, jsonItem: Option<Value>)

  /** The properties `_createWebscene` passes to the scene view. */
  datatype ViewProperties = ViewProperties(
    scene: SceneSource,
    container: string,
    components: Option<seq<string>>,
    camera: Option<Camera>)

  /** The localized strings of the error message. */
  datatype Messages = Messages(error: string, sceneError: string)

  /** What the page shows, and the fields of the application object. */
  datatype AppState = AppState(
    config: map<string, Value>,
    results: Option<Results>,
    dir: Option<string>,
    loading: bool,
    errorShown: bool,
    messageHtml: Option<string>,
    documentTitle: Option<string>,
    view: Option<ViewProperties>)

  const ViewContainer := "viewDiv"
  const ErrorIcon := "esri-icon-notice-round"
  const MissingConfig := "main:: Config is not defined"

  /**
   * The scene `_createWebscene` builds from `results.websceneItem`: the loaded item
   * wins over a JSON record; a record with neither gives no scene.
   */
  function SelectScene(rec: ItemRecord): (r: Option<SceneSource>)
    ensures rec.data.Some? ==> r == Some(FromItem(rec.data.value))
    ensures rec.data.None? && IsSet(rec.json) ==>
              r == Some(FromJson(Field(rec.json.value, "itemData"), Field(rec.json.value, "item")))
    ensures r.None? <==> rec.data.None? && !IsSet(rec.json)
  {
    if rec.data.Some? then Some(FromItem(rec.data.value))
    else if IsSet(rec.json) then Some(FromJson(Field(rec.json.value, "itemData"), Field(rec.json.value, "item")))
    else None
  }

  /** `webscene.portalItem && webscene.portalItem.title`. */
  function PortalItemTitle(src: SceneSource): Option<Value>
  {
    match src
    case FromItem(d) => d.title
    case FromJson(_, item) => AndField(item, "title")
  }

  /**
   * The title rule: a title already in the configuration is kept; otherwise the
   * portal item's title, when it has one, is written into the configuration.
   */
  function DefaultTitle(config: map<string, Value>, src: SceneSource): (c: map<string, Value>)
    ensures IsSet(Get(config, "title")) ==> c == config
    ensures !IsSet(Get(config, "title")) && IsSet(PortalItemTitle(src)) ==>
              c == config["title" := PortalItemTitle(src).value]
    ensures !IsSet(Get(config, "title")) && !IsSet(PortalItemTitle(src)) ==> c == config
    ensures forall k :: k in config && k != "title" ==> k in c && c[k] == config[k]
  {
    if !IsSet(Get(config, "title")) && IsSet(PortalItemTitle(src)) then
      config["title" := PortalItemTitle(src).value]
    else config
  }

  /** Applying the title rule a second time changes nothing. */
  lemma DefaultTitleIdempotent(config: map<string, Value>, src: SceneSource)
    ensures DefaultTitle(DefaultTitle(config, src), src) == DefaultTitle(config, src)
  {
    var c := DefaultTitle(config, src);
    if !IsSet(Get(config, "title")) && IsSet(PortalItemTitle(src)) {
      assert Get(c, "title") == PortalItemTitle(src);
    }
  }

  /**
   * `config.components.split(",")` when `config.components` is truthy: the pieces
   * between commas, which join back to the string; a value without `split` throws.
   */
  function Components(v: Option<Value>): (r: Result<Option<seq<string>>>)
    ensures !IsSet(v) ==> r == Ok(None)
    ensures IsSet(v) && !v.value.Str? ==> r == Threw(TypeError)
    ensures IsSet(v) && v.value.Str? ==>
              && r.Ok? && r.value.Some?
              && Join(r.value.value, ",") == v.value.s
              && forall i :: 0 <= i < |r.value.value| ==> ',' !in r.value.value[i]
  {
    if !IsSet(v) then Ok(None)
    else if !v.value.Str? then Threw(TypeError)
    else
      var parts := Split(v.value.s, ",");
      JoinSplit(v.value.s, ",");
      SplitPieces(v.value.s, ",");
      forall i | 0 <= i < |parts| ensures ',' !in parts[i] {
        IndexOfFinds(parts[i], ",");
        if ',' in parts[i] {
          var j :| 0 <= j < |parts[i]| && parts[i][j] == ',';
          OccursChar(parts[i], ',', j);
        }
      }
      Ok(Some(parts))
  }

  /**
   * The view properties of a scene: the components are read before the camera, so
   * either read may throw, the first one first.
   */
  function ViewOf(config: map<string, Value>, src: SceneSource): (r: Result<ViewProperties>)
    ensures r.Ok? ==> r.value.scene == src && r.value.container == ViewContainer
    ensures r.Ok? ==> Components(Get(config, "components")) == Ok(r.value.components)
    ensures r.Ok? ==> CameraOf(Get(config, "viewpoint")) == Ok(r.value.camera)
  {
    var components := Components(Get(config, "components"));
    if components.Threw? then Threw(components.error)
    else
      var camera := CameraOf(Get(config, "viewpoint"));
      if camera.Threw? then Threw(camera.error)
      else Ok(ViewProperties(src, ViewContainer, components.value, camera.value))
  }

  /** Building the view throws exactly when `components` or `viewpoint` is set to something other than a string. */
  lemma ViewOfThrows(config: map<string, Value>, src: SceneSource)
    ensures ViewOf(config, src).Threw? <==>
              (IsSet(Get(config, "components")) && !Get(config, "components").value.Str?) ||
              (IsSet(Get(config, "viewpoint")) && !Get(config, "viewpoint").value.Str?)
    ensures ViewOf(config, src).Threw? ==> ViewOf(config, src).error == TypeError
  {
  }

  /** The markup `reportError` writes into the loading message node. */
  function ErrorMarkup(messages: Messages, message: string): (html: string)
    ensures |html| >= |message| + 4 && html[|html| - |message| - 4..] == message + "</p>"
  {
    var prefix := "<h1><span class=\"" + ErrorIcon + "\"></span> " + messages.error + "</h1><p>" + messages.sceneError + ": ";
    assert prefix + message + "</p>" == prefix + (message + "</p>");
    prefix + message + "</p>"
  }

  /** `error.message`; the text of a `TypeError` is the engine's. */
  function MessageOf(e: Error, engineText: string): string
  {
    match e
    case Error(m) => m
    case TypeError => engineText
  }

  /** The text `document.title` holds after `document.title = config.title`. */
  function TitleText(title: Option<Value>): string
  {
    if title.None? then "undefined" else JsString(title.value)
  }

  /** `reportError(e)`: the page leaves the loading state and shows the error, with its message when the node exists. */
  function Reported(st: AppState, e: Error, messages: Messages, hasMessageNode: bool, engineText: string): AppState
  {
    st.(loading := false,
        errorShown := true,
        messageHtml := if hasMessageNode then Some(ErrorMarkup(messages, MessageOf(e, engineText))) else st.messageHtml)
  }

  /**
   * `_createWebscene`, given how the view settles (`None` = ready): what it returns and the
   * page after it. Reading `websceneItem` of missing results, or `data` of a missing record,
   * throws; a read of the view properties that throws changes nothing.
   */
  function WebsceneCreated(st: AppState, viewReady: Option<Error>, messages: Messages, hasMessageNode: bool, engineText: string)
    : (Result<()>, AppState)
  {
    if st.results.None? || st.results.value.websceneItem.None? then (Threw(TypeError), st)
    else
      match SelectScene(st.results.value.websceneItem.value)
      case None => (Ok(()), st)
      case Some(src) =>
        match ViewOf(st.config, src)
        case Threw(e) => (Threw(e), st)
        case Ok(v) =>
          var shown := st.(config := DefaultTitle(st.config, src), view := Some(v));
          match viewReady
          case None => (Ok(()), shown.(loading := false, documentTitle := Some(TitleText(Get(shown.config, "title")))))
          case Some(e) => (Ok(()), Reported(shown, e, messages, hasMessageNode, engineText))
  }

  /**
   * What creating the scene can change: never the results or the direction; nothing when it
   * throws; a new view comes with the title rule applied and the page out of the loading
   * state; the document title only when the view is ready; the error only when it is not.
   */
  lemma WebsceneCreatedEffects(st: AppState, viewReady: Option<Error>, messages: Messages, hasMessageNode: bool, engineText: string)
    ensures var p := WebsceneCreated(st, viewReady, messages, hasMessageNode, engineText);
      && p.1.results == st.results && p.1.dir == st.dir
      && (p.0.Threw? ==> p.1 == st)
      && (p.1.view != st.view ==>
            p.1.view.Some? && !p.1.loading && p.1.config == DefaultTitle(st.config, p.1.view.value.scene) &&
            ViewOf(st.config, p.1.view.value.scene) == Ok(p.1.view.value))
      && (p.1.documentTitle != st.documentTitle ==> viewReady.None? && p.1.documentTitle == Some(TitleText(Get(p.1.config, "title"))))
      && (p.1.errorShown != st.errorShown || p.1.messageHtml != st.messageHtml ==> viewReady.Some?)
  {
  }

  /** The main.js application object and the page it runs in. */
  class MainApp {
    const locale: string
    const messages: Messages
    /** Whether the page has a `loading_message` node. */
    const hasMessageNode: bool
    /** The message a `TypeError` thrown by the engine carries. */
    const engineText: string

    var config: map<string, Value>
    var results: Option<Results>
    /** The `dir` attribute of the page. */
    var dir: Option<string>
    /** The body has the loading class. */
    var loading: bool
    /** The body has the error class. */
    var errorShown: bool
    var messageHtml: Option<string>
    var documentTitle: Option<string>
    var view: Option<ViewProperties>

    function State(): AppState
      reads this
    {
      AppState(config, results, dir, loading, errorShown, messageHtml, documentTitle, view)
    }

    /** The object before `init`: `config` and `boilerplateResults` are `null`; the page is loading. */
    constructor(locale: string, messages: Messages, hasMessageNode: bool, engineText: string)
      ensures this.locale == locale && this.messages == messages
      ensures this.hasMessageNode == hasMessageNode && this.engineText == engineText
      ensures State() == AppState(map[], None, None, true, false, None, None, None)
    {
      this.locale := locale;
      this.messages := messages;
      this.hasMessageNode := hasMessageNode;
      this.engineText := engineText;
      config := map[];
      results := None;
      dir := None;
      loading := true;
      errorShown := false;
      messageHtml := None;
      documentTitle := None;
      view := None;
    }

    /** `reportError`: the page leaves the loading state, shows the error, and the error is returned. */
    method ReportError(e: Error) returns (r: Error)
      modifies this
      ensures r == e
      ensures State() == Reported(old(State()), e, messages, hasMessageNode, engineText)
    {
      loading := false;
      errorShown := true;
      if hasMessageNode {
        messageHtml := Some(ErrorMarkup(messages, MessageOf(e, engineText)));
      }
      r := e;
    }

    /** `_setDirection`. */
    method SetDirection()
      modifies this
      ensures State() == old(State()).(dir := Some(Direction(locale)))
    {
      dir := Some(Direction(locale));
    }

    /**
     * `_createWebscene`, given how the view settles (`None` = ready). Reading
     * `websceneItem` of missing results, or `data` of a missing record, throws.
     */
    method CreateWebscene(viewReady: Option<Error>) returns (r: Result<()>)
      modifies this
      ensures (r, State()) == WebsceneCreated(old(State()), viewReady, messages, hasMessageNode, engineText)
    {
      if results.None? || results.value.websceneItem.None? {
        return Threw(TypeError);
      }
      var scene := SelectScene(results.value.websceneItem.value);
      if scene.None? {
        return Ok(());
      }
      var src := scene.value;
      var components := Components(Get(config, "components"));
      if components.Threw? {
        return Threw(components.error);
      }
      var camera := SetCameraViewpoint(Get(config, "viewpoint"));
      if camera.Threw? {
        return Threw(camera.error);
      }
      config := DefaultTitle(config, src);
      view := Some(ViewProperties(src, ViewContainer, components.value, camera.value));
      if viewReady.None? {
        loading := false;
        documentTitle := Some(TitleText(Get(config, "title")));
      } else {
        var _ := ReportError(viewReady.value);
      }
      r := Ok(());
    }

    /**
     * `init`: with the boilerplate's configuration and results, the direction and the
     * scene; without them, the missing-configuration error.
     */
    method Init(boilerplate: Option<(map<string, Value>, Results)>, viewReady: Option<Error>) returns (r: Result<()>)
      modifies this
      ensures boilerplate.None? ==>
                r == Ok(()) && State() == Reported(old(State()), Error(MissingConfig), messages, hasMessageNode, engineText)
      ensures boilerplate.Some? ==>
                var started := old(State()).(config := boilerplate.value.0, results := Some(boilerplate.value.1), dir := Some(Direction(locale)));
                (r, State()) == WebsceneCreated(started, viewReady, messages, hasMessageNode, engineText)
      ensures boilerplate.Some? ==> results == Some(boilerplate.value.1) && dir == Some(Direction(locale))
      ensures boilerplate.Some? && boilerplate.value.1.websceneItem.None? ==> r == Threw(TypeError)
      ensures boilerplate.Some? && IsSet(Get(boilerplate.value.0, "title")) ==> config == boilerplate.value.0
    {
      if boilerplate.None? {
        var _ := ReportError(Error(MissingConfig));
        return Ok(());
      }
      config := boilerplate.value.0;
      results := Some(boilerplate.value.1);
      SetDirection();
      ghost var started := State();
      r := CreateWebscene(viewReady);
      WebsceneCreatedEffects(started, viewReady, messages, hasMessageNode, engineText);
    }
  }
}
