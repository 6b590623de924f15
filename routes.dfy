/** The Teacher app's routing glue (Routes.swift): the `route` notification a
    navigation request posts, the first-match lookup of a screen for a URL, and
    the prop-driven choices of the file screens. Screens are abstract values;
    URL template matching, prop building and `Context(path:)` are parameters. */
module Routes {
  import opened Wrappers

  /** A value of a props dictionary: only string values take part in the
      decisions below (`props[key] as? String`). */
  datatype PropValue = Text(text: string) | NonText(description: string)

  type Props = map<string, PropValue>

  /** `props[key] as? String` */
  function StringProp(props: Props, key: string): (r: Option<string>)
    ensures r.Some? <==> key in props && props[key].Text?
    ensures r.Some? ==> props[key] == Text(r.value)
  {
    if key in props && props[key].Text? then Some(props[key].text) else None
  }

  datatype ContextType = Account | Course | Group | User

  datatype Context = Context(contextType: ContextType, id: string)

  /** `.currentUser` */
  function CurrentUser(): Context {
    Context(User, "self")
  }

  // ---------------------------------------------------------------------------
  // Props.context
  // ---------------------------------------------------------------------------

  predicate HasContextPath(props: Props) {
    StringProp(props, "context").Some? && StringProp(props, "contextID").Some?
  }

  /** `Props.context`: a `context`/`contextID` pair, parsed as a path, comes
      first; otherwise `courseID` names a course; otherwise `groupID` names a
      group; otherwise there is no context. */
  function PropsContext(props: Props, contextFromPath: string -> Option<Context>): (r: Option<Context>)
    ensures HasContextPath(props) ==>
      r == contextFromPath(StringProp(props, "context").value + "/" + StringProp(props, "contextID").value)
    ensures !HasContextPath(props) && StringProp(props, "courseID").Some? ==>
      r == Some(Context(Course, StringProp(props, "courseID").value))
    ensures !HasContextPath(props) && StringProp(props, "courseID").None? && StringProp(props, "groupID").Some? ==>
      r == Some(Context(Group, StringProp(props, "groupID").value))
    ensures !HasContextPath(props) && StringProp(props, "courseID").None? && StringProp(props, "groupID").None? ==>
      r.None?
  {
    var contextType := StringProp(props, "context");
    var contextID := StringProp(props, "contextID");
    if contextType.Some? && contextID.Some? then contextFromPath(contextType.value + "/" + contextID.value)
    else if StringProp(props, "courseID").Some? then Some(Context(Course, StringProp(props, "courseID").value))
    else if StringProp(props, "groupID").Some? then Some(Context(Group, StringProp(props, "groupID").value))
    else None
  }

  /** Precedence: once a `context`/`contextID` pair is present, no `courseID`
      or `groupID` value changes the result; and a `courseID` hides any
      `groupID`. */
  lemma PropsContextPrecedence(props: Props, contextFromPath: string -> Option<Context>, v: PropValue)
    ensures HasContextPath(props) ==>
      PropsContext(props["courseID" := v], contextFromPath) == PropsContext(props, contextFromPath)
      && PropsContext(props["groupID" := v], contextFromPath) == PropsContext(props, contextFromPath)
    ensures !HasContextPath(props) && StringProp(props, "courseID").Some? ==>
      PropsContext(props["groupID" := v], contextFromPath) == PropsContext(props, contextFromPath)
  {
  }

  // ---------------------------------------------------------------------------
  // The file screens
  // ---------------------------------------------------------------------------

  /** The screens the routing decisions below produce; every other native
      screen is named only. */
  datatype Screen =
    | FileDetailsScreen(detailsContext: Option<Context>, fileID: string)
    | FileListScreen(listContext: Context, path: Option<string>)
    | FileEditorScreen(editorContext: Option<Context>, editedFileID: string)
    | HelmScreen(moduleName: string, props: Props)
    | NativeScreen(name: string)

  /** `fileDetails(props:)`: the `preview` prop names the file if it is a
      string, else the `fileID` prop; with neither there is no screen. */
  function FileDetails(props: Props, contextFromPath: string -> Option<Context>): (r: Option<Screen>)
    ensures StringProp(props, "preview").Some? ==>
      r == Some(FileDetailsScreen(PropsContext(props, contextFromPath), StringProp(props, "preview").value))
    ensures StringProp(props, "preview").None? && StringProp(props, "fileID").Some? ==>
      r == Some(FileDetailsScreen(PropsContext(props, contextFromPath), StringProp(props, "fileID").value))
    ensures r.None? <==> StringProp(props, "preview").None? && StringProp(props, "fileID").None?
  {
    var fileID := if StringProp(props, "preview").Some? then StringProp(props, "preview") else StringProp(props, "fileID");
    match fileID
    case None => None
    case Some(id) => Some(FileDetailsScreen(PropsContext(props, contextFromPath), id))
  }

  /** `fileList(props:)`: the details screen whenever `fileDetails` gives one;
      otherwise the list of the props' context (the current user when there is
      none) at the percent-decoded `subFolder` path. It always gives a screen. */
  function FileList(props: Props, contextFromPath: string -> Option<Context>, removingPercentEncoding: string -> Option<string>)
    : (r: Option<Screen>)
    ensures r.Some?
    ensures FileDetails(props, contextFromPath).Some? ==> r == FileDetails(props, contextFromPath)
    ensures FileDetails(props, contextFromPath).None? ==>
      r == Some(FileListScreen(
        PropsContext(props, contextFromPath).GetOr(CurrentUser()),
        if StringProp(props, "subFolder").Some? then removingPercentEncoding(StringProp(props, "subFolder").value) else None))
  {
    var preview := FileDetails(props, contextFromPath);
    if preview.Some? then preview
    else
      var subFolder := StringProp(props, "subFolder");
      Some(FileListScreen(
        PropsContext(props, contextFromPath).GetOr(CurrentUser()),
        if subFolder.Some? then removingPercentEncoding(subFolder.value) else None))
  }

  /** `fileEditor(props:)`: an editor exactly when `fileID` is a string. */
  function FileEditor(props: Props, contextFromPath: string -> Option<Context>): (r: Option<Screen>)
    ensures r.Some? <==> StringProp(props, "fileID").Some?
    ensures r.Some? ==> r.value == FileEditorScreen(PropsContext(props, contextFromPath), StringProp(props, "fileID").value)
  {
    match StringProp(props, "fileID")
    case None => None
    case Some(id) => Some(FileEditorScreen(PropsContext(props, contextFromPath), id))
  }

  /** `/files?preview=7` opens the file's details; `/files` with no props opens
      the current user's file list at the top folder. */
  lemma FileListCases(contextFromPath: string -> Option<Context>, removingPercentEncoding: string -> Option<string>)
    ensures FileList(map["preview" := Text("7")], contextFromPath, removingPercentEncoding)
         == Some(FileDetailsScreen(None, "7"))
    ensures FileList(map[], contextFromPath, removingPercentEncoding) == Some(FileListScreen(CurrentUser(), None))
  {
  }

  // ---------------------------------------------------------------------------
  // TeacherRouter.match
  // ---------------------------------------------------------------------------

  /** The parameters a URL template extracts from a URL. */
  type Params = map<string, string>

  /** What `url.url?.absoluteString` gives; `None` when the components do not
      form a URL. */
  datatype URLComponents = URLComponents(absoluteString: Option<string>)

  /** The `RouteHandler` built for one template: if the template matches, the
      props made from the URL go to the registered native factory when there is
      one, and otherwise to a Helm (React Native) screen for the template. */
  function HandleRoute(template: string, url: URLComponents, userInfo: Option<Props>,
                       routeMatch: (string, URLComponents) -> Option<Params>,
                       makeProps: (URLComponents, Params, Option<Props>) -> Props,
                       factories: map<string, Props -> Option<Screen>>): (r: Option<Screen>)
    ensures routeMatch(template, url).None? ==> r.None?
    ensures routeMatch(template, url).Some? && template !in factories ==>
      r == Some(HelmScreen(template, makeProps(url, routeMatch(template, url).value, userInfo)))
    ensures routeMatch(template, url).Some? && template in factories ==>
      r == factories[template](makeProps(url, routeMatch(template, url).value, userInfo))
  {
    match routeMatch(template, url)
    case None => None
    case Some(params) =>
      var props := makeProps(url, params, userInfo);
      if template in factories then factories[template](props) else Some(HelmScreen(template, props))
  }

  /** `TeacherRouter.match`: the screen of the first registered template, in
      order, that matches the URL and whose factory yields a screen; none if no
      template does. */
  method Match(registeredRoutes: seq<string>, url: URLComponents, userInfo: Option<Props>,
               routeMatch: (string, URLComponents) -> Option<Params>,
               makeProps: (URLComponents, Params, Option<Props>) -> Props,
               factories: map<string, Props -> Option<Screen>>)
    returns (r: Option<Screen>)
    ensures r.Some? ==> exists k :: (
      && 0 <= k < |registeredRoutes|
      && HandleRoute(registeredRoutes[k], url, userInfo, routeMatch, makeProps, factories) == r
      && forall m :: 0 <= m < k ==> HandleRoute(registeredRoutes[m], url, userInfo, routeMatch, makeProps, factories).None?)
    ensures r.None? ==> forall k :: 0 <= k < |registeredRoutes| ==>
      HandleRoute(registeredRoutes[k], url, userInfo, routeMatch, makeProps, factories).None?
  {
    var i := 0;
    while i < |registeredRoutes|
      invariant 0 <= i <= |registeredRoutes|
      invariant forall m :: 0 <= m < i ==> HandleRoute(registeredRoutes[m], url, userInfo, routeMatch, makeProps, factories).None?
    {
      var template := registeredRoutes[i];
      var params := routeMatch(template, url);
      if params.Some? {
        var props := makeProps(url, params.value, userInfo);
        var screen := if template in factories then factories[template](props) else Some(HelmScreen(template, props));
        if screen.Some? {
          return screen;
        }
      }
      i := i + 1;
    }
    return None;
  }

  // ---------------------------------------------------------------------------
  // TeacherRouter.route(to:userInfo:from:options:)
  // ---------------------------------------------------------------------------

  datatype ModalPresentationStyle =
    | FullScreen | PageSheet | FormSheet | CurrentContext | Custom
    | OverFullScreen | OverCurrentContext | Popover | Automatic | NoStyle

  datatype RouteOptions =
    | Push
    | Detail
    | Modal(style: ModalPresentationStyle, isDismissable: bool, embedInNav: bool, addDoneButton: bool)

  /** The values the `route` notification carries. */
  datatype InfoValue = BoolInfo(flag: bool) | StringInfo(str: string) | PropsInfo(props: Props)

  type NotificationInfo = map<string, InfoValue>

  /** The keys a modal presentation adds beyond the common ones. */
  function ModalStyleKeys(style: ModalPresentationStyle): set<string> {
    if style == FormSheet || style == FullScreen then {"modalPresentationStyle"} else {}
  }

  /** The `userInfo` of the `route` notification, or `None` when nothing is
      posted because the components form no URL. Every notification has the
      props (the empty dictionary when none are given) and the absolute URL;
      `.push` adds nothing; `.detail` adds `detail` and
      `embedInNavigationController`, both true; `.modal` adds `modal` (true),
      `embedInNavigationController` and `disableSwipeDownToDismissModal` (the
      negated dismissability), and `modalPresentationStyle` for the form-sheet
      and full-screen styles only. */
  method Route(url: URLComponents, userInfo: Option<Props>, options: RouteOptions)
    returns (posted: Option<NotificationInfo>)
    ensures posted.None? <==> url.absoluteString.None?
    ensures posted.Some? ==> "props" in posted.value && posted.value["props"] == PropsInfo(userInfo.GetOr(map[]))
    ensures posted.Some? ==> "url" in posted.value && posted.value["url"] == StringInfo(url.absoluteString.value)
    ensures posted.Some? && options.Push? ==> posted.value.Keys == {"props", "url"}
    ensures posted.Some? && options.Detail? ==>
      posted.value.Keys == {"props", "url", "detail", "embedInNavigationController"}
      && posted.value["detail"] == BoolInfo(true)
      && posted.value["embedInNavigationController"] == BoolInfo(true)
    ensures posted.Some? && options.Modal? ==>
      posted.value.Keys == {"props", "url", "modal", "embedInNavigationController", "disableSwipeDownToDismissModal"}
                           + ModalStyleKeys(options.style)
      && posted.value["modal"] == BoolInfo(true)
      && posted.value["embedInNavigationController"] == BoolInfo(options.embedInNav)
      && posted.value["disableSwipeDownToDismissModal"] == BoolInfo(!options.isDismissable)
    ensures posted.Some? && options.Modal? && options.style == FormSheet ==>
      posted.value["modalPresentationStyle"] == StringInfo("formsheet")
    ensures posted.Some? && options.Modal? && options.style == FullScreen ==>
      posted.value["modalPresentationStyle"] == StringInfo("fullscreen")
  {
    if url.absoluteString.None? {
      return None;
    }
    var notificationInfo: NotificationInfo := map[
      "props" := PropsInfo(userInfo.GetOr(map[])),
      "url" := StringInfo(url.absoluteString.value)
    ];
    match options {
      case Push =>
      case Detail =>
        notificationInfo := notificationInfo["detail" := BoolInfo(true)];
        notificationInfo := notificationInfo["embedInNavigationController" := BoolInfo(true)];
      case Modal(style, isDismissable, embedInNav, _) =>
        notificationInfo := notificationInfo["modal" := BoolInfo(true)];
        notificationInfo := notificationInfo["embedInNavigationController" := BoolInfo(embedInNav)];
        notificationInfo := notificationInfo["disableSwipeDownToDismissModal" := BoolInfo(!isDismissable)];
        match style {
          case FormSheet =>
            notificationInfo := notificationInfo["modalPresentationStyle" := StringInfo("formsheet")];
          case FullScreen =>
            notificationInfo := notificationInfo["modalPresentationStyle" := StringInfo("fullscreen")];
          case _ =>
        }
    }
    return Some(notificationInfo);
  }
}
