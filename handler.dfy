/**
 * SimpleHTTPRequestHandler: the class-level hook and property registries,
 * the GET dispatch loop of do_GET and the branch of do_POST.
 */
module Handler {
  import opened Wrappers
  import opened PyValues
  import opened Hooks
  import opened Routing
  import opened Uploads

  /** A hook call as call_hook makes it: the stored lambda and the merged arguments. */
  datatype Invocation = Invocation(callee: Value, arguments: seq<Value>)

  /** What a GET request is answered with, before any template is read. */
  datatype Page =
    | IndexPage                                                       // do_GET_index
    | RoutePage(handler: string, argument: Option<string>, succeeded: bool) // a route handler and its return value
    | NoPage                                                          // no route matched

  /** The answer is `respond_html('', 404)` from do_GET itself. */
  predicate RespondsNotFound(page: Page) {
    page.NoPage? || (page.RoutePage? && !page.succeeded)
  }

  /**
   * The value a route handler returns. Only do_GET_favicon, through
   * do_GET_file, can return False; every other handler returns True.
   */
  function HandlerSucceeds(route: string, argument: Option<string>, rootProjectPath: string,
                           isFile: string -> bool, mimeOf: string -> string): (ok: bool)
    ensures route != "favicon" ==> ok
    ensures route == "favicon" ==>
      (ok <==> Served(DoGetFile(rootProjectPath, "favicon", argument, isFile, mimeOf)))
  {
    route == "favicon" ==> Served(DoGetFile(rootProjectPath, "favicon", argument, isFile, mimeOf))
  }

  /** The page do_GET serves for a parsed URL path. */
  function PageFor(path: string, rootProjectPath: string,
                   isFile: string -> bool, mimeOf: string -> string): (page: Page)
    ensures page.IndexPage? <==> path == "/"
    ensures page.NoPage? <==> Dispatch(path).NotFound?
    ensures page.RoutePage? ==>
      && Dispatch(path).Route?
      && page.handler == HandlerName(Dispatch(path).route)
      && page.argument == Dispatch(path).argument
      && (page.succeeded <==>
            (Dispatch(path).route == "favicon" ==>
               Served(DoGetFile(rootProjectPath, "favicon", page.argument, isFile, mimeOf))))
  {
    match Dispatch(path)
    case Index => IndexPage
    case Route(r, a) => RoutePage(HandlerName(r), a, HandlerSucceeds(r, a, rootProjectPath, isFile, mimeOf))
    case NotFound => NoPage
  }

  /** The hook do_GET calls before it serves the page, if any. */
  function HookFor(path: string): (hook: Option<string>)
    ensures hook.None? <==> Dispatch(path).NotFound?
    ensures path == "/" ==> hook == Some("GET")
    ensures Dispatch(path).Route? ==> hook == Some(HookName(Dispatch(path).route))
  {
    match Dispatch(path)
    case Index => Some("GET")
    case Route(r, _) => Some(HookName(r))
    case NotFound => None
  }

  /**
   * A 404 from do_GET happens exactly when no route matches, or when the
   * favicon route's file is missing or of a type do_GET_file does not serve.
   */
  lemma NotFoundExactly(path: string, rootProjectPath: string,
                        isFile: string -> bool, mimeOf: string -> string)
    ensures RespondsNotFound(PageFor(path, rootProjectPath, isFile, mimeOf)) <==>
      || Dispatch(path).NotFound?
      || (&& Dispatch(path).Route? && Dispatch(path).route == "favicon"
          && var file := StaticFilePath(rootProjectPath, "favicon", Dispatch(path).argument);
             !(isFile(file) && (mimeOf(file) in ImageTypes || mimeOf(file) in TextTypes)))
  {
  }

  /** The outcome of do_GET: the hook it called, what that call was, and the page. */
  datatype GetOutcome = GetOutcome(hookName: Option<string>, hookCall: Option<Invocation>, page: Page)

  /** The view do_POST renders. */
  datatype PostView =
    | UploadError(message: string)  // the error template, then the upload form again
    | Prediction(call: Invocation)  // the prediction template, from what the POST hook returns
    | PostHookMissing               // call_hook returned None: do_POST fails on subscripting it

  /** The dictionary write_upload_file returns, as the value handed to the POST hook. */
  function UploadData(result: UploadResult): (v: Value)
    ensures v.Dict? && "error" in v.entries && "message" in v.entries
    ensures v.entries["error"] == Bool(result.Rejected?)
    ensures result.Accepted? ==>
      && v.entries.Keys == {"upload_path", "upload_path_web", "mime_type", "error", "message"}
      && v.entries["upload_path"] == Str(result.uploadPath)
      && v.entries["upload_path_web"] == Str(result.uploadPathWeb)
      && v.entries["mime_type"] == Str(result.mimeType)
      && v.entries["message"] == NoneValue
    ensures result.Rejected? ==> v.entries.Keys == {"error", "message"} && v.entries["message"] == Str(result.message)
  {
    match result
    case Rejected(msg) => Dict(map["error" := Bool(true), "message" := Str(msg)])
    case Accepted(p, w, m) =>
      Dict(map["upload_path" := Str(p), "upload_path_web" := Str(w), "mime_type" := Str(m),
               "error" := Bool(false), "message" := NoneValue])
  }

  /**
   * The registries SimpleHTTPRequestHandler keeps as class attributes, and
   * the request handling that reads them. One object stands for the class:
   * every request handler shares its two dictionaries.
   */
  class SimpleHttpRequestHandler {
    /** `hooks`: hook name to the stored hook dictionary. */
    var hooks: map<string, HookDict>
    /** `properties`: property name to value. */
    var properties: map<string, Value>

    /** Every stored hook passed set_hook's checks. */
    ghost predicate Valid()
      reads this
    {
      forall n :: n in hooks ==> StoredHook(hooks[n])
    }

    /** Both class dictionaries start empty. */
    constructor ()
      ensures Valid() && hooks == map[] && properties == map[]
    {
      hooks := map[];
      properties := map[];
    }

    /**
     * set_hook: store `hook` under `name` if it has a callable `lambda` and
     * its `arguments` (defaulted to `[]`) is a list; otherwise raise, and
     * change nothing.
     */
    method SetHook(name: string, hook: HookDict) returns (outcome: Outcome)
      requires Valid()
      modifies this
      ensures Valid()
      ensures outcome.Pass? <==> ValidateHook(hook).Ok?
      ensures outcome.Fail? ==> outcome.error == ValidateHook(hook).error && hooks == old(hooks)
      ensures outcome.Pass? ==> hooks == old(hooks)[name := ValidateHook(hook).value]
      ensures outcome.Pass? ==>
        forall args :: CallHook(name, args)
          == Some(Invocation(hook["lambda"], args + (if "arguments" in hook then hook["arguments"].items else [])))
      ensures properties == old(properties)
    {
      var checked := ValidateHook(hook);
      match checked
      case Err(message) =>
        outcome := Fail(message);
      case Ok(stored) =>
        hooks := hooks[name := stored];
        outcome := Pass;
    }

    /** set_GET_hook: set_hook under the name `GET`. */
    method SetGetHook(hook: HookDict) returns (outcome: Outcome)
      requires Valid()
      modifies this
      ensures Valid()
      ensures outcome.Pass? <==> ValidateHook(hook).Ok?
      ensures outcome.Pass? ==> hooks == old(hooks)["GET" := ValidateHook(hook).value]
      ensures outcome.Fail? ==> outcome.error == ValidateHook(hook).error && hooks == old(hooks)
      ensures properties == old(properties)
    {
      outcome := SetHook("GET", hook);
    }

    /** set_POST_hook: set_hook under the name `POST`. */
    method SetPostHook(hook: HookDict) returns (outcome: Outcome)
      requires Valid()
      modifies this
      ensures Valid()
      ensures outcome.Pass? <==> ValidateHook(hook).Ok?
      ensures outcome.Pass? ==> hooks == old(hooks)["POST" := ValidateHook(hook).value]
      ensures outcome.Fail? ==> outcome.error == ValidateHook(hook).error && hooks == old(hooks)
      ensures properties == old(properties)
    {
      outcome := SetHook("POST", hook);
    }

    /** set_property: `value` becomes the property `name`; no other property changes. */
    method SetProperty(name: string, value: Value)
      modifies this
      ensures properties == old(properties)[name := value]
      ensures GetProperty(name) == value
      ensures forall n :: n != name ==> GetProperty(n) == old(GetProperty(n))
      ensures hooks == old(hooks)
    {
      properties := properties[name := value];
    }

    /** get_property: None for a name never set, else the value last set. */
    function GetProperty(name: string): (v: Value)
      reads this
      ensures name !in properties ==> v == NoneValue
      ensures name in properties ==> v == properties[name]
    {
      if name !in properties then NoneValue else properties[name]
    }

    /**
     * call_hook(name, *args): None when no hook is registered under `name`;
     * otherwise a call of the stored lambda with the call-site arguments
     * followed by the stored ones.
     */
    function CallHook(name: string, args: seq<Value>): (r: Option<Invocation>)
      reads this
      requires Valid()
      ensures r.None? <==> name !in hooks
      ensures r.Some? ==>
        && r.value.callee == hooks[name]["lambda"] && IsCallable(r.value.callee)
        && |r.value.arguments| == |args| + |hooks[name]["arguments"].items|
        && r.value.arguments[..|args|] == args
        && r.value.arguments[|args|..] == hooks[name]["arguments"].items
    {
      if name !in hooks then None
      else
        var hook := hooks[name];
        Some(Invocation(hook["lambda"], args + hook["arguments"].items))
    }

    /**
     * do_GET for a parsed URL path: `/` calls hook `GET` and serves the
     * index page; every other path (with `/favicon.ico` rewritten) is tried
     * against the routes in order, and the first match calls its hook and
     * then its handler; no match is a 404.
     */
    method DoGet(path: string, rootProjectPath: string,
                 isFile: string -> bool, mimeOf: string -> string) returns (o: GetOutcome)
      requires Valid()
      ensures o.page == PageFor(path, rootProjectPath, isFile, mimeOf)
      ensures o.hookName == HookFor(path)
      ensures o.hookCall == if o.hookName.Some? then CallHook(o.hookName.value, []) else None
    {
      if path == "/" {
        var call := CallHook("GET", []);
        return GetOutcome(Some("GET"), call, IndexPage);
      }
      var urlPath := Rewrite(path);
      var i := 0;
      while i < |Routes|
        invariant 0 <= i <= |Routes|
        invariant forall j :: 0 <= j < i ==> MatchRoute(Routes[j], urlPath).None?
      {
        var route := Routes[i];
        var output := MatchRoute(route, urlPath);
        if output.Some? {
          DispatchToAnyMatch(path, i);
          var hookName := HookName(route);
          var call := CallHook(hookName, []);
          var success := if route == "favicon"
            then Served(DoGetFile(rootProjectPath, "favicon", output.value, isFile, mimeOf))
            else true;
          return GetOutcome(Some(hookName), call, RoutePage(HandlerName(route), output.value, success));
        }
        i := i + 1;
      }
      assert Dispatch(path).NotFound?;
      return GetOutcome(None, None, NoPage);
    }

    /**
     * do_POST for an uploaded file: a rejected upload renders the error and
     * never calls a hook; an accepted one calls hook `POST` with the upload
     * dictionary as its first argument.
     */
    function DoPost(filename: string, rootDataPath: string, rootDataPathWeb: string,
                    detectedMime: string): (view: PostView)
      reads this
      requires Valid()
      ensures var u := WriteUploadFile(filename, rootDataPath, rootDataPathWeb, detectedMime);
        && (view.UploadError? <==> u.result.Rejected?)
        && (view.UploadError? ==> view.message == u.result.message)
        && (view.PostHookMissing? <==> u.result.Accepted? && "POST" !in hooks)
        && (view.Prediction? ==>
              && view.call.callee == hooks["POST"]["lambda"]
              && view.call.arguments == [UploadData(u.result)] + hooks["POST"]["arguments"].items)
    {
      var upload := WriteUploadFile(filename, rootDataPath, rootDataPathWeb, detectedMime);
      if upload.result.Rejected? then UploadError(upload.result.message)
      else
        match CallHook("POST", [UploadData(upload.result)])
        case None => PostHookMissing
        case Some(call) => Prediction(call)
    }
  }
}
