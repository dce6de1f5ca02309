/**
 * The GET routing rule of SimpleHTTPRequestHandler.do_GET: which page a URL
 * path is sent to, with the route regular expression `^/<route>(/(.+)?)?$`
 * (compiled with re.IGNORECASE) written out as a string predicate.
 */
module Routing {
  import opened Wrappers

  /** The routes do_GET tries, in this order. */
  const Routes: seq<string> :=
    ["learning-overview", "tmp", "upload-form", "upload", "food", "css", "js", "favicon"]

  /** The handler methods the class defines for the routes it tries. */
  const DefinedHandlers: set<string> :=
    {"do_GET_learning_overview", "do_GET_tmp", "do_GET_upload_form", "do_GET_upload",
     "do_GET_food", "do_GET_css", "do_GET_js", "do_GET_favicon"}

  /**
   * The case-folded form of a character under re.IGNORECASE, as far as an
   * ASCII pattern character can tell: ASCII letters fold to lower case, and
   * the four non-ASCII letters that Python's regular-expression engine also
   * matches against ASCII letters (dotted capital I, dotless small i, long s,
   * Kelvin sign) fold to the letter they match.
   */
  function Canon(c: char): (f: char)
    ensures !('A' <= f <= 'Z')
    ensures 'A' <= c <= 'Z' ==> f as int == c as int + 32
    ensures 'a' <= c <= 'z' || c == '/' || c == '-' || c == '_' || c == '.' ==> f == c
  {
    if 'A' <= c <= 'Z' then (c as int + 32) as char
    else if c == '\U{0130}' || c == '\U{0131}' then 'i'
    else if c == '\U{017F}' then 's'
    else if c == '\U{212A}' then 'k'
    else c
  }

  /**
   * The characters re.IGNORECASE lets match a lower-case ASCII letter of the
   * pattern: the letter itself, its upper-case form, and the extra letters
   * Python's engine pairs with `i`, `s` and `k`; `/` and `-` match only themselves.
   */
  lemma CanonMatchesPatternLetter(c: char, x: char)
    ensures 'a' <= x <= 'z' ==>
      (Canon(c) == x <==>
        || c == x
        || c as int == x as int - 32
        || (x == 'i' && (c == '\U{0130}' || c == '\U{0131}'))
        || (x == 's' && c == '\U{017F}')
        || (x == 'k' && c == '\U{212A}'))
    ensures x == '/' || x == '-' ==> (Canon(c) == x <==> c == x)
  {
  }

  /** Two strings match character by character under re.IGNORECASE. */
  predicate SameFold(a: string, b: string) {
    |a| == |b| && forall i :: 0 <= i < |a| ==> Canon(a[i]) == Canon(b[i])
  }

  /** What `.+` accepts: a non-empty run of characters other than a newline. */
  predicate DotPlus(s: string) {
    s != [] && '\n' !in s
  }

  /**
   * Matches `path` against `^/<route>(/(.+)?)?$`. None: no match.
   * Some(arg): a match whose group 2 is `arg` (None when the group did not
   * take part). `$` is read as the end of the string.
   */
  function MatchRoute(route: string, path: string): (m: Option<Option<string>>)
    ensures m.Some? ==> |path| > |route| && SameFold(path[..|route| + 1], "/" + route)
    ensures m == Some(None) ==> path[|route| + 1..] == "" || path[|route| + 1..] == "/"
    ensures m.Some? && m.value.Some? ==>
      path[|route| + 1..] == "/" + m.value.value && DotPlus(m.value.value)
  {
    var n := |route| + 1;
    if |path| < n || !SameFold(path[..n], "/" + route) then None
    else
      var rest := path[n..];
      if rest == [] || rest == "/" then Some(None)
      else if rest[0] == '/' && DotPlus(rest[1..]) then Some(Some(rest[1..]))
      else None
  }

  /**
   * Every path of the accepted shape matches, with the right argument: the
   * prefix `/<route>` in any casing, then nothing, a lone `/`, or `/` and an
   * argument without newlines.
   */
  lemma MatchRouteComplete(route: string, prefix: string, arg: Option<string>, trailingSlash: bool)
    requires SameFold(prefix, "/" + route)
    requires arg.Some? ==> DotPlus(arg.value)
    ensures var path := prefix + (if arg.Some? then "/" + arg.value else if trailingSlash then "/" else "");
            MatchRoute(route, path) == Some(arg)
  {
    var path := prefix + (if arg.Some? then "/" + arg.value else if trailingSlash then "/" else "");
    assert path[..|route| + 1] == prefix;
    assert path[|route| + 1..] == (if arg.Some? then "/" + arg.value else if trailingSlash then "/" else "");
  }

  /** A route found in the list and the argument captured for it. */
  datatype Match = Match(index: nat, argument: Option<string>)

  /** The first route of `routes` that `path` matches, if any. */
  function FirstMatch(routes: seq<string>, path: string): (r: Option<Match>)
    ensures r.Some? ==>
      && r.value.index < |routes|
      && MatchRoute(routes[r.value.index], path) == Some(r.value.argument)
      && forall j :: 0 <= j < r.value.index ==> MatchRoute(routes[j], path).None?
    ensures r.None? ==> forall j :: 0 <= j < |routes| ==> MatchRoute(routes[j], path).None?
  {
    if routes == [] then None
    else
      match MatchRoute(routes[0], path)
      case Some(arg) => Some(Match(0, arg))
      case None =>
        match FirstMatch(routes[1..], path)
        case Some(m) => Some(Match(m.index + 1, m.argument))
        case None => None
  }

  /** Where do_GET sends a path. */
  datatype Target =
    | Index                                          // the index page, after hook `GET`
    | Route(route: string, argument: Option<string>) // a route handler, after its hook
    | NotFound                                       // `respond_html('', 404)`

  /** `/favicon.ico` is looked up as `/favicon/favicon.ico`; every other path as it is. */
  function Rewrite(path: string): (p: string)
    ensures path == "/favicon.ico" ==> p == "/favicon/favicon.ico"
    ensures path != "/favicon.ico" ==> p == path
  {
    if path == "/favicon.ico" then "/favicon/favicon.ico" else path
  }

  /** The dispatch decision of do_GET for a parsed URL path. */
  function Dispatch(path: string): (t: Target)
    ensures t.Index? <==> path == "/"
    ensures t.Route? ==> t.route in Routes
  {
    if path == "/" then Index
    else
      match FirstMatch(Routes, Rewrite(path))
      case Some(m) => Route(Routes[m.index], m.argument)
      case None => NotFound
  }

  /** `route.replace('-', '_')`. */
  function Underscored(route: string): (u: string)
    ensures |u| == |route| && '-' !in u
    ensures forall i :: 0 <= i < |route| && route[i] != '-' ==> u[i] == route[i]
    ensures forall i :: 0 <= i < |route| && route[i] == '-' ==> u[i] == '_'
  {
    seq(|route|, i requires 0 <= i < |route| => if route[i] == '-' then '_' else route[i])
  }

  /** `'do_GET_%s' % route.replace('-', '_')`: the method do_GET calls for a matched route. */
  function HandlerName(route: string): (n: string)
    ensures |n| == |route| + 7 && n[..7] == "do_GET_"
    ensures forall i :: 7 <= i < |n| ==> n[i] == if route[i - 7] == '-' then '_' else route[i - 7]
  {
    "do_GET_" + Underscored(route)
  }

  /** `'GET_%s' % route.replace('-', '_')`: the hook do_GET calls before that handler. */
  function HookName(route: string): (n: string)
    ensures |n| == |route| + 4 && n[..4] == "GET_"
    ensures forall i :: 4 <= i < |n| ==> n[i] == if route[i - 4] == '-' then '_' else route[i - 4]
  {
    "GET_" + Underscored(route)
  }

  /** A route's handler name is `do_` followed by its hook name. */
  lemma HandlerNameIsDoHookName(route: string)
    ensures HandlerName(route) == "do_" + HookName(route)
  {
    assert HandlerName(route) == "do_" + ("GET_" + Underscored(route));
  }

  /** Replacing `-` by `_` loses nothing in a name that has no `_`. */
  lemma UnderscoredInjective(a: string, b: string)
    requires '_' !in a && '_' !in b
    ensures Underscored(a) == Underscored(b) ==> a == b
  {
    if Underscored(a) == Underscored(b) {
      forall i | 0 <= i < |a| ensures a[i] == b[i] {
        assert Underscored(a)[i] == Underscored(b)[i];
      }
    }
  }

  /** The shape of the routes the class defines. */
  predicate WellFormedRoute(route: string) {
    route != [] && forall i :: 0 <= i < |route| ==> 'a' <= route[i] <= 'z' || route[i] == '-'
  }

  /** What a match of `route` says about the characters of `path`. */
  lemma MatchedCharacters(route: string, path: string)
    ensures MatchRoute(route, path).Some? ==>
      forall k :: 0 <= k < |route| ==> Canon(path[k + 1]) == Canon(route[k])
    ensures MatchRoute(route, path).Some? && |path| > |route| + 1 ==> path[|route| + 1] == '/'
  {
    if MatchRoute(route, path).Some? {
      forall k | 0 <= k < |route| ensures Canon(path[k + 1]) == Canon(route[k]) {
        assert ("/" + route)[k + 1] == route[k];
      }
      if |path| > |route| + 1 {
        assert path[|route| + 1..][0] == path[|route| + 1];
      }
    }
  }

  /** No path matches two different routes of the kind the class defines. */
  lemma MatchesAreDisjoint(r1: string, r2: string, path: string)
    requires WellFormedRoute(r1) && WellFormedRoute(r2) && r1 != r2
    ensures MatchRoute(r1, path).None? || MatchRoute(r2, path).None?
  {
    MatchedCharacters(r1, path);
    MatchedCharacters(r2, path);
    if |r1| == |r2| {
      assert exists k :: 0 <= k < |r1| && r1[k] != r2[k];
    } else if |r1| < |r2| {
      assert Canon(r2[|r1|]) != '/';
    } else {
      assert Canon(r1[|r2|]) != '/';
    }
  }

  /** The route list holds well-formed, pairwise distinct routes. */
  lemma RoutesWellFormed()
    ensures forall i :: 0 <= i < |Routes| ==> WellFormedRoute(Routes[i])
    ensures forall i, j :: 0 <= i < j < |Routes| ==> Routes[i] != Routes[j]
  {
  }

  /**
   * The order of the route list does not matter for the routes the class
   * defines: any route a path matches is the one it is dispatched to, with the
   * argument that route captured.
   */
  lemma {:induction false} DispatchToAnyMatch(path: string, i: nat)
    requires path != "/" && i < |Routes|
    requires MatchRoute(Routes[i], Rewrite(path)).Some?
    ensures Dispatch(path) == Route(Routes[i], MatchRoute(Routes[i], Rewrite(path)).value)
  {
    RoutesWellFormed();
    var p := Rewrite(path);
    var m := FirstMatch(Routes, p);
    assert m.Some?;
    if m.value.index != i {
      MatchesAreDisjoint(Routes[m.value.index], Routes[i], p);
    }
  }

  /**
   * First match wins: a path other than `/` goes to route `r` with argument
   * `a` exactly when `r` is the first route of the list that the rewritten
   * path matches and `a` is what it captured; it is not found exactly when no
   * route matches.
   */
  lemma DispatchFirstMatch(path: string)
    requires path != "/"
    ensures Dispatch(path).NotFound? <==>
      forall j :: 0 <= j < |Routes| ==> MatchRoute(Routes[j], Rewrite(path)).None?
    ensures forall i, a :: 0 <= i < |Routes| ==>
      (Dispatch(path) == Route(Routes[i], a) <==>
        MatchRoute(Routes[i], Rewrite(path)) == Some(a)
        && forall j :: 0 <= j < i ==> MatchRoute(Routes[j], Rewrite(path)).None?)
  {
    RoutesWellFormed();
    forall i, a | 0 <= i < |Routes|
      ensures Dispatch(path) == Route(Routes[i], a) <==>
        MatchRoute(Routes[i], Rewrite(path)) == Some(a)
        && forall j :: 0 <= j < i ==> MatchRoute(Routes[j], Rewrite(path)).None?
    {
      var m := FirstMatch(Routes, Rewrite(path));
      if m.Some? && m.value.index != i {
        assert Routes[m.value.index] != Routes[i];
      }
    }
  }

  /** `/favicon.ico` is served by the favicon route with argument `favicon.ico`. */
  lemma FaviconIco(path: string)
    requires path == "/favicon.ico"
    ensures Dispatch(path) == Route("favicon", Some("favicon.ico"))
  {
    var p := Rewrite(path);
    assert p == "/favicon/favicon.ico";
    assert Routes[7] == "favicon";
    assert p[..8] == "/favicon";
    assert SameFold(p[..8], "/favicon");
    assert p[8..] == "/favicon.ico";
    assert MatchRoute("favicon", p) == Some(Some("favicon.ico"));
    DispatchToAnyMatch(path, 7);
  }

  /** A path differing from `/<route>` in some folded character of that prefix does not match. */
  lemma MismatchAt(route: string, path: string, k: nat)
    requires k <= |route| && k < |path|
    requires Canon(path[k]) != Canon(("/" + route)[k])
    ensures MatchRoute(route, path).None?
  {
    assert |path| >= |route| + 1 ==> path[..|route| + 1][k] == path[k];
  }

  /**
   * A path that starts with `/favicon` in any casing and goes on with
   * anything but `/` is not found, unless it is exactly `/favicon.ico` (the
   * rewrite compares exactly, so `/FAVICON.ICO` is one of these).
   */
  lemma FaviconLookalikeNotFound(path: string)
    requires |path| > 8 && SameFold(path[..8], "/favicon") && path[8] != '/'
    requires path != "/favicon.ico"
    ensures Dispatch(path) == NotFound
  {
    assert Rewrite(path) == path;
    assert Canon(path[1]) == 'f' && Canon(path[2]) == 'a' by {
      assert path[..8][1] == path[1] && path[..8][2] == path[2];
    }
    MismatchAt(Routes[0], path, 1);
    MismatchAt(Routes[1], path, 1);
    MismatchAt(Routes[2], path, 1);
    MismatchAt(Routes[3], path, 1);
    MismatchAt(Routes[4], path, 2);
    MismatchAt(Routes[5], path, 1);
    MismatchAt(Routes[6], path, 1);
    assert path[8..][0] == path[8];
    assert MatchRoute(Routes[7], path).None?;
    var m := FirstMatch(Routes, path);
    if m.Some? {
      assert m.value.index < 8;
    }
  }

  /** `/favicon` and `/favicon/` reach the favicon route with no argument. */
  lemma BareFaviconHasNoArgument(path: string)
    requires path == "/favicon" || path == "/favicon/"
    ensures Dispatch(path) == Route("favicon", None)
  {
    assert Routes[7] == "favicon";
    MatchRouteComplete("favicon", "/favicon", None, path == "/favicon/");
    assert path == "/favicon" + (if path == "/favicon/" then "/" else "");
    DispatchToAnyMatch(path, 7);
  }

  /** The index page never consults the route list, and no route takes `/`. */
  lemma IndexOnlyForRoot(path: string)
    ensures Dispatch(path) == Index <==> path == "/"
    ensures forall i :: 0 <= i < |Routes| ==> MatchRoute(Routes[i], "/").None?
  {
    RoutesWellFormed();
    forall i | 0 <= i < |Routes| ensures MatchRoute(Routes[i], "/").None? {
      assert |Routes[i]| >= |"/"|;
    }
  }

  /**
   * Every route's handler exists, so the AssertionError for a missing handler
   * is never raised.
   */
  lemma HandlersExist()
    ensures forall i :: 0 <= i < |Routes| ==> HandlerName(Routes[i]) in DefinedHandlers
  {
    forall k | 0 <= k < |Routes| ensures HandlerName(Routes[k]) in DefinedHandlers {
      RouteSuffix(k);
      DefinedHandlerFor(Underscored(Routes[k]));
    }
  }

  /** A route without a hyphen is its own underscored form. */
  lemma UnderscoredPlain(route: string)
    requires '-' !in route
    ensures Underscored(route) == route
  {
  }

  /** The routes with their hyphens replaced: what follows `do_GET_` in each handler's name. */
  const HandlerSuffixes: set<string> :=
    {"learning_overview", "tmp", "upload_form", "upload", "food", "css", "js", "favicon"}

  /** Each route's underscored form is one of the handler suffixes. */
  lemma RouteSuffix(k: nat)
    requires k < |Routes|
    ensures Underscored(Routes[k]) in HandlerSuffixes
  {
    if k == 0 {
      assert Underscored(Routes[0]) == "learning_overview";
    } else if k == 2 {
      assert Underscored(Routes[2]) == "upload_form";
    } else {
      UnderscoredPlain(Routes[k]);
    }
  }

  /** `do_GET_` followed by a handler suffix names a handler the class defines. */
  lemma DefinedHandlerFor(u: string)
    requires u in HandlerSuffixes
    ensures "do_GET_" + u in DefinedHandlers
  {
    if u == "learning_overview" {
      assert "do_GET_" + u == "do_GET_learning_overview";
    } else if u == "tmp" {
      assert "do_GET_" + u == "do_GET_tmp";
    } else if u == "upload_form" {
      assert "do_GET_" + u == "do_GET_upload_form";
    } else if u == "upload" {
      assert "do_GET_" + u == "do_GET_upload";
    } else if u == "food" {
      assert "do_GET_" + u == "do_GET_food";
    } else if u == "css" {
      assert "do_GET_" + u == "do_GET_css";
    } else if u == "js" {
      assert "do_GET_" + u == "do_GET_js";
    } else {
      assert "do_GET_" + u == "do_GET_favicon";
    }
  }

  /** No two routes share a hook. */
  lemma HookNamesDistinct()
    ensures forall i, j :: 0 <= i < j < |Routes| ==> HookName(Routes[i]) != HookName(Routes[j])
  {
    RoutesWellFormed();
    forall i, j | 0 <= i < j < |Routes| ensures HookName(Routes[i]) != HookName(Routes[j]) {
      assert HookName(Routes[i])[4..] == Underscored(Routes[i]);
      assert HookName(Routes[j])[4..] == Underscored(Routes[j]);
      UnderscoredInjective(Routes[i], Routes[j]);
    }
  }
}
