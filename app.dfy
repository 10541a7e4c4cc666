/**
 * The application shell's runtime rules: the menu the layout requests, the
 * `curModel` bookkeeping done on every route change, and the request
 * interceptor that decides whether a request carries a bearer token.
 */
module App {
  import opened Wrappers
  import opened Seqs

  // ---------------------------------------------------------------------------
  // Menu request
  // ---------------------------------------------------------------------------

  /** A route of the route table (only the fields the menu reads). */
  datatype Route = Route(path: string, name: Option<string>, icon: Option<string>, routes: Option<seq<Route>>)

  /** An entry of the layout's menu. */
  datatype MenuEntry = MenuEntry(path: string, name: Option<string>, icon: Option<string>, routes: seq<Route>)

  /** The path of the catch-all 404 route. */
  const Wildcard: string := "*"

  /** `{path, name, icon, routes: route.routes || []}`. */
  function ToMenuEntry(route: Route): (m: MenuEntry)
    ensures m.path == route.path && m.name == route.name && m.icon == route.icon
    ensures route.routes.Some? ==> m.routes == route.routes.value
    ensures route.routes.None? ==> m.routes == []
  {
    MenuEntry(route.path, route.name, route.icon, route.routes.GetOr([]))
  }

  /** `routes.map(...)`: one menu entry per route, in order. */
  function MenuEntries(routes: seq<Route>): (r: seq<MenuEntry>)
    ensures |r| == |routes|
    ensures forall i :: 0 <= i < |r| ==> r[i] == ToMenuEntry(routes[i])
  {
    if routes == [] then [] else [ToMenuEntry(routes[0])] + MenuEntries(routes[1..])
  }

  predicate NotWildcard(entry: MenuEntry) {
    entry.path != Wildcard
  }

  predicate RouteNotWildcard(route: Route) {
    route.path != Wildcard
  }

  /** The menu built from the local route table when no remote menu is stored. */
  function FallbackMenu(routes: seq<Route>): (r: seq<MenuEntry>)
    ensures forall i :: 0 <= i < |r| ==> r[i].path != Wildcard
  {
    Filter(NotWildcard, MenuEntries(routes))
  }

  /** The fallback menu is exactly the non-404 routes, converted, in route-table order. */
  lemma {:induction false} FallbackMenuIsConvertedRoutes(routes: seq<Route>)
    ensures FallbackMenu(routes) == MenuEntries(Filter(RouteNotWildcard, routes))
  {
    if routes != [] {
      FallbackMenuIsConvertedRoutes(routes[1..]);
      assert MenuEntries(routes)[1..] == MenuEntries(routes[1..]);
    }
  }

  /** `layout().menu.request`: no user gives no menu; a stored remote menu wins; else the fallback. */
  function MenuRequest(userId: Option<string>, remoteMenus: Option<seq<MenuEntry>>, routes: seq<Route>): (r: seq<MenuEntry>)
    ensures !Present(userId) ==> r == []
    ensures Present(userId) && remoteMenus.Some? ==> r == remoteMenus.value
    ensures Present(userId) && remoteMenus.None? ==>
              r == MenuEntries(Filter(RouteNotWildcard, routes)) &&
              forall i :: 0 <= i < |r| ==> r[i].path != Wildcard
  {
    if !Present(userId) then []
    else if remoteMenus.Some? then remoteMenus.value
    else
      FallbackMenuIsConvertedRoutes(routes);
      FallbackMenu(routes)
  }

  /** The top level of the project's route table (children included). */
  const ConfigRoutes: seq<Route> := [
    Route("/", Some("首页"), None, None),
    Route("/dashboard", Some("仪表盘"), None, None),
    Route("/user", Some("用户管理"), None, Some([
      Route("/user", None, None, None),
      Route("/user/list", Some("用户列表"), None, None),
      Route("/user/add", Some("添加用户"), None, None)])),
    Route("/form", Some("表单页面"), None, Some([])),
    Route("/demo", Some("演示"), None, Some([
      Route("/demo/page1", Some("演示页面"), None, None),
      Route("/demo/page2", Some("演示页面2"), None, None)])),
    Route("/display", Some("展示模块"), None, Some([
      Route("/display", None, None, None),
      Route("/display/message-list", Some("消息列表"), None, None),
      Route("/display/portfolio-data", Some("持仓数据"), None, None),
      Route("/display/advice-report", Some("建议报告"), None, None),
      Route("/display/system-overview", Some("系统概览"), None, None)])),
    Route("/user/login", Some("login"), None, None),
    Route("*", None, None, None)
  ]

  /** For the project's route table the fallback menu keeps every route but the trailing 404 one. */
  lemma ConfigFallbackMenu()
    ensures FallbackMenu(ConfigRoutes) == MenuEntries(ConfigRoutes[..|ConfigRoutes| - 1])
  {
    var routes := ConfigRoutes;
    var n := |routes|;
    assert routes[n - 1].path == Wildcard;
    assert forall i :: 0 <= i < n - 1 ==> routes[i].path != Wildcard;
    AllButLastWildcard(routes);
  }

  /** A route table whose only 404 route is its last one loses exactly that route. */
  lemma AllButLastWildcard(routes: seq<Route>)
    requires |routes| > 0 && routes[|routes| - 1].path == Wildcard
    requires forall i :: 0 <= i < |routes| - 1 ==> routes[i].path != Wildcard
    ensures FallbackMenu(routes) == MenuEntries(routes[..|routes| - 1])
  {
    var kept := routes[..|routes| - 1];
    assert routes == kept + [routes[|routes| - 1]];
    FallbackMenuIsConvertedRoutes(routes);
    FilterAppend(RouteNotWildcard, kept, [routes[|routes| - 1]]);
    FilterKeepsAll(RouteNotWildcard, kept);
  }

  // ---------------------------------------------------------------------------
  // Route change
  // ---------------------------------------------------------------------------

  /** `s.split('/')`: the pieces between slashes; there is always at least one. */
  function Split(s: string): (r: seq<string>)
    ensures |r| >= 1
  {
    if s == [] then [""]
    else if s[0] == '/' then [""] + Split(s[1..])
    else
      var rest := Split(s[1..]);
      [[s[0]] + rest[0]] + rest[1..]
  }

  /** `pieces.join('/')`. */
  function Join(pieces: seq<string>): string
    requires |pieces| >= 1
  {
    if |pieces| == 1 then pieces[0] else pieces[0] + "/" + Join(pieces[1..])
  }

  /** Splitting loses nothing: joining the pieces back gives the path. */
  lemma {:induction false} JoinSplit(s: string)
    ensures Join(Split(s)) == s
  {
    if s != [] {
      JoinSplit(s[1..]);
      var rest := Split(s[1..]);
      if s[0] == '/' {
        assert [""] + rest != [] && ([""] + rest)[1..] == rest;
        assert s == "/" + s[1..];
      } else {
        var pieces := [[s[0]] + rest[0]] + rest[1..];
        if |rest| == 1 {
          assert s == [s[0]] + s[1..];
        } else {
          assert pieces[1..] == rest[1..];
          assert Join(rest) == rest[0] + "/" + Join(rest[1..]);
          assert s == [s[0]] + s[1..];
        }
      }
    }
  }

  /** No piece of a split contains the separator. */
  lemma {:induction false} SplitPiecesHaveNoSlash(s: string)
    ensures forall i :: 0 <= i < |Split(s)| ==> '/' !in Split(s)[i]
  {
    if s != [] {
      SplitPiecesHaveNoSlash(s[1..]);
      var rest := Split(s[1..]);
      if s[0] != '/' {
        var pieces := [[s[0]] + rest[0]] + rest[1..];
        forall i | 0 <= i < |pieces| ensures '/' !in pieces[i] {
          if i > 0 { assert pieces[i] == rest[i]; }
        }
      }
    }
  }

  predicate NonEmpty(piece: string) {
    piece != ""
  }

  /** The characters of `s` up to, not including, its first slash. */
  function TakeSegment(s: string): (r: string)
    ensures r <= s && '/' !in r
    ensures |r| == |s| || s[|r|] == '/'
  {
    if s == [] || s[0] == '/' then [] else [s[0]] + TakeSegment(s[1..])
  }

  /** `s` without its leading slashes. */
  function DropSlashes(s: string): (r: string)
    ensures |r| <= |s| && r == s[|s| - |r|..]
    ensures forall j :: 0 <= j < |s| - |r| ==> s[j] == '/'
    ensures r == [] || r[0] != '/'
  {
    if s != [] && s[0] == '/' then DropSlashes(s[1..]) else s
  }

  lemma {:induction false} SplitHeadIsSegment(s: string)
    ensures Split(s)[0] == TakeSegment(s)
  {
    if s != [] && s[0] != '/' {
      SplitHeadIsSegment(s[1..]);
    }
  }

  /** `firstPathName`: the first non-empty piece of the path, or "" when there is none. */
  function FirstPathName(pathname: string): string {
    var pieces := Filter(NonEmpty, Split(pathname));
    if |pieces| > 0 then pieces[0] else ""
  }

  /** The first non-empty piece is what follows the leading slashes, up to the next slash. */
  lemma {:induction false} FirstPathNameIsFirstSegment(pathname: string)
    ensures FirstPathName(pathname) == TakeSegment(DropSlashes(pathname))
  {
    if pathname != [] {
      if pathname[0] == '/' {
        FirstPathNameIsFirstSegment(pathname[1..]);
      } else {
        SplitHeadIsSegment(pathname[1..]);
      }
    }
  }

  /** `firstPathName` never holds a slash; it is empty exactly for all-slash paths; otherwise it is what follows the leading slashes, up to the next slash or the end. */
  lemma FirstPathNameProperties(pathname: string)
    ensures '/' !in FirstPathName(pathname)
    ensures FirstPathName(pathname) == "" <==> forall j :: 0 <= j < |pathname| ==> pathname[j] == '/'
    ensures var first, rest := FirstPathName(pathname), DropSlashes(pathname);
            first <= rest && (|first| == |rest| || rest[|first|] == '/')
  {
    FirstPathNameIsFirstSegment(pathname);
    var rest := DropSlashes(pathname);
    var k := |pathname| - |rest|;
    if rest != [] {
      assert pathname[k] == rest[0];
    }
  }

  /** The storage key `onRouteChange` maintains. */
  const CurModelKey: string := "curModel"

  /** `localStorage` after `onRouteChange` for `pathname`: `curModel` moves to a new non-empty first piece. */
  function StorageAfterRoute(items: map<string, string>, pathname: string): (r: map<string, string>)
    ensures forall k :: k != CurModelKey ==> (k in r <==> k in items) && (k in r ==> r[k] == items[k])
    ensures FirstPathName(pathname) != "" ==> CurModelKey in r && r[CurModelKey] == FirstPathName(pathname)
    ensures FirstPathName(pathname) == "" ==> r == items
  {
    var first := FirstPathName(pathname);
    if |first| > 0 && (CurModelKey !in items || items[CurModelKey] != first)
    then items[CurModelKey := first]
    else items
  }

  /** A second route change to the same path leaves storage as it is. */
  lemma RouteChangeIdempotent(items: map<string, string>, pathname: string)
    ensures StorageAfterRoute(StorageAfterRoute(items, pathname), pathname) == StorageAfterRoute(items, pathname)
  {
  }

  /** The browser's `localStorage`, as a string-keyed map. */
  class LocalStorage {
    var items: map<string, string>

    constructor (initial: map<string, string>)
      ensures items == initial
    {
      items := initial;
    }

    /** `onRouteChange`. */
    method OnRouteChange(pathname: string)
      modifies this
      ensures items == StorageAfterRoute(old(items), pathname)
    {
      var curModel: Option<string> := if CurModelKey in items then Some(items[CurModelKey]) else None;
      var firstPathName := FirstPathName(pathname);
      if |firstPathName| > 0 && curModel != Some(firstPathName) {
        items := items[CurModelKey := firstPathName];
      }
    }
  }

  // ---------------------------------------------------------------------------
  // Request interceptor
  // ---------------------------------------------------------------------------

  /** The refresh window: five minutes, in milliseconds. */
  const CheckRegion: int := 5 * 60 * 1000

  /** A request header value: a string, or the boolean `isToken` flag. */
  datatype HeaderValue = Text(text: string) | Flag(flag: bool)

  /** JavaScript truthiness of a header lookup. */
  predicate HeaderTruthy(v: Option<HeaderValue>) {
    match v
    case None => false
    case Some(Text(t)) => t != ""
    case Some(Flag(b)) => b
  }

  function Lookup(entries: map<string, HeaderValue>, name: string): Option<HeaderValue> {
    if name in entries then Some(entries[name]) else None
  }

  /** The interceptor runs its token logic unless a header is set or `isToken` is `false`. */
  predicate TokenLogicApplies(entries: map<string, HeaderValue>) {
    !HeaderTruthy(Lookup(entries, "Authorization")) && Lookup(entries, "isToken") != Some(Flag(false))
  }

  /** What the interceptor does: the bearer value it attaches (if any) and whether it clears the session. */
  datatype Effect = Effect(authorization: Option<string>, clearSession: bool)

  /** The interceptor's decision for one request, `now` being the current time in milliseconds. */
  function Decide(entries: map<string, HeaderValue>, accessToken: Option<string>, refreshToken: Option<string>,
                  expireTime: Option<int>, now: int): (e: Effect)
    ensures !TokenLogicApplies(entries) ==> e == Effect(None, false)
    ensures TokenLogicApplies(entries) && expireTime.None? ==> e == Effect(None, true)
    ensures TokenLogicApplies(entries) && expireTime.Some? && expireTime.value - now < CheckRegion && Present(refreshToken) ==>
              e.authorization.None? && (e.clearSession <==> expireTime.value - now < 0)
    ensures TokenLogicApplies(entries) && expireTime.Some? && !(expireTime.value - now < CheckRegion && Present(refreshToken)) ==>
              !e.clearSession &&
              (e.authorization.Some? <==> Present(accessToken)) &&
              (e.authorization.Some? ==> e.authorization.value == "Bearer " + accessToken.value)
    ensures !(e.clearSession && e.authorization.Some?)
  {
    if !TokenLogicApplies(entries) then Effect(None, false)
    else if expireTime.None? then Effect(None, true)
    else
      var left := expireTime.value - now;
      if left < CheckRegion && Present(refreshToken) then Effect(None, left < 0)
      else if Present(accessToken) then Effect(Some("Bearer " + accessToken.value), false)
      else Effect(None, false)
  }

  /** Without a refresh token an expired access token is still attached; with one, it is cleared instead. */
  lemma ExpiredTokenHandling(entries: map<string, HeaderValue>, accessToken: Option<string>, refreshToken: Option<string>,
                             expireTime: int, now: int)
    requires TokenLogicApplies(entries) && expireTime < now && Present(accessToken)
    ensures !Present(refreshToken) ==>
              Decide(entries, accessToken, refreshToken, Some(expireTime), now) == Effect(Some("Bearer " + accessToken.value), false)
    ensures Present(refreshToken) ==>
              Decide(entries, accessToken, refreshToken, Some(expireTime), now) == Effect(None, true)
  {
  }

  /** The token store read by the interceptor. */
  class Session {
    var accessToken: Option<string>
    var refreshToken: Option<string>
    /** Expiry instant in milliseconds; None when nothing is stored. */
    var expireTime: Option<int>

    constructor (accessToken: Option<string>, refreshToken: Option<string>, expireTime: Option<int>)
      ensures this.accessToken == accessToken && this.refreshToken == refreshToken && this.expireTime == expireTime
    {
      this.accessToken := accessToken;
      this.refreshToken := refreshToken;
      this.expireTime := expireTime;
    }

    /** `clearSessionToken`. */
    method Clear()
      modifies this
      ensures accessToken == None && refreshToken == None && expireTime == None
    {
      accessToken, refreshToken, expireTime := None, None, None;
    }
  }

  /** A request's header object. */
  class Headers {
    var entries: map<string, HeaderValue>

    constructor (entries: map<string, HeaderValue>)
      ensures this.entries == entries
    {
      this.entries := entries;
    }
  }

  /**
   * `requestInterceptors[0]`. A request without a header object gets a fresh
   * one that is never attached to the request, so whatever is written to it
   * is lost; the session may still be cleared.
   */
  method Intercept(session: Session, headers: Headers?, now: int)
    modifies session, headers
    ensures var e := Decide(if headers != null then old(headers.entries) else map[],
                            old(session.accessToken), old(session.refreshToken), old(session.expireTime), now);
            (headers != null ==>
               headers.entries == if e.authorization.Some?
                                  then old(headers.entries)["Authorization" := Text(e.authorization.value)]
                                  else old(headers.entries)) &&
            (e.clearSession ==> session.accessToken == None && session.refreshToken == None && session.expireTime == None) &&
            (!e.clearSession ==> session.accessToken == old(session.accessToken) &&
                                 session.refreshToken == old(session.refreshToken) &&
                                 session.expireTime == old(session.expireTime))
  {
    var h: Headers;
    if headers != null { h := headers; } else { h := new Headers(map[]); }
    var authHeader := Lookup(h.entries, "Authorization");
    var isToken := Lookup(h.entries, "isToken");
    if !HeaderTruthy(authHeader) && isToken != Some(Flag(false)) {
      var expireTime := session.expireTime;
      if expireTime.Some? {
        var left := expireTime.value - now;
        var refreshToken := session.refreshToken;
        if left < CheckRegion && Present(refreshToken) {
          if left < 0 {
            session.Clear();
          }
        } else {
          var accessToken := session.accessToken;
          if Present(accessToken) {
            h.entries := h.entries["Authorization" := Text("Bearer " + accessToken.value)];
          }
        }
      } else {
        session.Clear();
      }
    }
  }
}
