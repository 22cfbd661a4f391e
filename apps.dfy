/** The GUI server's Tornado applications: the main server, whose route table
    and GUI settings follow the server options, and the redirector that sends
    plain HTTP traffic to HTTPS. A handler is its class together with the
    keyword arguments it is given; the objects among those arguments are
    recorded by what they are built from. */
module Apps {
  import opened Values
  import opened ServerOptions

  /** The WebSocket URL template the browser connects to. */
  const WEBSOCKET_SOURCE_TEMPLATE: string := "/ws/api/$server/$port/$uuid"
  /** The WebSocket URL template for connecting to Juju 2 and later. */
  const WEBSOCKET_TARGET_TEMPLATE: string := "wss://{server}:{port}/model/{uuid}/api"
  /** The WebSocket URL template for connecting to Juju before 2. */
  const WEBSOCKET_TARGET_TEMPLATE_PRE2: string := "wss://{server}:{port}/environment/{uuid}/api"

  const WS_PATTERN: string := "^/ws(?:/.*)?$"
  const JUJU_CORE_PATTERN: string := "^/juju-core/(.*)"
  const TESTS_PATTERN: string := "^/test/(.*)"
  const INFO_PATTERN: string := "^/gui-server-info"
  const CATCH_ALL_PATTERN: string := ".*"

  /** The bundle deployer, by what it is built from. */
  datatype Deployer = Deployer(apiurl: Option<string>, apiversion: string, charmworldurl: Option<string>)

  /** The user authentication backend for an API implementation. */
  datatype AuthBackend = AuthBackend(apiversion: string)

  /** A fresh collection of authentication tokens. */
  datatype TokenCollection = Tokens

  /** The settings of the GUI's WSGI application, one field per
      `jujugui.*` setting name (`apiAddress` is `jujugui.apiAddress`,
      `gtmEnabled` is `jujugui.GTM_enabled`, and so on); the password setting
      is present only when a password is set. */
  datatype Settings = Settings(
    apiAddress: Option<string>,
    combine: bool,
    gtmEnabled: bool,
    gzip: bool,
    insecure: bool,
    interactiveLogin: bool,
    jemUrl: Option<string>,
    jemApiPath: string,
    charmstoreUrl: string,
    charmstoreApiPath: string,
    jujuCoreVersion: Option<string>,
    raw: bool,
    sandbox: bool,
    socketTemplate: string,
    uuid: Option<string>,
    password: Option<string>)

  /** A handler class together with the keyword arguments it is given. */
  datatype Handler =
    | SandboxHandler
    | WebSocketHandler(apiurl: Option<string>, authBackend: AuthBackend, deployer: Deployer,
                       tokens: TokenCollection, wsSourceTemplate: string, wsTargetTemplate: string)
    | JujuProxyHandler(targetUrl: string, charmworldUrl: Option<string>)
    | StaticFileHandler(path: string, defaultFilename: string)
    | InfoHandler(apiurl: Option<string>, apiversion: string, deployer: Deployer, sandbox: bool, startTime: int)
    | FallbackHandler(fallback: Settings)
    | HttpsRedirectHandler

  /** A URL specification: a pattern and its handler. */
  datatype Route = Route(pattern: string, handler: Handler)

  datatype Application = Application(handlers: seq<Route>, debug: bool)

  /** The first route with the given pattern, the way the route table is
      searched by pattern. */
  function UrlSpec(routes: seq<Route>, pattern: string): (r: Option<Route>)
    ensures r.None? <==> forall i :: 0 <= i < |routes| ==> routes[i].pattern != pattern
    ensures r.Some? ==> r.value in routes && r.value.pattern == pattern
  {
    if routes == [] then None
    else if routes[0].pattern == pattern then Some(routes[0])
    else
      var rest := UrlSpec(routes[1..], pattern);
      assert forall i :: 1 <= i < |routes| ==> routes[i] == routes[1..][i - 1];
      rest
  }

  /** Searching a concatenation searches the first part, then the second. */
  lemma {:induction false} UrlSpecAppend(a: seq<Route>, b: seq<Route>, pattern: string)
    ensures UrlSpec(a + b, pattern) == if UrlSpec(a, pattern).Some? then UrlSpec(a, pattern) else UrlSpec(b, pattern)
  {
    if a != [] {
      assert (a + b)[1..] == a[1..] + b;
      UrlSpecAppend(a[1..], b, pattern);
    } else {
      assert a + b == b;
    }
  }

  predicate IsDigit(c: char) {
    '0' <= c <= '9'
  }

  /** The string without its leading dots. */
  function DropDots(s: string): (r: string)
    ensures |r| <= |s| && r == s[|s| - |r|..]
    ensures forall k :: 0 <= k < |s| - |r| ==> s[k] == '.'
    ensures r != [] ==> r[0] != '.'
  {
    if s != [] && s[0] == '.' then DropDots(s[1..]) else s
  }

  /** The longest prefix of `s` made of decimal digits. */
  function LeadingDigits(s: string): (d: string)
    ensures d <= s
    ensures forall i :: 0 <= i < |d| ==> IsDigit(d[i])
    ensures |d| < |s| ==> !IsDigit(s[|d|])
  {
    if s != [] && IsDigit(s[0]) then [s[0]] + LeadingDigits(s[1..]) else []
  }

  function DigitValue(c: char): nat
    requires IsDigit(c)
  {
    c as int - '0' as int
  }

  /** The number a string of decimal digits denotes. */
  function DigitsValue(d: string): nat
    requires forall i :: 0 <= i < |d| ==> IsDigit(d[i])
  {
    if d == [] then 0
    else
      var last := d[|d| - 1];
      assert IsDigit(last);
      DigitsValue(d[..|d| - 1]) * 10 + DigitValue(last)
  }

  /** `LooseVersion(version) < LooseVersion('2')` under Python 2 ordering, for
      a non-empty version. LooseVersion drops dots and splits the rest into
      numbers and words; a list starting with a number below 2, or an empty
      list, is below [2], while a word sorts after every number. */
  predicate BeforeVersion2(version: string) {
    var rest := DropDots(version);
    rest == [] || (IsDigit(rest[0]) && DigitsValue(LeadingDigits(rest)) < 2)
  }

  /** A number written with a leading digit of 2 or more is never below 2. */
  lemma {:induction false} DigitsValueAtLeastLeading(d: string)
    requires d != [] && forall i :: 0 <= i < |d| ==> IsDigit(d[i])
    ensures DigitsValue(d) >= DigitValue(d[0])
  {
    if |d| > 1 {
      DigitsValueAtLeastLeading(d[..|d| - 1]);
      assert d[..|d| - 1][0] == d[0];
    }
  }

  /** The version test reads the first number of the version: a version
      whose first number is below 2 selects the pre-2 template, any other the
      model template; in particular a leading digit from 2 up selects the
      model template, and a lone leading 0 or 1 the pre-2 one. */
  lemma VersionTest(version: string)
    requires version != [] && IsDigit(version[0])
    ensures BeforeVersion2(version) <==> DigitsValue(LeadingDigits(version)) < 2
    ensures version[0] >= '2' ==> !BeforeVersion2(version)
    ensures (version[0] == '0' || version[0] == '1') && (|version| == 1 || !IsDigit(version[1])) ==>
      BeforeVersion2(version)
  {
    var d := LeadingDigits(version);
    assert DropDots(version) == version;
    assert d[0] == version[0];
    DigitsValueAtLeastLeading(d);
    if |version| == 1 || !IsDigit(version[1]) {
      assert d == [version[0]];
      assert d[..0] == [];
    }
  }

  /** The target template for the Juju version: the pre-2 one for a version
      below 2. */
  function TargetTemplate(version: string): string {
    if BeforeVersion2(version) then WEBSOCKET_TARGET_TEMPLATE_PRE2 else WEBSOCKET_TARGET_TEMPLATE
  }

  /** The WebSocket routes come first. In sandbox mode there is one, to the
      sandbox handler with no arguments, and no juju-core proxy; otherwise the
      WebSocket proxy to Juju, with the target template chosen by the Juju
      version, comes immediately before the juju-core HTTPS proxy. */
  ghost predicate WebSocketRoutes(routes: seq<Route>, options: Options, wsToHttp: Option<string> -> string) {
    if options.sandbox then
      |routes| >= 1 && routes[0] == Route(WS_PATTERN, SandboxHandler) &&
      UrlSpec(routes, JUJU_CORE_PATTERN).None?
    else
      var version := if options.jujuversion.Some? then options.jujuversion.value else "";
      |routes| >= 2 &&
      routes[0] == Route(WS_PATTERN, WebSocketHandler(
        options.apiurl, AuthBackend(options.apiversion), DeployerFor(options), Tokens,
        WEBSOCKET_SOURCE_TEMPLATE, TargetTemplate(version))) &&
      routes[1] == Route(JUJU_CORE_PATTERN, JujuProxyHandler(wsToHttp(options.apiurl), options.charmworldurl))
  }

  /** The bundle deployer the handlers share. */
  function DeployerFor(options: Options): Deployer {
    Deployer(options.apiurl, options.apiversion, options.charmworldurl)
  }

  /** The GUI tests are served exactly when a tests root is set, from it. */
  ghost predicate TestsRoute(routes: seq<Route>, options: Options) {
    var root := options.testsroot;
    (UrlSpec(routes, TESTS_PATTERN).Some? <==> NonEmpty(root)) &&
    (NonEmpty(root) ==>
       UrlSpec(routes, TESTS_PATTERN) == Some(Route(TESTS_PATTERN, StaticFileHandler(root.value, "index.html"))))
  }

  /** The GUI settings: options copied as they are, `combine` the negation of
      the GUI debug flag, the WebSocket source template, and the password
      exactly when one is set. */
  ghost predicate GuiSettings(settings: Settings, options: Options) {
    settings.apiAddress == options.apiurl &&
    settings.combine == !options.jujuguidebug &&
    settings.gtmEnabled == options.gtm &&
    settings.gzip == options.gzip &&
    settings.insecure == options.insecure &&
    settings.interactiveLogin == options.interactivelogin &&
    settings.jemUrl == options.jemlocation &&
    settings.jemApiPath == options.jemversion &&
    settings.charmstoreUrl == options.charmstoreurl &&
    settings.charmstoreApiPath == options.charmstoreversion &&
    settings.jujuCoreVersion == options.jujuversion &&
    settings.raw == options.jujuguidebug &&
    settings.sandbox == options.sandbox &&
    settings.socketTemplate == WEBSOCKET_SOURCE_TEMPLATE &&
    settings.uuid == options.uuid &&
    (settings.password.Some? <==> NonEmpty(options.password)) &&
    (settings.password.Some? ==> settings.password == options.password)
  }

  /** The last two routes are the server information and then the catch-all
      fallback to the GUI's WSGI application. */
  ghost predicate ClosingRoutes(routes: seq<Route>, options: Options, startTime: int) {
    |routes| >= 2 &&
    routes[|routes| - 2] == Route(INFO_PATTERN, InfoHandler(
      options.apiurl, options.apiversion, DeployerFor(options), options.sandbox, startTime)) &&
    var fallback := routes[|routes| - 1];
    fallback.pattern == CATCH_ALL_PATTERN && fallback.handler.FallbackHandler? &&
    GuiSettings(fallback.handler.fallback, options)
  }

  /** What the main server application is, for the given options. */
  ghost predicate GuiServerApp(app: Application, options: Options, startTime: int, wsToHttp: Option<string> -> string) {
    |app.handlers| == SocketCount(options) + (if NonEmpty(options.testsroot) then 1 else 0) + 2 &&
    WebSocketRoutes(app.handlers, options, wsToHttp) &&
    TestsRoute(app.handlers, options) &&
    ClosingRoutes(app.handlers, options, startTime) &&
    app.debug == options.debug
  }

  /** How many WebSocket routes the main server has: the sandbox route, or
      the WebSocket proxy and the juju-core proxy. */
  function SocketCount(options: Options): nat {
    if options.sandbox then 1 else 2
  }

  /** The WebSocket handlers of the main server, the first part of its route
      table. */
  method SocketHandlers(options: Options, wsToHttp: Option<string> -> string) returns (routes: seq<Route>)
    requires options.sandbox || NonEmpty(options.jujuversion)
    ensures |routes| == SocketCount(options) && WebSocketRoutes(routes, options, wsToHttp)
    ensures forall i :: 0 <= i < |routes| ==> routes[i].pattern in {WS_PATTERN, JUJU_CORE_PATTERN}
  {
    routes := [];
    if options.sandbox {
      routes := routes + [Route(WS_PATTERN, SandboxHandler)];
    } else {
      var target := WEBSOCKET_TARGET_TEMPLATE;
      if BeforeVersion2(options.jujuversion.value) {
        target := WEBSOCKET_TARGET_TEMPLATE_PRE2;
      }
      var webSocket := WebSocketHandler(
        apiurl := options.apiurl,
        authBackend := AuthBackend(options.apiversion),
        deployer := DeployerFor(options),
        tokens := Tokens,
        wsSourceTemplate := WEBSOCKET_SOURCE_TEMPLATE,
        wsTargetTemplate := target);
      var jujuProxy := JujuProxyHandler(
        targetUrl := wsToHttp(options.apiurl),
        charmworldUrl := options.charmworldurl);
      routes := routes + [Route(WS_PATTERN, webSocket), Route(JUJU_CORE_PATTERN, jujuProxy)];
    }
  }

  /** The settings of the GUI's WSGI application. */
  method WsgiSettings(options: Options) returns (settings: Settings)
    ensures GuiSettings(settings, options)
  {
    settings := Settings(
      apiAddress := options.apiurl,
      combine := !options.jujuguidebug,
      gtmEnabled := options.gtm,
      gzip := options.gzip,
      insecure := options.insecure,
      interactiveLogin := options.interactivelogin,
      jemUrl := options.jemlocation,
      jemApiPath := options.jemversion,
      charmstoreUrl := options.charmstoreurl,
      charmstoreApiPath := options.charmstoreversion,
      jujuCoreVersion := options.jujuversion,
      raw := options.jujuguidebug,
      sandbox := options.sandbox,
      socketTemplate := WEBSOCKET_SOURCE_TEMPLATE,
      uuid := options.uuid,
      password := None);
    if NonEmpty(options.password) {
      settings := settings.(password := options.password);
    }
  }

  /** The information route and the fallback to the GUI, the last part of
      the main server's route table. */
  method ClosingHandlers(options: Options, startTime: int) returns (routes: seq<Route>)
    ensures |routes| == 2 && ClosingRoutes(routes, options, startTime)
    ensures UrlSpec(routes, TESTS_PATTERN).None? && UrlSpec(routes, JUJU_CORE_PATTERN).None?
  {
    var info := InfoHandler(
      apiurl := options.apiurl,
      apiversion := options.apiversion,
      deployer := DeployerFor(options),
      sandbox := options.sandbox,
      startTime := startTime);
    var settings := WsgiSettings(options);
    routes := [Route(INFO_PATTERN, info), Route(CATCH_ALL_PATTERN, FallbackHandler(settings))];
  }

  /** Routes added after the WebSocket routes do not change what they are. */
  lemma WebSocketRoutesExtend(routes: seq<Route>, more: seq<Route>, options: Options, wsToHttp: Option<string> -> string)
    requires WebSocketRoutes(routes, options, wsToHttp)
    requires UrlSpec(more, JUJU_CORE_PATTERN).None?
    ensures WebSocketRoutes(routes + more, options, wsToHttp)
  {
    UrlSpecAppend(routes, more, JUJU_CORE_PATTERN);
  }

  /** Routes added before the closing routes do not change what they are. */
  lemma ClosingRoutesExtend(routes: seq<Route>, closing: seq<Route>, options: Options, startTime: int)
    requires |closing| == 2 && ClosingRoutes(closing, options, startTime)
    ensures ClosingRoutes(routes + closing, options, startTime)
  {
    var all := routes + closing;
    assert all[|all| - 2] == closing[0] && all[|all| - 1] == closing[1];
  }

  /** The tests part of the route table, for the given options. */
  predicate TestsPart(tests: seq<Route>, options: Options) {
    if NonEmpty(options.testsroot) then
      tests == [Route(TESTS_PATTERN, StaticFileHandler(options.testsroot.value, "index.html"))]
    else tests == []
  }

  /** The tests route, if any, is the only one with its pattern. */
  lemma ServerTestsRoute(sockets: seq<Route>, tests: seq<Route>, closing: seq<Route>, options: Options)
    requires forall i :: 0 <= i < |sockets| ==> sockets[i].pattern in {WS_PATTERN, JUJU_CORE_PATTERN}
    requires TestsPart(tests, options)
    requires UrlSpec(closing, TESTS_PATTERN).None?
    ensures TestsRoute(sockets + tests + closing, options)
    ensures UrlSpec(tests, JUJU_CORE_PATTERN).None?
  {
    assert UrlSpec(sockets, TESTS_PATTERN).None?;
    UrlSpecAppend(sockets, tests, TESTS_PATTERN);
    UrlSpecAppend(sockets + tests, closing, TESTS_PATTERN);
  }

  /** The juju-core proxy, if any, is among the WebSocket routes. */
  lemma ServerWebSocketRoutes(sockets: seq<Route>, tests: seq<Route>, closing: seq<Route>,
                              options: Options, wsToHttp: Option<string> -> string)
    requires WebSocketRoutes(sockets, options, wsToHttp)
    requires UrlSpec(tests, JUJU_CORE_PATTERN).None?
    requires UrlSpec(closing, JUJU_CORE_PATTERN).None?
    ensures WebSocketRoutes(sockets + tests + closing, options, wsToHttp)
  {
    WebSocketRoutesExtend(sockets, tests, options, wsToHttp);
    WebSocketRoutesExtend(sockets + tests, closing, options, wsToHttp);
  }

  /** The main server application. `startTime` is the current time in whole
      seconds; `wsToHttp` turns the Juju WebSocket address into its HTTPS
      address. Outside sandbox mode the Juju version must be a non-empty
      string, which the version comparison needs. */
  method Server(options: Options, startTime: int, wsToHttp: Option<string> -> string) returns (app: Application)
    requires options.sandbox || NonEmpty(options.jujuversion)
    ensures GuiServerApp(app, options, startTime, wsToHttp)
  {
    var sockets := SocketHandlers(options, wsToHttp);
    var tests: seq<Route> := [];
    if NonEmpty(options.testsroot) {
      tests := [Route(TESTS_PATTERN, StaticFileHandler(path := options.testsroot.value, defaultFilename := "index.html"))];
    }
    var closing := ClosingHandlers(options, startTime);
    var handlers := sockets + tests + closing;
    ServerTestsRoute(sockets, tests, closing, options);
    ServerWebSocketRoutes(sockets, tests, closing, options, wsToHttp);
    ClosingRoutesExtend(sockets + tests, closing, options, startTime);
    app := Application(handlers, options.debug);
  }

  /** The redirector application: a single catch-all route to the HTTPS
      redirect handler. */
  function Redirector(options: Options): (app: Application)
    ensures |app.handlers| == 1 && app.handlers[0].handler == HttpsRedirectHandler
    ensures forall p :: UrlSpec(app.handlers, p).Some? <==> p == CATCH_ALL_PATTERN
    ensures app.debug == options.debug
  {
    Application([Route(CATCH_ALL_PATTERN, HttpsRedirectHandler)], options.debug)
  }
}
