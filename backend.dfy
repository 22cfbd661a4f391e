/** The charm's backend composition: a Backend holds the current and the
    previous charm configuration and an ordered list of mixins, and runs each
    hook (install, start, stop, destroy) by dispatching it to every mixin that
    implements it. The calls the mixins make into the charm's utilities are
    recorded, in order, as events on the backend's trace. */
module Backend {
  import opened Values

  type Config = map<string, Value>

  /** What a hook reads from its process: the environment variables and the
      output of `jujud --version`. */
  datatype Host = Host(environ: map<string, string>, jujudVersion: string)

  datatype Mixin = SetUpMixin | GuiMixin | GuiServerMixin

  /** The method names the backend dispatches. */
  datatype Hook = Install | Start | Stop | Destroy

  /** The exceptions a mixin method raises. */
  datatype Error = ValueError(message: string) | KeyError(key: string)

  /** The arguments of `utils.start_builtin_server`. */
  datatype ServerArgs = ServerArgs(
    sslCertPath: Value, serveTests: Value, sandbox: Value, logging: Value,
    insecure: bool, charmworldUrl: Value, envPassword: Value, envUuid: string,
    jujuVersion: string, debug: Value, port: Value, jemLocation: Value,
    jemVersion: Value, interactiveLogin: Value, gzip: Value, gtmEnabled: Value,
    charmstoreUrl: Value, charmstoreVersion: Value)

  /** An observable action: a mixin method being dispatched, or a call into
      the charm's utilities. */
  datatype Event =
    | Invoked(mixin: Mixin, hook: Hook)
    | MakeBaseDir
    | RemoveBaseDir
    | InstallMissingPackages(debs: set<string>)
    | SetupGui
    | SetupPorts(previous: Value, current: Value)
    | InstallBuiltinServer
    | SaveOrCreateCertificates(certPath: Value, certContents: Value, keyContents: Value)
    | StartBuiltinServer(args: ServerArgs)
    | StopBuiltinServer

  /** What running some methods did: the actions taken, in order, and the
      exception that stopped them, if any. */
  datatype Step = Step(events: seq<Event>, raised: Option<Error>)

  /** The mixins every backend is composed of, in instantiation order. */
  const MIXINS: seq<Mixin> := [SetUpMixin, GuiMixin, GuiServerMixin]

  const GUI_DEBS: seq<string> := ["curl"]
  const GUI_SERVER_DEBS: seq<string> :=
    ["libcurl3", "openssl", "python-bzrlib", "python-pip", "python-pycurl"]

  /** The settings whose change makes the install hook rewrite certificates. */
  const CERT_KEYS: seq<string> := ["ssl-cert-path", "ssl-cert-contents", "ssl-key-contents"]

  /** The settings the start hook subscripts, in argument evaluation order. */
  const START_KEYS: seq<string> := [
    "ssl-cert-path", "serve-tests", "sandbox", "builtin-server-logging", "secure",
    "charmworld-url", "juju-gui-debug", "jem-location", "jem-version",
    "interactive-login", "gzip-compression", "gtm-enabled", "charmstore-url",
    "charmstore-version"]

  const NO_UUID: string := "cannot retrieve model UUID from hook context"

  /** Whether `getattr(mixin, name, None)` finds a method. */
  predicate HasMethod(m: Mixin, hook: Hook) {
    match m
    case SetUpMixin => hook == Install || hook == Destroy
    case GuiMixin => hook == Install || hook == Start
    case GuiServerMixin => hook != Destroy
  }

  /** The mixin's `debs` class attribute; SetUpMixin has none. */
  function DebsAttribute(m: Mixin): Option<seq<string>> {
    match m
    case SetUpMixin => None
    case GuiMixin => Some(GUI_DEBS)
    case GuiServerMixin => Some(GUI_SERVER_DEBS)
  }

  /** Every package that some mixin of `ms` declares. */
  function AllDebs(ms: seq<Mixin>): set<string> {
    set i, d | 0 <= i < |ms| && d in DebsAttribute(ms[i]).GetOr([]) :: d
  }

  /** `os.getenv(name)`. */
  function Getenv(environ: map<string, string>, name: string): Option<string> {
    if name in environ then Some(environ[name]) else None
  }

  /** The model UUID: `JUJU_MODEL_UUID` when it is set and non-empty,
      otherwise `JUJU_ENV_UUID` (Juju before 2.0), which may be unset. */
  function ModelUuid(environ: map<string, string>): (r: Option<string>)
    ensures "JUJU_MODEL_UUID" in environ && environ["JUJU_MODEL_UUID"] != "" ==>
      r == Some(environ["JUJU_MODEL_UUID"])
    ensures !("JUJU_MODEL_UUID" in environ && environ["JUJU_MODEL_UUID"] != "") ==>
      (r.Some? <==> "JUJU_ENV_UUID" in environ) &&
      (r.Some? ==> r.value == environ["JUJU_ENV_UUID"])
  {
    var model := Getenv(environ, "JUJU_MODEL_UUID");
    // Python's `or` keeps its left operand only when that is truthy.
    if model.Some? && model.value != "" then model else Getenv(environ, "JUJU_ENV_UUID")
  }

  /** The first of `keys` that `config` lacks: the KeyError a sequence of
      `config[key]` lookups raises. */
  function FirstMissing(config: Config, keys: seq<string>): (r: Option<string>)
    ensures r.None? <==> forall k <- keys :: k in config
    ensures r.Some? ==> exists i :: 0 <= i < |keys| && keys[i] == r.value && r.value !in config &&
                                    forall j :: 0 <= j < i ==> keys[j] in config
  {
    if keys == [] then None
    else if keys[0] !in config then Some(keys[0])
    else
      var rest := FirstMissing(config, keys[1..]);
      if rest.Some? then
        var i :| 0 <= i < |keys| - 1 && keys[1..][i] == rest.value && rest.value !in config &&
                 forall j :: 0 <= j < i ==> keys[1..][j] in config;
        assert keys[i + 1] == rest.value;
        rest
      else rest
  }

  class Backend {
    const config: Config
    const prevConfig: Config
    const mixins: seq<Mixin>
    const host: Host
    /** The actions taken by the hooks run so far. */
    var trace: seq<Event>

    /** `config` None reads the stored charm configuration, `stored`;
        `prevConfig` None means every current setting is new. */
    constructor (config: Option<Config>, prevConfig: Option<Config>, stored: Config, host: Host)
      ensures this.config == config.GetOr(stored)
      ensures this.prevConfig == prevConfig.GetOr(map[])
      ensures mixins == MIXINS && this.host == host && trace == []
    {
      this.config := config.GetOr(stored);
      this.prevConfig := prevConfig.GetOr(map[]);
      this.host := host;
      this.mixins := MIXINS;
      this.trace := [];
    }

    /** Whether any of `keys` has a current value different from its previous
        one, a missing key reading as None. */
    function Different(keys: seq<string>): (r: bool)
      ensures r <==> exists k :: k in keys && !Equal(Get(config, k), Get(prevConfig, k))
    {
      if keys == [] then false
      else !Equal(Get(config, keys[0]), Get(prevConfig, keys[0])) || Different(keys[1..])
    }

    /** The union of the packages every mixin declares. */
    method GetDependencies() returns (debs: set<string>)
      ensures debs == AllDebs(mixins)
      ensures forall d :: d in debs <==> exists i :: 0 <= i < |mixins| && d in DebsAttribute(mixins[i]).GetOr([])
    {
      debs := {};
      var i := 0;
      while i < |mixins|
        invariant 0 <= i <= |mixins|
        invariant debs == AllDebs(mixins[..i])
      {
        var declared := DebsAttribute(mixins[i]).GetOr([]);
        debs := debs + set d | d in declared;
        AllDebsSnoc(mixins[..i], mixins[i]);
        assert mixins[..i + 1] == mixins[..i] + [mixins[i]];
        i := i + 1;
      }
      assert mixins[..i] == mixins;
    }

    /** Installs the packages every mixin needs, then runs the mixins' install
        methods in order. */
    method Install() returns (raised: Option<Error>)
      modifies this`trace
      ensures trace == old(trace) + [InstallMissingPackages(AllDebs(mixins))] +
                       Dispatch(mixins, Hook.Install, MethodsOf(this, Hook.Install)).events
      ensures raised == Dispatch(mixins, Hook.Install, MethodsOf(this, Hook.Install)).raised
    {
      var debs := GetDependencies();
      trace := trace + [InstallMissingPackages(debs)];
      raised := CallMethods(mixins, Hook.Install, this, MethodsOf(this, Hook.Install));
    }

    /** Runs the mixins' start methods in order. */
    method Start() returns (raised: Option<Error>)
      modifies this`trace
      ensures trace == old(trace) + Dispatch(mixins, Hook.Start, MethodsOf(this, Hook.Start)).events
      ensures raised == Dispatch(mixins, Hook.Start, MethodsOf(this, Hook.Start)).raised
    {
      raised := CallMethods(mixins, Hook.Start, this, MethodsOf(this, Hook.Start));
    }

    /** Runs the mixins' stop methods in reverse order. */
    method Stop() returns (raised: Option<Error>)
      modifies this`trace
      ensures trace == old(trace) + Dispatch(Reverse(mixins), Hook.Stop, MethodsOf(this, Hook.Stop)).events
      ensures raised == Dispatch(Reverse(mixins), Hook.Stop, MethodsOf(this, Hook.Stop)).raised
    {
      raised := CallMethods(Reverse(mixins), Hook.Stop, this, MethodsOf(this, Hook.Stop));
    }

    /** Runs the mixins' destroy methods in reverse order. */
    method Destroy() returns (raised: Option<Error>)
      modifies this`trace
      ensures trace == old(trace) + Dispatch(Reverse(mixins), Hook.Destroy, MethodsOf(this, Hook.Destroy)).events
      ensures raised == Dispatch(Reverse(mixins), Hook.Destroy, MethodsOf(this, Hook.Destroy)).raised
    {
      raised := CallMethods(Reverse(mixins), Hook.Destroy, this, MethodsOf(this, Hook.Destroy));
    }
  }

  /** With no previous configuration every current setting is new: a key
      differs exactly when the configuration maps it to something other than
      None, and no keys never differ. */
  lemma DifferentWithoutPrevious(b: Backend, keys: seq<string>)
    requires b.prevConfig == map[]
    ensures b.Different(keys) <==> exists k :: k in keys && k in b.config && b.config[k] != Null
    ensures keys == [] ==> !b.Different(keys)
  {
    forall k | k in keys
      ensures !Equal(Get(b.config, k), Get(b.prevConfig, k)) <==> k in b.config && b.config[k] != Null
    {
      assert Get(b.prevConfig, k) == Null;
    }
  }

  lemma AllDebsSnoc(ms: seq<Mixin>, m: Mixin)
    ensures AllDebs(ms + [m]) == AllDebs(ms) + set d | d in DebsAttribute(m).GetOr([])
  {
    var ms' := ms + [m];
    forall d | d in AllDebs(ms')
      ensures d in AllDebs(ms) + set d | d in DebsAttribute(m).GetOr([])
    {
      var i :| 0 <= i < |ms'| && d in DebsAttribute(ms'[i]).GetOr([]);
      if i < |ms| { assert ms'[i] == ms[i]; }
    }
    forall d | d in AllDebs(ms)
      ensures d in AllDebs(ms')
    {
      var i :| 0 <= i < |ms| && d in DebsAttribute(ms[i]).GetOr([]);
      assert ms'[i] == ms[i];
    }
    forall d | d in DebsAttribute(m).GetOr([])
      ensures d in AllDebs(ms')
    {
      assert ms'[|ms|] == m;
    }
  }

  /** GuiMixin.start: opens the configured port, closing the previous one. */
  function GuiStart(b: Backend): Step {
    Step([SetupPorts(Get(b.prevConfig, "port"), Get(b.config, "port"))], None)
  }

  /** GuiServerMixin.install: installs the server, then saves or creates the
      certificates only when a certificate setting changed. */
  function GuiServerInstall(b: Backend): (s: Step)
    ensures s.events == [InstallBuiltinServer] +
      if b.Different(CERT_KEYS) && "ssl-cert-path" in b.config
      then [SaveOrCreateCertificates(b.config["ssl-cert-path"],
                                     Get(b.config, "ssl-cert-contents"), Get(b.config, "ssl-key-contents"))]
      else []
    ensures s.raised.Some? <==> b.Different(CERT_KEYS) && "ssl-cert-path" !in b.config
    ensures s.raised.Some? ==> s.raised.value == KeyError("ssl-cert-path")
  {
    var installed := [InstallBuiltinServer];
    if !b.Different(CERT_KEYS) then Step(installed, None)
    else if "ssl-cert-path" !in b.config then Step(installed, Some(KeyError("ssl-cert-path")))
    else
      var config := b.config;
      var saved := SaveOrCreateCertificates(config["ssl-cert-path"],
                                            Get(config, "ssl-cert-contents"),
                                            Get(config, "ssl-key-contents"));
      Step(installed + [saved], None)
  }

  /** GuiServerMixin.start: fails with ValueError when no model UUID is
      available, otherwise starts the server with arguments taken from the
      configuration, the environment and the Juju version. */
  function GuiServerStart(b: Backend): (s: Step)
    ensures s.raised.Some? ==> s.events == []
    ensures s.raised == Some(ValueError(NO_UUID)) <==> ModelUuid(b.host.environ).None?
    ensures s.raised.None? <==>
      ModelUuid(b.host.environ).Some? && forall k <- START_KEYS :: k in b.config
    ensures ModelUuid(b.host.environ).Some? && FirstMissing(b.config, START_KEYS).Some? ==>
      s.raised == Some(KeyError(FirstMissing(b.config, START_KEYS).value))
    ensures s.raised.None? ==> s.events == [StartBuiltinServer(StartArgs(b))]
  {
    var uuid := ModelUuid(b.host.environ);
    if uuid.None? then Step([], Some(ValueError(NO_UUID)))
    else
      var missing := FirstMissing(b.config, START_KEYS);
      if missing.Some? then Step([], Some(KeyError(missing.value)))
      else
        Step([StartBuiltinServer(StartArgs(b))], None)
  }

  /** The arguments the start hook passes to the server once every setting
      it subscripts is present, where `config[k]` is `config.get(k)`: each
      setting under its own name, `insecure` the negation of `secure`, the
      model UUID and the stripped jujud version. */
  function StartArgs(b: Backend): (a: ServerArgs)
    requires ModelUuid(b.host.environ).Some?
    ensures a.sslCertPath == Get(b.config, "ssl-cert-path") && a.serveTests == Get(b.config, "serve-tests")
    ensures a.sandbox == Get(b.config, "sandbox") && a.logging == Get(b.config, "builtin-server-logging")
    ensures a.insecure == !Truthy(Get(b.config, "secure"))
    ensures a.charmworldUrl == Get(b.config, "charmworld-url") && a.envPassword == Get(b.config, "password")
    ensures a.envUuid == ModelUuid(b.host.environ).value && a.jujuVersion == Strip(b.host.jujudVersion)
    ensures a.debug == Get(b.config, "juju-gui-debug") && a.port == Get(b.config, "port")
    ensures a.jemLocation == Get(b.config, "jem-location") && a.jemVersion == Get(b.config, "jem-version")
    ensures a.interactiveLogin == Get(b.config, "interactive-login")
    ensures a.gzip == Get(b.config, "gzip-compression") && a.gtmEnabled == Get(b.config, "gtm-enabled")
    ensures a.charmstoreUrl == Get(b.config, "charmstore-url")
    ensures a.charmstoreVersion == Get(b.config, "charmstore-version")
  {
    var c := b.config;
    ServerArgs(
      Get(c, "ssl-cert-path"), Get(c, "serve-tests"), Get(c, "sandbox"),
      Get(c, "builtin-server-logging"), !Truthy(Get(c, "secure")), Get(c, "charmworld-url"),
      Get(c, "password"), ModelUuid(b.host.environ).value, Strip(b.host.jujudVersion),
      Get(c, "juju-gui-debug"), Get(c, "port"), Get(c, "jem-location"), Get(c, "jem-version"),
      Get(c, "interactive-login"), Get(c, "gzip-compression"), Get(c, "gtm-enabled"),
      Get(c, "charmstore-url"), Get(c, "charmstore-version"))
  }

  /** Running mixin `m`'s method named `hook` on backend `b`. A mixin
      without that method does nothing here; call_methods never calls it. */
  function MixinCall(m: Mixin, hook: Hook, b: Backend): Step {
    match (m, hook)
    case (SetUpMixin, Install) => Step([MakeBaseDir], None)
    case (SetUpMixin, Destroy) => Step([RemoveBaseDir], None)
    case (GuiMixin, Install) => Step([SetupGui], None)
    case (GuiMixin, Start) => GuiStart(b)
    case (GuiServerMixin, Install) => GuiServerInstall(b)
    case (GuiServerMixin, Start) => GuiServerStart(b)
    case (GuiServerMixin, Stop) => Step([StopBuiltinServer], None)
    case _ => Step([], None)
  }

  /** The mixins' methods named `hook`, bound to backend `b`. */
  function MethodsOf(b: Backend, hook: Hook): Mixin -> Step {
    m => MixinCall(m, hook, b)
  }

  /** What `call_methods(objects, hook, ...)` does when calling an object's
      method named `hook` does what `run` says: the objects that have the
      method are invoked in turn, and an exception stops the iteration. */
  function Dispatch(objects: seq<Mixin>, hook: Hook, run: Mixin -> Step): Step {
    if objects == [] then Step([], None)
    else
      var head := Visit(objects[0], hook, run);
      if head.raised.Some? then head
      else
        var rest := Dispatch(objects[1..], hook, run);
        Step(head.events + rest.events, rest.raised)
  }

  /** What call_methods does with one object: invoke its method, if it has one. */
  function Visit(o: Mixin, hook: Hook, run: Mixin -> Step): Step {
    if HasMethod(o, hook) then Step([Invoked(o, hook)] + run(o).events, run(o).raised)
    else Step([], None)
  }

  /** The objects of `objects` that have the `hook` method, in order. */
  function Callees(objects: seq<Mixin>, hook: Hook): seq<Mixin> {
    if objects == [] then []
    else (if HasMethod(objects[0], hook) then [objects[0]] else []) + Callees(objects[1..], hook)
  }

  /** The mixins whose methods the events show being invoked, in order. */
  function Called(events: seq<Event>): seq<Mixin> {
    if events == [] then []
    else (if events[0].Invoked? then [events[0].mixin] else []) + Called(events[1..])
  }

  /** `reversed(s)`. */
  function Reverse<T>(s: seq<T>): (r: seq<T>)
    ensures |r| == |s|
    ensures forall i :: 0 <= i < |s| ==> r[i] == s[|s| - 1 - i]
  {
    if s == [] then [] else Reverse(s[1..]) + [s[0]]
  }

  /** call_methods: calls the method `name` of every object that has one, in
      order, passing the backend; `methods` says what each call does. */
  method CallMethods(objects: seq<Mixin>, name: Hook, backend: Backend, methods: Mixin -> Step)
    returns (raised: Option<Error>)
    modifies backend`trace
    ensures backend.trace == old(backend.trace) + Dispatch(objects, name, methods).events
    ensures raised == Dispatch(objects, name, methods).raised
  {
    var i := 0;
    while i < |objects|
      invariant 0 <= i <= |objects|
      invariant Dispatch(objects[..i], name, methods).raised.None?
      invariant backend.trace == old(backend.trace) + Dispatch(objects[..i], name, methods).events
    {
      var obj := objects[i];
      DispatchPrefix(objects, i, name, methods);
      // `getattr(obj, name, None)` finds a method: call it.
      if HasMethod(obj, name) {
        var call := methods(obj);
        backend.trace := backend.trace + ([Invoked(obj, name)] + call.events);
        if call.raised.Some? {
          DispatchStopsAt(objects, i, name, methods);
          return call.raised;
        }
      }
      i := i + 1;
    }
    assert objects[..i] == objects;
    raised := None;
  }

  /** One more object dispatched: what it adds to the events, and how it
      ends the dispatch. */
  lemma DispatchPrefix(objects: seq<Mixin>, i: nat, hook: Hook, run: Mixin -> Step)
    requires i < |objects| && Dispatch(objects[..i], hook, run).raised.None?
    ensures var o := objects[i];
      Dispatch(objects[..i + 1], hook, run) ==
        if HasMethod(o, hook)
        then Step(Dispatch(objects[..i], hook, run).events + ([Invoked(o, hook)] + run(o).events), run(o).raised)
        else Step(Dispatch(objects[..i], hook, run).events, None)
  {
    var o := objects[i];
    assert objects[..i + 1] == objects[..i] + [o];
    DispatchSnoc(objects[..i], o, hook, run);
    var done := Dispatch(objects[..i], hook, run).events;
    assert done + [] == done;
  }

  /** A dispatch stopped by an exception ends there. */
  lemma DispatchStopsAt(objects: seq<Mixin>, i: nat, hook: Hook, run: Mixin -> Step)
    requires i < |objects| && Dispatch(objects[..i + 1], hook, run).raised.Some?
    ensures Dispatch(objects, hook, run) == Dispatch(objects[..i + 1], hook, run)
  {
    DispatchAfterRaise(objects[..i + 1], objects[i + 1..], hook, run);
    assert objects[..i + 1] + objects[i + 1..] == objects;
  }

  lemma {:induction false} DispatchSnoc(objects: seq<Mixin>, o: Mixin, hook: Hook, run: Mixin -> Step)
    requires Dispatch(objects, hook, run).raised.None?
    ensures Dispatch(objects + [o], hook, run) ==
      Step(Dispatch(objects, hook, run).events + Visit(o, hook, run).events, Visit(o, hook, run).raised)
  {
    if objects == [] {
      assert [o][1..] == [];
    } else {
      assert (objects + [o])[1..] == objects[1..] + [o];
      DispatchSnoc(objects[1..], o, hook, run);
    }
  }

  lemma {:induction false} DispatchAfterRaise(done: seq<Mixin>, rest: seq<Mixin>, hook: Hook, run: Mixin -> Step)
    requires Dispatch(done, hook, run).raised.Some?
    ensures Dispatch(done + rest, hook, run) == Dispatch(done, hook, run)
  {
    assert done != [];
    if Visit(done[0], hook, run).raised.None? {
      assert (done + rest)[1..] == done[1..] + rest;
      DispatchAfterRaise(done[1..], rest, hook, run);
    }
  }

  lemma {:induction false} CalledAppend(a: seq<Event>, c: seq<Event>)
    ensures Called(a + c) == Called(a) + Called(c)
  {
    if a != [] {
      assert (a + c)[0] == a[0];
      assert (a + c)[1..] == a[1..] + c;
      CalledAppend(a[1..], c);
      var first := if a[0].Invoked? then [a[0].mixin] else [];
      assert Called(a + c) == first + (Called(a[1..]) + Called(c));
      assert first + (Called(a[1..]) + Called(c)) == (first + Called(a[1..])) + Called(c);
    } else {
      assert a + c == c;
    }
  }

  lemma {:induction false} CalledNone(events: seq<Event>)
    requires forall e <- events :: !e.Invoked?
    ensures Called(events) == []
  {
    if events != [] {
      CalledNone(events[1..]);
    }
  }

  /** Methods that make calls into the utilities only: no mixin method
      dispatches another. */
  predicate CallsOnlyUtilities(run: Mixin -> Step) {
    forall m :: forall e <- run(m).events :: !e.Invoked?
  }

  lemma MixinMethodsCallOnlyUtilities(b: Backend, hook: Hook)
    ensures CallsOnlyUtilities(MethodsOf(b, hook))
  {
  }

  /** call_methods invokes exactly the objects that have the method, in
      order; when a method raises, the objects invoked are a non-empty prefix
      of those. */
  lemma {:induction false} DispatchCallsInOrder(objects: seq<Mixin>, hook: Hook, run: Mixin -> Step)
    requires CallsOnlyUtilities(run)
    ensures var d := Dispatch(objects, hook, run);
      (d.raised.None? ==> Called(d.events) == Callees(objects, hook)) &&
      (d.raised.Some? ==> Called(d.events) != [] && Called(d.events) <= Callees(objects, hook))
  {
    if objects != [] {
      var o := objects[0];
      DispatchCallsInOrder(objects[1..], hook, run);
      var rest := Dispatch(objects[1..], hook, run);
      var head := Visit(o, hook, run);
      if HasMethod(o, hook) {
        CalledNone(run(o).events);
        CalledAppend([Invoked(o, hook)], run(o).events);
        assert Called([Invoked(o, hook)]) == [o];
        CalledAppend(head.events, rest.events);
      } else {
        assert head.events + rest.events == rest.events;
      }
    }
  }

  /** A hook run on a backend invokes exactly the mixins that define it, in
      the order given; when one raises, those invoked are a non-empty prefix
      of them. */
  lemma HookCallsInOrder(b: Backend, objects: seq<Mixin>, hook: Hook)
    ensures var d := Dispatch(objects, hook, MethodsOf(b, hook));
      (d.raised.None? ==> Called(d.events) == Callees(objects, hook)) &&
      (d.raised.Some? ==> Called(d.events) != [] && Called(d.events) <= Callees(objects, hook))
  {
    MixinMethodsCallOnlyUtilities(b, hook);
    DispatchCallsInOrder(objects, hook, MethodsOf(b, hook));
  }

  /** Every invocation call_methods makes is of the one method it was given. */
  lemma {:induction false} DispatchInvokesOnlyHook(objects: seq<Mixin>, hook: Hook, run: Mixin -> Step)
    requires CallsOnlyUtilities(run)
    ensures forall e <- Dispatch(objects, hook, run).events :: e.Invoked? ==> e.hook == hook
  {
    if objects != [] {
      DispatchInvokesOnlyHook(objects[1..], hook, run);
    }
  }

  /** Objects without the method are skipped: dispatching over a list is
      dispatching over the objects of it that have the method, and a list in
      which nothing has the method dispatches nothing. */
  lemma {:induction false} DispatchSkipsAbsent(objects: seq<Mixin>, hook: Hook, run: Mixin -> Step)
    ensures Dispatch(objects, hook, run) == Dispatch(Callees(objects, hook), hook, run)
    ensures (forall o <- objects :: !HasMethod(o, hook)) ==> Dispatch(objects, hook, run) == Step([], None)
  {
    if objects != [] {
      var o := objects[0];
      DispatchSkipsAbsent(objects[1..], hook, run);
      if HasMethod(o, hook) {
        var callees := Callees(objects, hook);
        assert callees[0] == o && callees[1..] == Callees(objects[1..], hook);
      } else {
        var rest := Dispatch(objects[1..], hook, run);
        assert [] + rest.events == rest.events;
        assert Callees(objects, hook) == [] + Callees(objects[1..], hook) == Callees(objects[1..], hook);
        assert forall p <- objects[1..] :: p in objects;
      }
    }
  }

  lemma {:induction false} CalleesAppend(a: seq<Mixin>, c: seq<Mixin>, hook: Hook)
    ensures Callees(a + c, hook) == Callees(a, hook) + Callees(c, hook)
  {
    if a != [] {
      assert (a + c)[0] == a[0];
      assert (a + c)[1..] == a[1..] + c;
      CalleesAppend(a[1..], c, hook);
      var first := if HasMethod(a[0], hook) then [a[0]] else [];
      assert Callees(a + c, hook) == first + (Callees(a[1..], hook) + Callees(c, hook));
      assert first + (Callees(a[1..], hook) + Callees(c, hook)) == (first + Callees(a[1..], hook)) + Callees(c, hook);
    } else {
      assert a + c == c;
    }
  }

  /** Dispatching over the reversed objects calls the same methods in
      exactly the reverse order. */
  lemma {:induction false} CalleesReverse(objects: seq<Mixin>, hook: Hook)
    ensures Callees(Reverse(objects), hook) == Reverse(Callees(objects, hook))
  {
    if objects != [] {
      var o := objects[0];
      CalleesReverse(objects[1..], hook);
      CalleesAppend(Reverse(objects[1..]), [o], hook);
      var first := if HasMethod(o, hook) then [o] else [];
      assert Callees([o], hook) == first;
      ReverseAppend(first, Callees(objects[1..], hook));
    }
  }

  lemma ReverseAppend<T>(a: seq<T>, c: seq<T>)
    ensures Reverse(a + c) == Reverse(c) + Reverse(a)
  {
  }

  /** The packages every backend installs. */
  lemma StandardDependencies()
    ensures AllDebs(MIXINS) ==
      {"curl", "libcurl3", "openssl", "python-bzrlib", "python-pip", "python-pycurl"}
  {
    var expected := {"curl", "libcurl3", "openssl", "python-bzrlib", "python-pip", "python-pycurl"};
    forall d | d in AllDebs(MIXINS) ensures d in expected {
      var i :| 0 <= i < 3 && d in DebsAttribute(MIXINS[i]).GetOr([]);
    }
    forall d | d in expected ensures d in AllDebs(MIXINS) {
      if d == "curl" {
        assert d in DebsAttribute(MIXINS[1]).GetOr([]);
      } else {
        assert d in DebsAttribute(MIXINS[2]).GetOr([]);
      }
    }
  }

  /** The mixins each hook reaches in every backend: forwards for install and
      start, backwards for stop and destroy. */
  lemma StandardDispatchOrder()
    ensures Callees(MIXINS, Install) == [SetUpMixin, GuiMixin, GuiServerMixin]
    ensures Callees(MIXINS, Start) == [GuiMixin, GuiServerMixin]
    ensures Callees(Reverse(MIXINS), Stop) == [GuiServerMixin]
    ensures Callees(Reverse(MIXINS), Destroy) == [SetUpMixin]
  {
    var reversed := [GuiServerMixin, GuiMixin, SetUpMixin];
    assert Reverse(MIXINS) == reversed;
    assert reversed[1..][1..] == [SetUpMixin];
    assert MIXINS[1..][1..] == [GuiServerMixin];
  }

  /** Installing a standard backend: SetUpMixin makes the base directory,
      GuiMixin sets up the GUI, then GuiServerMixin installs the server. */
  lemma StandardInstall(b: Backend)
    requires b.mixins == MIXINS
    ensures Dispatch(b.mixins, Install, MethodsOf(b, Install)) ==
      Step([Invoked(SetUpMixin, Install), MakeBaseDir, Invoked(GuiMixin, Install), SetupGui,
            Invoked(GuiServerMixin, Install)] + GuiServerInstall(b).events,
           GuiServerInstall(b).raised)
  {
    var ms := b.mixins;
    assert ms[1..][1..] == [GuiServerMixin];
  }

  /** Starting a standard backend: GuiMixin opens the configured port,
      closing the previous one, then GuiServerMixin starts the server. */
  lemma StandardStart(b: Backend)
    requires b.mixins == MIXINS
    ensures Dispatch(b.mixins, Start, MethodsOf(b, Start)) ==
      Step([Invoked(GuiMixin, Start), SetupPorts(Get(b.prevConfig, "port"), Get(b.config, "port")),
            Invoked(GuiServerMixin, Start)] + GuiServerStart(b).events,
           GuiServerStart(b).raised)
  {
    var run := MethodsOf(b, Start);
    var server := Visit(GuiServerMixin, Start, run);
    var tail := [GuiServerMixin];
    assert tail[1..] == [] && server.events + [] == server.events;
    assert Dispatch(tail, Start, run) == server;
    var gui := Visit(GuiMixin, Start, run);
    assert gui == Step([Invoked(GuiMixin, Start), SetupPorts(Get(b.prevConfig, "port"), Get(b.config, "port"))], None);
    var started := [GuiMixin, GuiServerMixin];
    assert started[1..] == tail;
    assert Dispatch(started, Start, run) == Step(gui.events + server.events, server.raised);
    assert b.mixins[1..] == started && Visit(SetUpMixin, Start, run) == Step([], None);
    assert [] + (gui.events + server.events) == gui.events + server.events;
  }

  /** Stopping a standard backend stops the server, and nothing else. */
  lemma StandardStop(b: Backend)
    requires b.mixins == MIXINS
    ensures Dispatch(Reverse(b.mixins), Stop, MethodsOf(b, Stop)) ==
      Step([Invoked(GuiServerMixin, Stop), StopBuiltinServer], None)
  {
    var reversed := [GuiServerMixin, GuiMixin, SetUpMixin];
    assert Reverse(b.mixins) == reversed;
    assert reversed[1..][1..] == [SetUpMixin];
    DispatchSkipsAbsent(reversed[1..], Stop, MethodsOf(b, Stop));
    assert [Invoked(GuiServerMixin, Stop), StopBuiltinServer] + [] == [Invoked(GuiServerMixin, Stop), StopBuiltinServer];
  }

  /** Destroying a standard backend removes the base directory, and nothing
      else. */
  lemma StandardDestroy(b: Backend)
    requires b.mixins == MIXINS
    ensures Dispatch(Reverse(b.mixins), Destroy, MethodsOf(b, Destroy)) ==
      Step([Invoked(SetUpMixin, Destroy), RemoveBaseDir], None)
  {
    var reversed := [GuiServerMixin, GuiMixin, SetUpMixin];
    assert Reverse(b.mixins) == reversed;
    assert reversed[1..][1..] == [SetUpMixin];
  }

  /** Starting a standard backend without a model UUID opens the ports, then
      raises the ValueError before any server start call. */
  lemma StartWithoutUuid(b: Backend)
    requires b.mixins == MIXINS
    requires ModelUuid(b.host.environ).None?
    ensures Dispatch(b.mixins, Start, MethodsOf(b, Start)) ==
      Step([Invoked(GuiMixin, Start), SetupPorts(Get(b.prevConfig, "port"), Get(b.config, "port")),
            Invoked(GuiServerMixin, Start)],
           Some(ValueError(NO_UUID)))
  {
    StandardStart(b);
  }
}
