# Juju GUI charm: backend composition, server options and route tables

This project models three pieces of decision logic from the Juju GUI charm and its
GUI server, and proves what they promise.

- **The charm backend (`hooks/backend.py`), in `backend.dfy`.**
  - A `Backend` holds the current and previous charm configuration and the
    mixins SetUp, Gui and GuiServer, in that order.
  - Each hook goes to every mixin that defines it: install and start forwards,
    stop and destroy in reverse.
  - Every call a mixin makes into the charm's utilities is recorded, in order,
    as an event on the backend's `trace`.
  - An exception a mixin raises ends the hook. It is the hook's `raised` result.
- **The GUI server's management (`server/guiserver/manage.py`), in
  `options.dfy` and `manage.dfy`.**
  - The parsed Tornado options are a record, `ServerOptions.Options`. Each field
    has the type its `define` call gives it.
  - The model covers the three validators, the debug option and the SSL file
    paths.
  - `run` decides which applications listen on which ports.
  - A call to `sys.exit` is the outcome `Exit(message)`.
- **The GUI server's applications (`server/guiserver/apps.py`), in `apps.dfy`.**
  - The main server's route table and the settings of the GUI's WSGI
    application are built from the options.
  - The redirector is a table with one route.
  - A handler is its class plus the keyword arguments it receives.
- **Shared Python values, in `values.dfy`.**
  - Covers None, booleans, integers and strings.
  - Covers `dict.get`, truthiness, `==` (where `True == 1`) and `str.strip`.

## Model

| member | source | states |
|---|---|---|
| Backend.Backend.constructor | hooks/backend.py:150-166 | a missing config reads the stored charm configuration; a missing previous config is the empty map; the mixins are SetUp, Gui, GuiServer in that order; nothing has run yet |
| Backend.Backend.Different | hooks/backend.py:168-175 | true exactly when some given key's current value differs from its previous one under Python `==`, a missing key reading as None |
| Backend.DifferentWithoutPrevious | hooks/backend.py:162-164 | with no previous configuration, a key differs exactly when the configuration maps it to something other than None; no keys never differ |
| Backend.Backend.GetDependencies | hooks/backend.py:177-182 | the loop's result is the union of every mixin's `debs`; a mixin without `debs` adds nothing |
| Backend.StandardDependencies | hooks/backend.py:71-98 | a standard backend's dependencies are exactly curl plus the five GUI server packages |
| Backend.CallMethods | hooks/backend.py:133-141 | the loop appends to the trace exactly what dispatching the objects in order does, and returns the exception that stopped it |
| Backend.DispatchCallsInOrder | hooks/backend.py:138-141 | the objects invoked are exactly those that have the method, in order; when one raises, those invoked are a prefix of them |
| Backend.HookCallsInOrder | hooks/backend.py:184-206 | a hook run on a backend invokes exactly the mixins that define it, in the order given; after an exception, a non-empty prefix of them |
| Backend.DispatchInvokesOnlyHook | hooks/backend.py:139-141 | every method invoked is the one named |
| Backend.DispatchSkipsAbsent | hooks/backend.py:138-141 | objects without the method are skipped: dispatching over any list is dispatching over its objects that have the method, and a list where none has it dispatches nothing |
| Backend.DispatchAfterRaise | hooks/backend.py:138-141 | after an exception, no later object is visited |
| Backend.Backend.Install | hooks/backend.py:184-188 | records the installation of all dependencies before any mixin's install, then dispatches install forwards |
| Backend.Backend.Start | hooks/backend.py:190-192 | dispatches start to the mixins in order |
| Backend.Backend.Stop | hooks/backend.py:194-199 | dispatches stop to the mixins in reverse order |
| Backend.Backend.Destroy | hooks/backend.py:201-206 | dispatches destroy to the mixins in reverse order |
| Backend.CalleesReverse | hooks/backend.py:199 | dispatching over the reversed mixins reaches the same methods in exactly the reverse order |
| Backend.StandardDispatchOrder | hooks/backend.py:166 | install reaches SetUp, Gui, GuiServer; start reaches Gui, GuiServer; stop reaches GuiServer; destroy reaches SetUp |
| Backend.StandardInstall | hooks/backend.py:53-107 | a standard install runs the install methods of `MixinCall` in order: SetUpMixin makes the base directory, GuiMixin sets up the GUI, then GuiServerMixin installs the server |
| Backend.StandardStart | hooks/backend.py:81-127 | a standard start runs `GuiStart`, which opens the configured port and closes the previous one, then the GUI server start |
| Backend.StandardStop | hooks/backend.py:129-130 | a standard stop runs only GuiServerMixin's stop method of `MixinCall`, which stops the server |
| Backend.StandardDestroy | hooks/backend.py:62-64 | a standard destroy runs only SetUpMixin's destroy method of `MixinCall`, which removes the base directory |
| Backend.Reverse | hooks/backend.py:199 | `reversed` keeps the length and puts element `i` at position `n-1-i` |
| Backend.ModelUuid | hooks/backend.py:112 | JUJU_MODEL_UUID when set and non-empty, otherwise JUJU_ENV_UUID, which may be unset |
| Backend.GuiServerInstall | hooks/backend.py:100-107 | exactly two actions when a certificate setting changed and the path is set: install the server, then save or create certificates with the configured path and contents; otherwise the install alone; a changed setting with no path raises KeyError |
| Backend.GuiServerStart | hooks/backend.py:109-127 | raises ValueError, with no server start, exactly when no model UUID is found; with a UUID, the first missing subscripted setting raises KeyError; otherwise exactly one server start with the arguments of `StartArgs` |
| Backend.StartArgs | hooks/backend.py:116-127 | every one of the 18 server arguments: each setting under its own key, `insecure` the negation of `secure`, the model UUID and the stripped jujud version |
| Backend.FirstMissing | hooks/backend.py:116-127 | none exactly when every subscripted key is present; otherwise the first missing key |
| Backend.StartWithoutUuid | hooks/backend.py:109-114 | a standard start without a model UUID opens the ports through GuiMixin, then GuiServerMixin raises ValueError before any server start |
| Values.StripSpec | hooks/backend.py:115 | `strip` removes exactly whitespace before and after a slice that neither starts nor ends with whitespace; the result is empty exactly when the input is all whitespace |
| Values.StripBounds | hooks/backend.py:115 | `strip` leaves the slice of the input between a whitespace-only prefix and a whitespace-only suffix |
| Manage.PresentIsNonBlankString | server/guiserver/manage.py:56-61 | a value passes the required check exactly when it is a string holding a character other than whitespace |
| Manage.ValidateRequired | server/guiserver/manage.py:51-62 | succeeds exactly when every name is a defined option holding a non-blank string; otherwise stops at the first name that is not, with KeyError for an undefined name and an exit naming it otherwise |
| Manage.ValidateChoices | server/guiserver/manage.py:65-73 | KeyError exactly for an undefined name; success exactly when the value is one of the choices; otherwise an exit listing them |
| Manage.ValidateRange | server/guiserver/manage.py:76-85 | KeyError exactly for an undefined name; an unset option passes; a set one passes exactly when min <= value <= max, both ends included; otherwise an exit naming the bounds |
| Manage.AddDebug | server/guiserver/manage.py:42-48 | debug is true exactly when the logger level is DEBUG, and no other option changes |
| Manage.PathJoin | server/guiserver/manage.py:95-96 | POSIX `os.path.join`: an absolute second part replaces the first; otherwise the directory, a slash unless it is empty or ends with one, then the file |
| Manage.SslOptions | server/guiserver/manage.py:88-97 | exactly the keys certfile and keyfile: juju.crt and juju.key inside the SSL path |
| Manage.Setup | server/guiserver/manage.py:164-168 | accepts exactly an API version of "go" or "python" and an unset port or one in 1..65535; a bad version exits with the choices message, and otherwise a bad port with the range message; on success only debug is redefined, from the root logger level |
| Manage.DefaultsAccepted | server/guiserver/manage.py:102-168 | the options as defined, with no command-line argument, pass the checks |
| Manage.Run | server/guiserver/manage.py:174-191 | insecure: one server listener, on the given port or 80, without SSL; secure: the server listens with SSL options on the given port or 443, and only when no port is given does the redirector first listen on 80, a different port; the server is the main application for the options, route for route |
| Apps.DropDots | server/guiserver/apps.py:60 | the version without its leading dots: what is dropped is all dots, and what is left does not start with one |
| Apps.LeadingDigits | server/guiserver/apps.py:60 | the longest prefix of decimal digits |
| Apps.DigitsValueAtLeastLeading | server/guiserver/apps.py:60 | a number is at least its leading digit |
| Apps.VersionTest | server/guiserver/apps.py:59-61 | for a version starting with a digit, the pre-2 template is chosen exactly when its first number is below 2; in particular a leading digit from 2 up selects the model template |
| Apps.SocketHandlers | server/guiserver/apps.py:52-89 | sandbox: exactly one route, the WebSocket route to SandboxHandler with no arguments; otherwise exactly two: the WebSocket handler with its arguments and the version-chosen target template, then the juju-core proxy |
| Apps.WsgiSettings | server/guiserver/apps.py:103-121 | every setting copied from its option, `combine` the negation of the GUI debug flag, `raw` the flag itself, the source template, and a password exactly when one is set |
| Apps.ClosingHandlers | server/guiserver/apps.py:96-128 | the info route with its arguments, then the catch-all fallback holding the GUI settings; neither is a tests or juju-core route |
| Apps.WebSocketRoutesExtend | server/guiserver/apps.py:81-95 | appending routes that have no juju-core pattern keeps the WebSocket routes as they are |
| Apps.ClosingRoutesExtend | server/guiserver/apps.py:124-128 | the routes appended last stay the last two |
| Apps.ServerTestsRoute | server/guiserver/apps.py:90-95 | the tests route exists exactly when a tests root is set, serving it with index.html by default |
| Apps.ServerWebSocketRoutes | server/guiserver/apps.py:53-95 | the WebSocket routes come first in the full table |
| Apps.Server | server/guiserver/apps.py:42-129 | exactly the WebSocket routes, the tests route when a tests root is set, then the info route and the catch-all fallback last, and nothing else; the debug flag is the debug option |
| Apps.Redirector | server/guiserver/apps.py:132-140 | a single catch-all route to the HTTPS redirect handler; debug is the debug option |

## Left out

- `deploy.py` (`setup_repository`, `juju_deploy`) is not part of this model.
- The effects of the charm's utilities are opaque recorded events, for example
  `MakeBaseDir` or `StartBuiltinServer`.
  - The directory creation in SetUpMixin.install and its tolerance of an
    existing directory are one event. OSError and `log` calls are left out.
- `os.getenv` and `jujud --version` are inputs, in `Backend.Host`.
- `utils.get_config()` is the `stored` parameter of the Backend constructor.
- `call_methods` over arbitrary objects: the model dispatches over the three
  mixins. `HasMethod` says which of them define which hook. Arguments other
  than the backend are not modelled.
- Tornado's `parse_command_line` is left out. The parsed options are an
  input, their types come from the record, and unknown command-line options
  are not modelled.
- `AsyncHTTPClient.configure` is left out.
- `listen` and `IOLoop.start` are left out. `Run` returns the listeners in
  the order they start listening.
- `get_version` and the log lines are left out.
- `time.time()` is the `startTime` parameter, already truncated to an integer.
- `utils.ws_to_http` is the `wsToHttp` function parameter.
- Pyramid's `Configurator`, `make_application` and `WSGIContainer` are left
  out. The fallback handler records the settings it is built from.
- `auth.get_backend`, `AuthenticationTokenHandler` and `Deployer` are
  recorded by what they are built from.
- Values.StripSpec: Python 2's byte-string `strip` is modelled. Unicode
  whitespace is not.
- Apps.Server requires a non-empty Juju version outside sandbox mode, because
  `LooseVersion` raises on None and on an empty string. Manage.Run inherits
  this requirement.
- Apps.VersionTest covers versions that start with a digit.
  `BeforeVersion2` follows Python 2 ordering for every non-empty version.
  This includes a leading word, which sorts after every number.
- Manage.ValidateRange requires a defined option to hold an integer or None.
  A value of another type would compare under Python 2's mixed-type ordering,
  which is not modelled.
- Manage.ValidateRequired, Manage.ValidateChoices, Manage.ValidateRange:
  Tornado's own options (`help` and the logging options) are not in the
  record and read as undefined, so a check of one of those names raises
  KeyError where Tornado would read its value.
- Tornado's `options[name]` for an undefined name is taken to raise KeyError,
  as `OptionParser.__getitem__` does with its dictionary of options. The
  validators return that KeyError as an outcome. Tornado is not part of this
  model.
- Manage.Setup covers the checks after parsing and the debug option. The
  `define` calls are the `ServerOptions.Options` record and its `Defaults`.
