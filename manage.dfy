/** The GUI server's management functions: validation of the parsed options,
    the debug option, the location of the SSL files, and the choice of which
    application listens on which port. A call to `sys.exit` is an `Exit`
    outcome carrying its message. */
module Manage {
  import opened Values
  import opened ServerOptions
  import Apps

  /** `logging.DEBUG`. */
  const DEBUG: int := 10
  const API_VERSIONS: seq<string> := ["go", "python"]
  const MIN_PORT: int := 1
  const MAX_PORT: int := 65535
  const HTTP_PORT: int := 80
  const HTTPS_PORT: int := 443

  /** How a management step ends: normally, by `sys.exit(message)`, or by the
      KeyError that reading an option no one defined raises. */
  datatype Outcome<T> = Ok(value: T) | Exit(message: string) | KeyError(key: string)

  /** The decimal digits of a number, as `str.format` writes it. */
  function NatToString(n: nat): string
    decreases n
  {
    if n < 10 then ["0123456789"[n]] else NatToString(n / 10) + ["0123456789"[n % 10]]
  }

  function IntToString(i: int): string {
    if i < 0 then "-" + NatToString(-i) else NatToString(i)
  }

  /** `sep.join(items)`. */
  function Join(sep: string, items: seq<string>): string {
    if items == [] then ""
    else if |items| == 1 then items[0]
    else items[0] + sep + Join(sep, items[1..])
  }

  /** `value.strip()`, where any value other than a string has no `strip`
      and reads as blank. */
  function Stripped(v: Value): string {
    if v.Str? then Strip(v.s) else ""
  }

  /** What `_validate_required` accepts. */
  predicate Present(v: Value) {
    Stripped(v) != ""
  }

  /** A value is present exactly when it is a string with a character other
      than whitespace. */
  lemma PresentIsNonBlankString(v: Value)
    ensures Present(v) <==> v.Str? && exists k :: 0 <= k < |v.s| && !IsSpace(v.s[k])
  {
    if v.Str? {
      StripSpec(v.s);
    }
  }

  function RequiredMessage(name: string): string {
    "error: the " + name + " argument is required"
  }

  /** What `_validate_required` accepts of one name: a defined option whose
      value is present. */
  predicate Required(options: Options, name: string) {
    Defined(name) && Present(Lookup(options, name))
  }

  /** How `_validate_required` stops at a name that does not pass. */
  function RequiredFailure(name: string): Outcome<()> {
    if Defined(name) then Exit(RequiredMessage(name)) else KeyError(name)
  }

  /** `_validate_required(*names)`: stops at the first name that does not
      pass, with a KeyError when no option has that name and an exit naming
      it otherwise, and succeeds when every name passes. */
  method ValidateRequired(options: Options, names: seq<string>) returns (r: Outcome<()>)
    ensures r.Ok? <==> forall i :: 0 <= i < |names| ==> Required(options, names[i])
    ensures !r.Ok? ==>
      exists i :: 0 <= i < |names| && !Required(options, names[i]) &&
        (forall j :: 0 <= j < i ==> Required(options, names[j])) &&
        r == RequiredFailure(names[i])
  {
    for i := 0 to |names|
      invariant forall j :: 0 <= j < i ==> Required(options, names[j])
    {
      if !Defined(names[i]) {
        r := KeyError(names[i]);
        assert !Required(options, names[i]) && r == RequiredFailure(names[i]);
        return;
      }
      var value := Lookup(options, names[i]);
      // `.strip()` on a value that is not a string raises AttributeError,
      // which reads as blank.
      if Stripped(value) == "" {
        r := Exit(RequiredMessage(names[i]));
        assert !Required(options, names[i]) && r == RequiredFailure(names[i]);
        return;
      }
    }
    return Ok(());
  }

  function ChoicesMessage(name: string, choices: seq<string>): string {
    "error: accepted values for the " + name + " argument are: " + Join(", ", choices)
  }

  /** `_validate_choices(name, choices)`: succeeds exactly when the option's
      value is one of the choices; an undefined name raises KeyError. */
  function ValidateChoices(options: Options, name: string, choices: seq<string>): (r: Outcome<()>)
    ensures r.KeyError? <==> !Defined(name)
    ensures r.KeyError? ==> r.key == name
    ensures r.Ok? <==> Defined(name) && exists c :: c in choices && Lookup(options, name) == Str(c)
    ensures r.Exit? ==> r.message == ChoicesMessage(name, choices)
  {
    if !Defined(name) then KeyError(name)
    else
      var value := Lookup(options, name);
      if value.Str? && value.s in choices then Ok(()) else Exit(ChoicesMessage(name, choices))
  }

  function RangeMessage(name: string, min: int, max: int): string {
    "error: the " + name + " argument must be included between " +
    IntToString(min) + " and " + IntToString(max)
  }

  /** `_validate_range(name, min, max)` on an integer option: an unset option
      passes, a set one passes exactly when it lies in the closed range; an
      undefined name raises KeyError. */
  function ValidateRange(options: Options, name: string, min: int, max: int): (r: Outcome<()>)
    requires Defined(name) ==> Lookup(options, name).Null? || Lookup(options, name).Int?
    ensures r.KeyError? <==> !Defined(name)
    ensures r.KeyError? ==> r.key == name
    ensures r.Ok? <==> Defined(name) && (Lookup(options, name).Null? || min <= Lookup(options, name).i <= max)
    ensures r.Exit? ==> r.message == RangeMessage(name, min, max)
  {
    if !Defined(name) then KeyError(name)
    else
      var value := Lookup(options, name);
      if value.Int? && !(min <= value.i <= max) then Exit(RangeMessage(name, min, max)) else Ok(())
  }

  /** `_add_debug(logger)`: defines the debug option, true exactly when the
      logger's level is DEBUG. */
  function AddDebug(options: Options, level: int): (r: Options)
    ensures r.debug <==> level == DEBUG
    ensures r.(debug := options.debug) == options
  {
    options.(debug := level == DEBUG)
  }

  /** `path` is `file` inside the directory `dir`: `dir`, then a slash
      unless `dir` is empty or already ends with one, then `file`. */
  predicate InDirectory(path: string, dir: string, file: string) {
    var slash := if dir == "" || dir[|dir| - 1] == '/' then 0 else 1;
    |path| == |dir| + slash + |file| &&
    dir <= path && path[|path| - |file|..] == file &&
    (slash == 1 ==> path[|dir|] == '/')
  }

  /** `os.path.join(a, b)` on POSIX: an absolute `b` replaces `a`; otherwise
      `b` is appended to `a`, with a slash between unless `a` is empty or
      already ends with one. */
  function PathJoin(a: string, b: string): (r: string)
    ensures b != "" && b[0] == '/' ==> r == b
    ensures b == "" || b[0] != '/' ==> InDirectory(r, a, b)
  {
    if b != "" && b[0] == '/' then b
    else if a == "" || a[|a| - 1] == '/' then a + b
    else a + "/" + b
  }

  /** `_get_ssl_options()`: the certificate and the key, both files in the
      SSL directory. */
  function SslOptions(options: Options): (r: map<string, string>)
    ensures r.Keys == {"certfile", "keyfile"}
    ensures InDirectory(r["certfile"], options.sslpath, "juju.crt")
    ensures InDirectory(r["keyfile"], options.sslpath, "juju.key")
  {
    map["certfile" := PathJoin(options.sslpath, "juju.crt"),
        "keyfile" := PathJoin(options.sslpath, "juju.key")]
  }

  /** The checks `setup` makes once the command line is parsed, and the
      debug option it then defines from the root logger's level: the API
      version must be "go" or "python", and a given port must lie in 1..65535.
      `parsed` holds the parsed options; its debug field is not yet defined
      and is replaced. */
  function Setup(parsed: Options, rootLevel: int): (r: Outcome<Options>)
    ensures r.Ok? <==>
      parsed.apiversion in API_VERSIONS &&
      (parsed.port.None? || MIN_PORT <= parsed.port.value <= MAX_PORT)
    ensures parsed.apiversion !in API_VERSIONS ==> r == Exit(ChoicesMessage("apiversion", API_VERSIONS))
    ensures parsed.apiversion in API_VERSIONS && parsed.port.Some? &&
            !(MIN_PORT <= parsed.port.value <= MAX_PORT) ==>
              r == Exit(RangeMessage("port", MIN_PORT, MAX_PORT))
    ensures r.Ok? ==> r.value == parsed.(debug := rootLevel == DEBUG)
  {
    var choices := ValidateChoices(parsed, "apiversion", API_VERSIONS);
    if choices.Exit? then Exit(choices.message)
    else if choices.KeyError? then KeyError("apiversion")
    else
      var range := ValidateRange(parsed, "port", MIN_PORT, MAX_PORT);
      if range.Exit? then Exit(range.message)
      else if range.KeyError? then KeyError("port")
      else Ok(AddDebug(parsed, rootLevel))
  }

  /** The options as defined, with no command-line argument, pass the
      checks. */
  lemma DefaultsAccepted(rootLevel: int)
    ensures Setup(Defaults(), rootLevel) == Ok(Defaults().(debug := rootLevel == DEBUG))
  {
    assert Defaults().apiversion == API_VERSIONS[0];
  }

  /** An application listening on a port, with SSL options or without. */
  datatype Listener = Listener(app: Apps.Application, port: int, ssl: Option<map<string, string>>)

  /** `run()`: the listeners started, in the order they start listening,
      and the port the server is reported to listen on. Insecure, the server
      alone listens, on the given port or 80, without SSL. Secure, it listens
      with SSL on the given port or 443, and when no port is given the
      redirector first listens on 80. */
  method Run(options: Options, startTime: int, wsToHttp: Option<string> -> string)
    returns (listeners: seq<Listener>, port: int)
    requires options.sandbox || NonEmpty(options.jujuversion)
    ensures port == if options.port.Some? then options.port.value
                    else if options.insecure then HTTP_PORT else HTTPS_PORT
    ensures |listeners| == if !options.insecure && options.port.None? then 2 else 1
    ensures var server := listeners[|listeners| - 1];
      server.port == port &&
      Apps.GuiServerApp(server.app, options, startTime, wsToHttp) &&
      server.ssl == if options.insecure then None else Some(SslOptions(options))
    ensures |listeners| == 2 ==> listeners[0] == Listener(Apps.Redirector(options), HTTP_PORT, None)
    ensures |listeners| == 2 ==> listeners[0].port != listeners[1].port
  {
    var p := options.port;
    var redirector: seq<Listener> := [];
    var ssl: Option<map<string, string>> := None;
    if options.insecure {
      if p.None? {
        p := Some(HTTP_PORT);
      }
    } else {
      if p.None? {
        p := Some(HTTPS_PORT);
        redirector := [Listener(Apps.Redirector(options), HTTP_PORT, None)];
      }
      ssl := Some(SslOptions(options));
    }
    var app := Apps.Server(options, startTime, wsToHttp);
    listeners := redirector + [Listener(app, p.value, ssl)];
    assert listeners[|listeners| - 1] == Listener(app, p.value, ssl);
    port := p.value;
  }
}
