/** The options the GUI server defines, as Tornado holds them once the
    command line is parsed; Tornado's own options (`help` and the logging
    options) are not among them. Each option has the type it is defined
    with: string options without a default may be None, the others always
    hold a value of their type. */
module ServerOptions {
  import opened Values

  const DEFAULT_API_VERSION: string := "go"
  const DEFAULT_SSL_PATH: string := "/etc/ssl/juju-gui"

  datatype Options = Options(
    apiurl: Option<string>,
    apiversion: string,
    testsroot: Option<string>,
    sslpath: string,
    insecure: bool,
    sandbox: bool,
    charmworldurl: Option<string>,
    port: Option<int>,
    jujuguidebug: bool,
    user: Option<string>,
    password: Option<string>,
    uuid: Option<string>,
    jujuversion: Option<string>,
    charmstoreurl: string,
    charmstoreversion: string,
    jemlocation: Option<string>,
    jemversion: string,
    interactivelogin: bool,
    gzip: bool,
    gtm: bool,
    /** Defined after parsing, from the root logger's level. */
    debug: bool)

  /** The options as defined, before any command-line argument. */
  function Defaults(): Options {
    Options(
      apiurl := None,
      apiversion := DEFAULT_API_VERSION,
      testsroot := None,
      sslpath := DEFAULT_SSL_PATH,
      insecure := false,
      sandbox := false,
      charmworldurl := None,
      port := None,
      jujuguidebug := false,
      user := None,
      password := None,
      uuid := None,
      jujuversion := None,
      charmstoreurl := "https://api.jujucharms.com/charmstore/",
      charmstoreversion := "v4",
      jemlocation := None,
      jemversion := "v1",
      interactivelogin := false,
      gzip := false,
      gtm := false,
      debug := false)
  }

  /** A string option as a Python value. */
  function Text(s: Option<string>): Value {
    if s.Some? then Str(s.value) else Null
  }

  /** A string option that is set to a non-empty string (Python truthiness). */
  predicate NonEmpty(s: Option<string>) {
    s.Some? && s.value != ""
  }

  /** `options[name]`: the value of the option with that name. For a name
      no option has, Tornado raises KeyError; readers check `Defined` first,
      and the value here is then None. */
  function Lookup(options: Options, name: string): Value {
    match name
    case "apiurl" => Text(options.apiurl)
    case "apiversion" => Str(options.apiversion)
    case "testsroot" => Text(options.testsroot)
    case "sslpath" => Str(options.sslpath)
    case "insecure" => Bool(options.insecure)
    case "sandbox" => Bool(options.sandbox)
    case "charmworldurl" => Text(options.charmworldurl)
    case "port" => if options.port.Some? then Int(options.port.value) else Null
    case "jujuguidebug" => Bool(options.jujuguidebug)
    case "user" => Text(options.user)
    case "password" => Text(options.password)
    case "uuid" => Text(options.uuid)
    case "jujuversion" => Text(options.jujuversion)
    case "charmstoreurl" => Str(options.charmstoreurl)
    case "charmstoreversion" => Str(options.charmstoreversion)
    case "jemlocation" => Text(options.jemlocation)
    case "jemversion" => Str(options.jemversion)
    case "interactivelogin" => Bool(options.interactivelogin)
    case "gzip" => Bool(options.gzip)
    case "gtm" => Bool(options.gtm)
    case "debug" => Bool(options.debug)
    case _ => Null
  }

  /** Whether `name` is the name of an option. */
  predicate Defined(name: string) {
    name in {
      "apiurl", "apiversion", "testsroot", "sslpath", "insecure", "sandbox",
      "charmworldurl", "port", "jujuguidebug", "user", "password", "uuid",
      "jujuversion", "charmstoreurl", "charmstoreversion", "jemlocation",
      "jemversion", "interactivelogin", "gzip", "gtm", "debug"}
  }
}
