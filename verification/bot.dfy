/**
 * The bot itself: the global table of module factories, the bot's table of module
 * instances, user levels, the admin check for web requests, the `!` command prefix, the
 * template function table, and the start-up sequence (web server, IRC, modules).
 */
module Bot {
  import opened Wrappers
  import opened Text
  import opened Commands

  /** The configuration fields the modelled code reads. */
  datatype Config = Config(
    channel: string,
    adminUser: string,
    clientId: string,
    apiOAuth: string,
    httpsAddr: string,
    httpAddr: string,
    httpRedirectBase: string)

  /** The user level of the configured admin user. */
  const AdminLevel := 100

  /** `userLevel`: 100 for the configured admin user, 0 for everyone else. */
  function UserLevel(cfg: Config, username: string): (level: int)
    ensures level == AdminLevel <==> username == cfg.adminUser
    ensures level == 0 <==> username != cfg.adminUser
  {
    if username == cfg.adminUser then AdminLevel else 0
  }

  /** An HTTP request, reduced to its header fields. */
  datatype Request = Request(header: map<string, string>)

  /** `Header.Get`: the field's value, or "" when the request does not carry it. */
  function Header(r: Request, key: string): string {
    if key in r.header then r.header[key] else ""
  }

  /**
   * `IsAdminRequest`: an internal call (no request) is always trusted; a web request must
   * carry both the configured client ID and the configured API token.
   */
  predicate IsAdminRequest(cfg: Config, r: Option<Request>) {
    r.None? ||
    (Header(r.value, "Client-ID") == cfg.clientId &&
     Header(r.value, "Authorization") == "OAuth " + cfg.apiOAuth)
  }

  /**
   * Neither header alone makes a request an admin request, and both together do: without
   * an Authorization field it never is, without a Client-ID field it is not (for a
   * configured client ID), and with both fields set to the configured values it is.
   */
  lemma AdminRequestNeedsBothHeaders(cfg: Config, h: map<string, string>)
    ensures "Authorization" !in h ==> !IsAdminRequest(cfg, Some(Request(h)))
    ensures "Client-ID" !in h && cfg.clientId != "" ==> !IsAdminRequest(cfg, Some(Request(h)))
    ensures IsAdminRequest(cfg, Some(Request(h["Client-ID" := cfg.clientId]["Authorization" := "OAuth " + cfg.apiOAuth])))
  {
    assert |"OAuth " + cfg.apiOAuth| > 0;
  }

  /**
   * `handleMessage`: a text starting with "!" is run as a command line, with exactly that
   * one "!" removed and at the sender's user level; any other text is ignored (None).
   */
  function HandleMessage(cfg: Config, commands: map<string, Command>, username: string, text: string): (r: Option<Dispatch>)
    ensures r.Some? <==> |text| > 0 && text[0] == '!'
    ensures r.Some? ==> r.value == ExecString(commands, UserLevel(cfg, username), text[1..])
  {
    if |text| > 0 && text[0] == '!' then
      Some(ExecString(commands, UserLevel(cfg, username), text[1..]))
    else
      None
  }

  /**
   * Only the one leading "!" is stripped: "!!" followed by words dispatches a first field
   * that still starts with "!", which no command named without it matches.
   */
  lemma OneBangStripped(cfg: Config, commands: map<string, Command>, username: string, ws: seq<string>)
    requires ws != [] && forall i :: 0 <= i < |ws| ==> IsWord(ws[i])
    ensures HandleMessage(cfg, commands, username, "!!" + Join(ws, " ")) ==
      Some(Exec(commands, UserLevel(cfg, username), ["!" + ws[0]] + ws[1..]))
    ensures "!" + ws[0] !in commands ==>
      HandleMessage(cfg, commands, username, "!!" + Join(ws, " ")) == Some(UnknownCommand("!" + ws[0]))
  {
    var args := ["!" + ws[0]] + ws[1..];
    BangFields(ws);
    BangPrefix(Join(ws, " "));
    BangStripped(cfg, commands, username, "!" + Join(ws, " "), args);
  }

  lemma BangPrefix(s: string)
    ensures "!!" + s == "!" + ("!" + s)
  {
  }

  /** A text that does not start with "!" is not a command line and dispatches nothing. */
  lemma PlainTextIgnored(cfg: Config, commands: map<string, Command>, username: string, text: string)
    requires text == [] || text[0] != '!'
    ensures HandleMessage(cfg, commands, username, text) == None
  {
  }

  /** The one leading "!" is removed and the rest is split into the command line's fields. */
  lemma BangStripped(cfg: Config, commands: map<string, Command>, username: string, line: string, args: seq<string>)
    requires Fields(line) == args
    ensures HandleMessage(cfg, commands, username, "!" + line) ==
      Some(Exec(commands, UserLevel(cfg, username), args))
  {
    assert ("!" + line)[1..] == line;
  }

  /** The fields of "!" and joined words: the first word with its "!", then the others. */
  lemma BangFields(ws: seq<string>)
    requires ws != [] && forall i :: 0 <= i < |ws| ==> IsWord(ws[i])
    ensures Fields("!" + Join(ws, " ")) == ["!" + ws[0]] + ws[1..]
  {
    var vs := ["!" + ws[0]] + ws[1..];
    BangJoin(ws);
    BangWords(ws);
    FieldsOfJoin(vs);
  }

  lemma BangWords(ws: seq<string>)
    requires ws != [] && forall i :: 0 <= i < |ws| ==> IsWord(ws[i])
    ensures var vs := ["!" + ws[0]] + ws[1..]; forall i :: 0 <= i < |vs| ==> IsWord(vs[i])
  {
    var vs := ["!" + ws[0]] + ws[1..];
    assert IsWord(vs[0]);
    assert forall i :: 1 <= i < |vs| ==> vs[i] == ws[i];
  }

  /** A "!" in front of joined words sticks to the first word. */
  lemma BangJoin(ws: seq<string>)
    requires ws != []
    ensures "!" + Join(ws, " ") == Join(["!" + ws[0]] + ws[1..], " ")
  {
    var vs := ["!" + ws[0]] + ws[1..];
    assert |vs| == |ws| && vs[0] == "!" + ws[0] && vs[1..] == ws[1..];
    if |ws| > 1 {
      var rest := Join(ws[1..], " ");
      assert Join(ws, " ") == ws[0] + " " + rest;
      assert Join(vs, " ") == vs[0] + " " + rest;
      BangSticks(ws[0], rest);
    }
  }

  lemma BangSticks(w: string, rest: string)
    ensures "!" + (w + " " + rest) == ("!" + w) + " " + rest
  {
  }

  /**
   * "!" followed by words runs the first word's command with the other words as arguments;
   * a command whose level lies above 0 and at most at the admin level runs exactly for the
   * admin user, and refuses everyone else with the level error.
   */
  lemma CommandLine(cfg: Config, commands: map<string, Command>, username: string, ws: seq<string>)
    requires ws != [] && forall i :: 0 <= i < |ws| ==> IsWord(ws[i])
    requires ws[0] in commands && 0 < commands[ws[0]].level <= AdminLevel
    ensures HandleMessage(cfg, commands, username, "!" + Join(ws, " ")) ==
      if username == cfg.adminUser then Some(Invoke(commands[ws[0]].handler, ws[1..]))
      else Some(InsufficientLevel(0, commands[ws[0]].level))
  {
    assert ("!" + Join(ws, " "))[1..] == Join(ws, " ");
    ExecStringWords(commands, UserLevel(cfg, username), ws);
  }

  /**
   * A module factory, reduced to its outcome: either the error it reports, or a module,
   * which may provide an RPC service. What a factory does to the bot while it runs is
   * modelled with each module.
   */
  datatype Factory = Factory(error: Option<string>, providesRpc: bool)

  /** A module instance: its type, the store namespace it was given, and whether it serves RPC. */
  datatype Module = Module(kind: string, namespace: string, providesRpc: bool)

  /** The process-wide table of module factories by type name. */
  class FactoryRegistry {
    var factories: map<string, Factory>

    constructor ()
      ensures factories == map[]
    {
      factories := map[];
    }

    /** `RegisterModuleFactory`: a type name can be registered once; the first factory stays. */
    method Register(f: Factory, name: string) returns (err: Outcome)
      modifies this
      ensures err.Ok? <==> name !in old(factories)
      ensures factories == if err.Ok? then old(factories)[name := f] else old(factories)
    {
      if name in factories {
        return Err("Module name \"" + name + "\" registered more than once.");
      }
      factories := factories[name := f];
      err := Ok;
    }
  }

  /** The functions templates may call. */
  datatype TemplateFunc = StatusFunc | TimeFunc | UrlFunc

  /** How the IRC connection attempt ends: connected, returned (with or without error), or timed out. */
  datatype IrcConnect = Connected | Returned(err: Option<string>) | TimedOut

  /** The error a failing TLS or TCP listener reports. */
  const ListenError := "listen error"

  class Bot {
    const cfg: Config
    /** The bot's command registry. */
    const engine: CmdEngine
    /** The module instances by instance name. */
    var modules: map<string, Module>
    /** The template functions by name. */
    var funcMap: map<string, TemplateFunc>
    /** The instance names under which RPC services are registered. */
    var rpcServices: set<string>
    /** The instance names of the modules that were started. */
    var started: set<string>

    /** `NewBot`, past opening the database: no modules, no template functions, nothing started. */
    constructor (cfg: Config)
      ensures this.cfg == cfg && fresh(engine) && engine.commands == map[]
      ensures modules == map[] && funcMap == map[] && rpcServices == {} && started == {}
    {
      this.cfg := cfg;
      engine := new CmdEngine();
      modules := map[];
      funcMap := map[];
      rpcServices := {};
      started := {};
    }

    /**
     * `AddModuleByName`: the type must be registered (checked first), the instance name
     * must be new, and the factory, given the store namespace named after the instance,
     * must succeed; then exactly that instance is added.
     */
    method AddModuleByName(registry: FactoryRegistry, modType: string, name: string) returns (err: Outcome)
      modifies this
      ensures modType !in registry.factories ==> err == Err("Module type " + modType + " not found.")
      ensures modType in registry.factories && name in old(modules) ==>
        err == Err("Module named " + name + " already registered.")
      ensures (modType in registry.factories && name !in old(modules)
               && registry.factories[modType].error.Some?) ==>
        err == Err("Can't instantiate module " + modType + ": " + registry.factories[modType].error.value)
      ensures err.Ok? <==>
        (modType in registry.factories && name !in old(modules)
         && registry.factories[modType].error.None?)
      ensures modules == if err.Ok?
        then old(modules)[name := Module(modType, name, registry.factories[modType].providesRpc)]
        else old(modules)
      ensures funcMap == old(funcMap) && rpcServices == old(rpcServices) && started == old(started)
    {
      if modType !in registry.factories {
        return Err("Module type " + modType + " not found.");
      }
      var factory := registry.factories[modType];
      if name in modules {
        return Err("Module named " + name + " already registered.");
      }
      if factory.error.Some? {
        return Err("Can't instantiate module " + modType + ": " + factory.error.value);
      }
      modules := modules[name := Module(modType, name, factory.providesRpc)];
      err := Ok;
    }

    /** `AddModule(t)`: the instance is named after its type. */
    method AddModule(registry: FactoryRegistry, modType: string) returns (err: Outcome)
      modifies this
      ensures err.Ok? <==>
        (modType in registry.factories && modType !in old(modules)
         && registry.factories[modType].error.None?)
      ensures modules == if err.Ok?
        then old(modules)[modType := Module(modType, modType, registry.factories[modType].providesRpc)]
        else old(modules)
      ensures funcMap == old(funcMap) && rpcServices == old(rpcServices) && started == old(started)
    {
      err := AddModuleByName(registry, modType, modType);
    }

    /** `AddCommand`: registers a command with the bot's registry. */
    method AddCommand(name: string, help: string, handler: Handler, level: int) returns (err: Outcome)
      modifies engine
      ensures err.Ok? <==> name !in old(engine.commands)
      ensures engine.commands == if err.Ok? then old(engine.commands)[name := Command(help, handler, level)]
        else old(engine.commands)
    {
      err := engine.AddCommand(name, help, handler, level);
    }

    /** `AddTemplateFunc`: a name can be registered once; the first function stays. */
    method AddTemplateFunc(name: string, f: TemplateFunc) returns (err: Outcome)
      modifies this
      ensures err.Ok? <==> name !in old(funcMap)
      ensures err.Err? ==> err.msg == name + " template func already registered"
      ensures funcMap == if err.Ok? then old(funcMap)[name := f] else old(funcMap)
      ensures modules == old(modules) && rpcServices == old(rpcServices) && started == old(started)
    {
      if name in funcMap {
        return Err(name + " template func already registered");
      }
      funcMap := funcMap[name := f];
      err := Ok;
    }

    /**
     * `startWebserver`: registers the "url" template function (a clash is ignored), serves
     * the RPC services of exactly the modules that provide one, each under its instance
     * name, and then fails if the HTTPS listener, or the HTTP redirect listener when an
     * HTTP address is configured, cannot be opened.
     */
    method StartWebserver(tlsOk: bool, httpOk: bool) returns (err: Outcome)
      modifies this
      ensures funcMap == if "url" in old(funcMap) then old(funcMap) else old(funcMap)["url" := UrlFunc]
      ensures rpcServices == set name | name in modules && modules[name].providesRpc
      ensures err.Ok? <==> tlsOk && (cfg.httpAddr == "" || httpOk)
      ensures err.Err? ==> err == Err(ListenError)
      ensures modules == old(modules) && started == old(started)
    {
      var _ := AddTemplateFunc("url", UrlFunc);
      rpcServices := {};
      var todo := modules.Keys;
      while todo != {}
        invariant todo <= modules.Keys
        invariant rpcServices == set name | name in modules && name !in todo && modules[name].providesRpc
        invariant modules == old(modules) && started == old(started)
        invariant funcMap == if "url" in old(funcMap) then old(funcMap) else old(funcMap)["url" := UrlFunc]
        decreases todo
      {
        var name :| name in todo;
        if modules[name].providesRpc {
          rpcServices := rpcServices + {name};
        }
        todo := todo - {name};
      }
      if !tlsOk {
        return Err(ListenError);
      }
      if cfg.httpAddr != "" && !httpOk {
        return Err(ListenError);
      }
      err := Ok;
    }

    /**
     * `Connect`: starts the web server, which registers the "url" template function and the
     * RPC services on every path, then waits for the IRC connection; only when the
     * connection is made (or returns without an error) are the modules started, every one
     * of them, their own errors ignored.
     */
    method Connect(tlsOk: bool, httpOk: bool, irc: IrcConnect) returns (err: Outcome)
      modifies this
      ensures err.Ok? <==> tlsOk && (cfg.httpAddr == "" || httpOk) && (irc.Connected? || irc == Returned(None))
      ensures !(tlsOk && (cfg.httpAddr == "" || httpOk)) ==> err == Err(ListenError)
      ensures tlsOk && (cfg.httpAddr == "" || httpOk) && irc.Returned? && irc.err.Some? ==>
        err == Err("Can't connect to irc: " + irc.err.value)
      ensures tlsOk && (cfg.httpAddr == "" || httpOk) && irc.TimedOut? ==>
        err == Err("IRC connect timed out")
      ensures started == if err.Ok? then old(started) + modules.Keys else old(started)
      ensures modules == old(modules)
      ensures funcMap == if "url" in old(funcMap) then old(funcMap) else old(funcMap)["url" := UrlFunc]
      ensures rpcServices == set name | name in modules && modules[name].providesRpc
    {
      err := StartWebserver(tlsOk, httpOk);
      if err.Err? {
        return;
      }
      match irc {
        case Returned(Some(e)) => return Err("Can't connect to irc: " + e);
        case TimedOut => return Err("IRC connect timed out");
        case _ =>
      }
      var todo := modules.Keys;
      while todo != {}
        invariant todo <= modules.Keys
        invariant started == old(started) + (modules.Keys - todo)
        invariant modules == old(modules)
        invariant funcMap == if "url" in old(funcMap) then old(funcMap) else old(funcMap)["url" := UrlFunc]
        invariant rpcServices == set name | name in modules && modules[name].providesRpc
        decreases todo
      {
        var name :| name in todo;
        started := started + {name};
        todo := todo - {name};
      }
    }
  }

  /**
   * The sequence of module_test.go: "test" and "bad" factories are registered (a second
   * "test" is refused), then adding "test" succeeds, adding it again, adding the unknown
   * "test2" and adding the failing "bad" all fail, and exactly one module is left.
   */
  method ModuleScenario() returns (count: int)
    ensures count == 1
  {
    var registry := new FactoryRegistry();
    var e1 := registry.Register(Factory(None, false), "test");
    var e2 := registry.Register(Factory(None, false), "test");
    var e3 := registry.Register(Factory(Some("Bad Module"), false), "bad");
    assert e1.Ok? && e2.Err? && e3.Ok?;
    var b := new Bot(Config("test", "rock", "id", "token", "localhost:8443", "localhost:8080", ""));
    var a1 := b.AddModule(registry, "test");
    var a2 := b.AddModule(registry, "test");
    var a3 := b.AddModule(registry, "test2");
    var a4 := b.AddModule(registry, "bad");
    assert a1.Ok? && a2.Err? && a3.Err? && a4.Err?;
    count := |b.modules|;
  }
}
