/** Service settings (src/deckhand/config/settings.py): defaults, overridden
    by the config file named in the environment, overridden in turn by
    environment variables. The environment is a map from variable names to
    values and the config file is the document it decodes to. */
module AppSettings {
  import opened Base
  import opened Json
  import opened Strings

  /** The fields of `Settings`. Values taken from the config file keep the
      JSON form the file gave them, as Python keeps whatever the file held. */
  datatype Config = Config(
    serviceName: Json,
    host: Json,
    port: Json,
    pluginModules: Json,
    configFilePath: Option<string>,
    bindingsFilePath: Json)

  /** The values `__init__` starts from. */
  const DefaultConfig := Config(JStr("deckhand"), JStr("127.0.0.1"), JInt(8000),
                                JArr([JStr("deckhand.plugins.builtin")]), None, JNull)

  type Env = map<string, string>

  /** `os.getenv(name)` used as a condition: set and not empty. */
  function EnvValue(env: Env, name: string): (r: Option<string>)
    ensures r.Some? <==> name in env && env[name] != ""
    ensures r.Some? ==> r.value == env[name]
  {
    if name in env && env[name] != "" then Some(env[name]) else None
  }

  /** The error a section that is not a table raises at its `.get`. */
  const NotATable := WrongType("config section has no attribute 'get'")

  /** `_load_from_config_file` on the decoded document: each of the
      `service`, `plugins` and `paths` sections that is present overrides its
      own fields; a present section that is not a table is an error. */
  function FromConfigFile(c: Config, config: Object): (r: Result<Config, Error>)
    ensures r.Err? <==> exists s :: s in {"service", "plugins", "paths"} && s in config && !config[s].JObj?
    ensures r.Ok? ==> r.value.configFilePath == c.configFilePath
    ensures r.Ok? && "service" in config ==>
              var s := config["service"].fields;
              && r.value.serviceName == GetOr(s, "name", c.serviceName)
              && r.value.host == GetOr(s, "host", c.host)
              && r.value.port == GetOr(s, "port", c.port)
    ensures r.Ok? && "service" !in config ==>
              r.value.serviceName == c.serviceName && r.value.host == c.host && r.value.port == c.port
    ensures r.Ok? ==> (r.value.pluginModules ==
                         if "plugins" in config && Truthy(Get(config["plugins"].fields, "modules"))
                         then config["plugins"].fields["modules"] else c.pluginModules)
    ensures r.Ok? ==> (r.value.bindingsFilePath ==
                         if "paths" in config then Get(config["paths"].fields, "bindings_file") else c.bindingsFilePath)
  {
    if "service" in config && !config["service"].JObj? then Err(NotATable)
    else
      var c1 :=
        if "service" in config then
          var s := config["service"].fields;
          c.(serviceName := GetOr(s, "name", c.serviceName), host := GetOr(s, "host", c.host),
             port := GetOr(s, "port", c.port))
        else c;
      if "plugins" in config && !config["plugins"].JObj? then Err(NotATable)
      else
        var c2 :=
          if "plugins" in config && Truthy(Get(config["plugins"].fields, "modules"))
          then c1.(pluginModules := config["plugins"].fields["modules"])
          else c1;
        if "paths" in config && !config["paths"].JObj? then Err(NotATable)
        else if "paths" in config then Ok(c2.(bindingsFilePath := Get(config["paths"].fields, "bindings_file")))
        else Ok(c2)
  }

  /** The positions of the non-empty pieces, in increasing order: every
      such position and no other. */
  function Kept(pieces: seq<string>): (r: seq<nat>)
    ensures forall i :: 0 <= i < |r| ==> r[i] < |pieces| && pieces[r[i]] != ""
    ensures forall i, j :: 0 <= i < j < |r| ==> r[i] < r[j]
    ensures forall k :: 0 <= k < |pieces| && pieces[k] != "" ==> k in r
    decreases |pieces|
  {
    if pieces == [] then []
    else
      var n := |pieces| - 1;
      var front := Kept(pieces[..n]);
      front + (if pieces[n] != "" then [n] else [])
  }

  /** The non-empty pieces, in order: the `i`-th result is the piece at the
      `i`-th kept position. */
  function NonBlank(pieces: seq<string>): (r: seq<string>)
    ensures |r| == |Kept(pieces)|
    ensures forall i :: 0 <= i < |r| ==> r[i] == pieces[Kept(pieces)[i]]
    decreases |pieces|
  {
    if pieces == [] then []
    else
      var n := |pieces| - 1;
      var front := NonBlank(pieces[..n]);
      var r := if pieces[n] == "" then front else front + [pieces[n]];
      NonBlankStep(pieces, front, r);
      r
  }

  /** The kept pieces of all but the last piece, followed by the last one
      when it is not empty, are the kept pieces of the whole list. */
  lemma NonBlankStep(pieces: seq<string>, front: seq<string>, r: seq<string>)
    requires pieces != []
    requires var init := pieces[..|pieces| - 1];
             && |front| == |Kept(init)|
             && forall i :: 0 <= i < |front| ==> front[i] == init[Kept(init)[i]]
    requires r == if pieces[|pieces| - 1] == "" then front else front + [pieces[|pieces| - 1]]
    ensures |r| == |Kept(pieces)|
    ensures forall i :: 0 <= i < |r| ==> r[i] == pieces[Kept(pieces)[i]]
  {
    var n := |pieces| - 1;
    var kept := Kept(pieces[..n]);
    assert Kept(pieces) == kept + (if pieces[n] != "" then [n] else []);
    forall i | 0 <= i < |front|
      ensures front[i] == pieces[kept[i]]
    {
      assert front[i] == pieces[..n][kept[i]];
    }
  }

  /** Each piece stripped, as `p.strip()` inside the comprehension. */
  function StripAll(parts: seq<string>): (r: seq<string>)
    ensures |r| == |parts|
    ensures forall i :: 0 <= i < |r| ==> r[i] == Strip(parts[i])
  {
    seq(|parts|, i requires 0 <= i < |parts| => Strip(parts[i]))
  }

  /** `[p.strip() for p in s.split(",") if p.strip()]`: the stripped
      comma-separated pieces of `s` that are not blank, in order; each is a
      module name that is not empty, carries no comma and no surrounding
      whitespace. */
  function SplitPlugins(s: string): (r: seq<string>)
    ensures var stripped := StripAll(Split(s, ','));
            && |r| == |Kept(stripped)|
            && forall i :: 0 <= i < |r| ==> r[i] == Strip(Split(s, ',')[Kept(stripped)[i]])
    ensures forall i :: 0 <= i < |r| ==> PluginName(r[i])
  {
    var parts := Split(s, ',');
    var stripped := StripAll(parts);
    var r := NonBlank(stripped);
    PluginNames(parts, stripped, r);
    r
  }

  /** The non-blank stripped pieces of a split are plugin names, each the
      stripped piece at its kept position. */
  lemma PluginNames(parts: seq<string>, stripped: seq<string>, r: seq<string>)
    requires forall i :: 0 <= i < |parts| ==> ',' !in parts[i]
    requires stripped == StripAll(parts) && r == NonBlank(stripped)
    ensures forall i :: 0 <= i < |r| ==> r[i] == Strip(parts[Kept(stripped)[i]])
    ensures forall i :: 0 <= i < |r| ==> PluginName(r[i])
  {
    forall i | 0 <= i < |r|
      ensures r[i] == Strip(parts[Kept(stripped)[i]]) && PluginName(r[i])
    {
      var k := Kept(stripped)[i];
      assert r[i] == stripped[k] == Strip(parts[k]) != "";
      StripKeepsOut(parts[k], ',');
    }
  }

  /** The plugin list as `Settings` holds it. */
  function PluginList(names: seq<string>): Json
  {
    JArr(seq(|names|, i requires 0 <= i < |names| => JStr(names[i])))
  }

  /** Stripping removes characters, it never adds one. */
  lemma StripKeepsOut(s: string, c: char)
    ensures c !in s ==> c !in Strip(s)
  {
    var t := StripLeft(s);
    assert forall x :: x in t ==> x in s;
    assert forall x :: x in StripRight(t) ==> x in t;
  }

  /** A module name as a plugin list writes it: not empty, without commas
      and without surrounding whitespace. */
  predicate PluginName(n: string)
  {
    n != "" && ',' !in n && !IsSpace(n[0]) && !IsSpace(n[|n| - 1])
  }

  lemma StripFixed(n: string)
    requires n == [] || (!IsSpace(n[0]) && !IsSpace(n[|n| - 1]))
    ensures Strip(n) == n
  {
  }

  lemma {:induction false} SplitNoSeparator(a: string, sep: char)
    requires sep !in a
    ensures Split(a, sep) == [a]
    decreases |a|
  {
    if a != [] {
      SplitNoSeparator(a[1..], sep);
      assert a == [a[0]] + a[1..];
    }
  }

  lemma {:induction false} SplitAfterFirst(a: string, rest: string, sep: char)
    requires sep !in a
    ensures Split(a + [sep] + rest, sep) == [a] + Split(rest, sep)
    decreases |a|
  {
    var s := a + [sep] + rest;
    if a == [] {
      assert s == [sep] + rest && s[1..] == rest;
    } else {
      assert s[1..] == a[1..] + [sep] + rest;
      SplitAfterFirst(a[1..], rest, sep);
      assert a == [a[0]] + a[1..];
    }
  }

  /** Splitting a joined list of separator-free pieces gives the pieces back. */
  lemma {:induction false} JoinSplit(parts: seq<string>, sep: char)
    requires |parts| >= 1 && forall i :: 0 <= i < |parts| ==> sep !in parts[i]
    ensures Split(Join(parts, sep), sep) == parts
    decreases |parts|
  {
    if |parts| == 1 {
      SplitNoSeparator(parts[0], sep);
    } else {
      JoinSplit(parts[1..], sep);
      SplitAfterFirst(parts[0], Join(parts[1..], sep), sep);
    }
  }

  lemma {:induction false} NonBlankKeeps(names: seq<string>)
    requires forall i :: 0 <= i < |names| ==> names[i] != ""
    ensures NonBlank(names) == names
    decreases |names|
  {
    if names != [] {
      var n := |names| - 1;
      assert NonBlank(names) == NonBlank(names[..n]) + [names[n]];
      NonBlankKeeps(names[..n]);
      assert names[..n] + [names[n]] == names;
    }
  }

  lemma StripAllKeeps(names: seq<string>)
    requires forall i :: 0 <= i < |names| ==> PluginName(names[i])
    ensures StripAll(names) == names
  {
    forall i | 0 <= i < |names| ensures Strip(names[i]) == names[i] {
      StripFixed(names[i]);
    }
  }

  /** A comma-separated list of module names, however written, reads back
      as exactly those names. */
  lemma PluginListRoundTrip(names: seq<string>)
    requires names != [] && forall i :: 0 <= i < |names| ==> PluginName(names[i])
    ensures SplitPlugins(Join(names, ',')) == names
  {
    JoinSplit(names, ',');
    StripAllKeeps(names);
    NonBlankKeeps(names);
  }

  /** The port after `_load_from_env`: the variable's value when it is set
      and `int()` accepts it, the old port otherwise. */
  function EnvPort(port: Json, env: Env): (r: Json)
    ensures EnvValue(env, "DECKHAND_PORT").Some? && ToInt(JStr(env["DECKHAND_PORT"])).Ok? ==>
              r == JInt(ToInt(JStr(env["DECKHAND_PORT"])).value)
    ensures EnvValue(env, "DECKHAND_PORT").None? || ToInt(JStr(env["DECKHAND_PORT"])).Err? ==> r == port
  {
    var v := EnvValue(env, "DECKHAND_PORT");
    if v.Some? && ToInt(JStr(v.value)).Ok? then JInt(ToInt(JStr(v.value)).value) else port
  }

  /** The plugin list after `_load_from_env`. */
  function EnvPlugins(modules: Json, env: Env): (r: Json)
    ensures EnvValue(env, "DECKHAND_PLUGINS").Some? ==> r == PluginList(SplitPlugins(env["DECKHAND_PLUGINS"]))
    ensures EnvValue(env, "DECKHAND_PLUGINS").None? ==> r == modules
  {
    var v := EnvValue(env, "DECKHAND_PLUGINS");
    if v.Some? then PluginList(SplitPlugins(v.value)) else modules
  }

  /** `_load_from_env`: every variable that is set and not empty overrides
      its field; a port that is not an integer leaves the port as it was. */
  function FromEnv(c: Config, env: Env): (r: Config)
    ensures r.serviceName == c.serviceName
    ensures EnvValue(env, "DECKHAND_HOST").None? ==> r.host == c.host
    ensures EnvValue(env, "DECKHAND_PORT").None? ==> r.port == c.port
    ensures EnvValue(env, "DECKHAND_CONFIG_FILE").None? ==> r.configFilePath == c.configFilePath
    ensures EnvValue(env, "DECKHAND_PLUGINS").None? ==> r.pluginModules == c.pluginModules
    ensures EnvValue(env, "DECKHAND_BINDINGS_FILE").None? ==> r.bindingsFilePath == c.bindingsFilePath
    ensures EnvValue(env, "DECKHAND_HOST").Some? ==> r.host == JStr(env["DECKHAND_HOST"])
    ensures EnvValue(env, "DECKHAND_PORT").Some? && ToInt(JStr(env["DECKHAND_PORT"])).Ok? ==>
              r.port == JInt(ToInt(JStr(env["DECKHAND_PORT"])).value)
    ensures EnvValue(env, "DECKHAND_PORT").Some? && ToInt(JStr(env["DECKHAND_PORT"])).Err? ==> r.port == c.port
    ensures EnvValue(env, "DECKHAND_CONFIG_FILE").Some? ==> r.configFilePath == Some(env["DECKHAND_CONFIG_FILE"])
    ensures EnvValue(env, "DECKHAND_PLUGINS").Some? ==>
              r.pluginModules == PluginList(SplitPlugins(env["DECKHAND_PLUGINS"]))
    ensures EnvValue(env, "DECKHAND_BINDINGS_FILE").Some? ==> r.bindingsFilePath == JStr(env["DECKHAND_BINDINGS_FILE"])
  {
    var host := EnvValue(env, "DECKHAND_HOST");
    var configFile := EnvValue(env, "DECKHAND_CONFIG_FILE");
    var bindings := EnvValue(env, "DECKHAND_BINDINGS_FILE");
    Config(
      c.serviceName,
      if host.Some? then JStr(host.value) else c.host,
      EnvPort(c.port, env),
      EnvPlugins(c.pluginModules, env),
      if configFile.Some? then configFile else c.configFilePath,
      if bindings.Some? then JStr(bindings.value) else c.bindingsFilePath)
  }

  /** `Settings()`: the defaults, then the config file when
      DECKHAND_CONFIG_FILE names one, then the environment. */
  function Settle(env: Env, config: Object): (r: Result<Config, Error>)
    ensures EnvValue(env, "DECKHAND_CONFIG_FILE").None? ==> r == Ok(FromEnv(DefaultConfig, env))
    ensures EnvValue(env, "DECKHAND_CONFIG_FILE").Some? ==>
              var loaded := FromConfigFile(DefaultConfig.(configFilePath := EnvValue(env, "DECKHAND_CONFIG_FILE")), config);
              && (loaded.Err? ==> r == Err(loaded.error))
              && (loaded.Ok? ==> r == Ok(FromEnv(loaded.value, env)))
    ensures r.Ok? ==> r.value.configFilePath == EnvValue(env, "DECKHAND_CONFIG_FILE")
  {
    match EnvValue(env, "DECKHAND_CONFIG_FILE")
    case None => Ok(FromEnv(DefaultConfig, env))
    case Some(path) =>
      match FromConfigFile(DefaultConfig.(configFilePath := Some(path)), config)
      case Err(e) => Err(e)
      case Ok(c) => Ok(FromEnv(c, env))
  }

  /** Without DECKHAND_CONFIG_FILE the config document is never consulted. */
  lemma ConfigOnlyWhenNamed(env: Env, config1: Object, config2: Object)
    requires EnvValue(env, "DECKHAND_CONFIG_FILE").None?
    ensures Settle(env, config1) == Settle(env, config2) == Ok(FromEnv(DefaultConfig, env))
  {
  }

  /** With an empty environment and no config file, the settings are the defaults. */
  lemma DefaultsWithoutOverrides(config: Object)
    ensures Settle(map[], config) == Ok(DefaultConfig)
  {
    assert FromEnv(DefaultConfig, map[]) == DefaultConfig;
  }

  /** Environment values win over the config file. */
  lemma EnvironmentWins(env: Env, config: Object)
    requires Settle(env, config).Ok?
    ensures var c := Settle(env, config).value;
            && (EnvValue(env, "DECKHAND_HOST").Some? ==> c.host == JStr(env["DECKHAND_HOST"]))
            && (EnvValue(env, "DECKHAND_BINDINGS_FILE").Some? ==> c.bindingsFilePath == JStr(env["DECKHAND_BINDINGS_FILE"]))
            && (EnvValue(env, "DECKHAND_CONFIG_FILE").Some? ==> c.configFilePath == Some(env["DECKHAND_CONFIG_FILE"]))
            && (EnvValue(env, "DECKHAND_PORT").Some? && ToInt(JStr(env["DECKHAND_PORT"])).Ok? ==>
                  c.port == JInt(ToInt(JStr(env["DECKHAND_PORT"])).value))
            && (EnvValue(env, "DECKHAND_PLUGINS").Some? ==>
                  c.pluginModules == PluginList(SplitPlugins(env["DECKHAND_PLUGINS"])))
  {
  }

  /** A port variable that `int()` rejects leaves the port as configured. */
  lemma BadPortIgnored(c: Config, env: Env)
    requires "DECKHAND_PORT" in env && ToInt(JStr(env["DECKHAND_PORT"])).Err?
    ensures FromEnv(c, env).port == c.port
  {
  }

  /** A variable set to the empty string counts as unset. */
  lemma EmptyVariableIsUnset(c: Config, env: Env, name: string)
    ensures FromEnv(c, env[name := ""]) == FromEnv(c, env - {name})
  {
    var e1, e2 := env[name := ""], env - {name};
    assert EnvValue(e1, "DECKHAND_HOST") == EnvValue(e2, "DECKHAND_HOST");
    assert EnvValue(e1, "DECKHAND_PORT") == EnvValue(e2, "DECKHAND_PORT");
    assert EnvValue(e1, "DECKHAND_CONFIG_FILE") == EnvValue(e2, "DECKHAND_CONFIG_FILE");
    assert EnvValue(e1, "DECKHAND_PLUGINS") == EnvValue(e2, "DECKHAND_PLUGINS");
    assert EnvValue(e1, "DECKHAND_BINDINGS_FILE") == EnvValue(e2, "DECKHAND_BINDINGS_FILE");
  }

  class Settings {
    var serviceName: Json
    var host: Json
    var port: Json
    var pluginModules: Json
    var configFilePath: Option<string>
    var bindingsFilePath: Json

    function View(): Config
      reads this
    {
      Config(serviceName, host, port, pluginModules, configFilePath, bindingsFilePath)
    }

    /** The default assignments at the top of `__init__`. */
    constructor Defaults()
      ensures View() == DefaultConfig
    {
      serviceName := JStr("deckhand");
      host := JStr("127.0.0.1");
      port := JInt(8000);
      pluginModules := JArr([JStr("deckhand.plugins.builtin")]);
      configFilePath := None;
      bindingsFilePath := JNull;
    }

    /** `_load_from_config_file`, section by section. */
    method LoadFromConfigFile(config: Object) returns (r: Outcome<Error>)
      modifies this
      ensures r.Pass? <==> FromConfigFile(old(View()), config).Ok?
      ensures r.Pass? ==> View() == FromConfigFile(old(View()), config).value
    {
      if "service" in config {
        if !config["service"].JObj? {
          return Fail(NotATable);
        }
        var s := config["service"].fields;
        serviceName := GetOr(s, "name", serviceName);
        host := GetOr(s, "host", host);
        port := GetOr(s, "port", port);
      }
      if "plugins" in config {
        if !config["plugins"].JObj? {
          return Fail(NotATable);
        }
        var modules := Get(config["plugins"].fields, "modules");
        if Truthy(modules) {
          pluginModules := modules;
        }
      }
      if "paths" in config {
        if !config["paths"].JObj? {
          return Fail(NotATable);
        }
        bindingsFilePath := Get(config["paths"].fields, "bindings_file");
      }
      r := Pass;
    }

    /** `_load_from_env`, variable by variable. */
    method LoadFromEnv(env: Env)
      modifies this
      ensures View() == FromEnv(old(View()), env)
    {
      ghost var c := View();
      var host := EnvValue(env, "DECKHAND_HOST");
      if host.Some? {
        this.host := JStr(host.value);
      }
      assert View() == c.(host := if host.Some? then JStr(host.value) else c.host);
      c := View();
      var port := EnvValue(env, "DECKHAND_PORT");
      if port.Some? {
        var n := ToInt(JStr(port.value));
        if n.Ok? {
          this.port := JInt(n.value);
        }
      }
      assert View() == c.(port := if port.Some? && ToInt(JStr(port.value)).Ok? then JInt(ToInt(JStr(port.value)).value) else c.port);
      c := View();
      var configFile := EnvValue(env, "DECKHAND_CONFIG_FILE");
      if configFile.Some? {
        configFilePath := configFile;
      }
      assert View() == c.(configFilePath := if configFile.Some? then configFile else c.configFilePath);
      c := View();
      var plugins := EnvValue(env, "DECKHAND_PLUGINS");
      if plugins.Some? {
        pluginModules := PluginList(SplitPlugins(plugins.value));
      }
      assert View() == c.(pluginModules := if plugins.Some? then PluginList(SplitPlugins(plugins.value)) else c.pluginModules);
      c := View();
      var bindings := EnvValue(env, "DECKHAND_BINDINGS_FILE");
      if bindings.Some? {
        bindingsFilePath := JStr(bindings.value);
      }
      assert View() == c.(bindingsFilePath := if bindings.Some? then JStr(bindings.value) else c.bindingsFilePath);
    }

    /** `Settings()`: a new settings object, or the error the config file
        raised. */
    static method Load(env: Env, config: Object) returns (r: Result<Settings, Error>)
      ensures r.Ok? <==> Settle(env, config).Ok?
      ensures r.Ok? ==> fresh(r.value) && r.value.View() == Settle(env, config).value
    {
      var s := new Settings.Defaults();
      var configFile := EnvValue(env, "DECKHAND_CONFIG_FILE");
      if configFile.Some? {
        s.configFilePath := configFile;
        var loaded := s.LoadFromConfigFile(config);
        if loaded.Fail? {
          return Err(loaded.error);
        }
      }
      s.LoadFromEnv(env);
      return Ok(s);
    }
  }
}
