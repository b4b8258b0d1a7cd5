/**
  The configuration (~/.vpn.json once parsed): the autossh binary, the local SOCKS port, the
  network service whose proxy is switched, the ssh keep-alive options and the named servers.
  The loader replaces every empty or zero field by its default, each field on its own.
 */
module ConfigStore {
  import opened Wrappers

  /** ssh keep-alive options passed to autossh. */
  datatype ServerOptions = ServerOptions(serverAliveInterval: int, serverAliveCountMax: int)

  /** A named server entry; `description` is the menu label. */
  datatype Command = Command(name: string, description: string, server: string)

  /** Go ints are 64 bits wide; the JSON decoder refuses wider numbers, and nothing here does arithmetic on them. */
  datatype Config = Config(
    autosshPath: string,
    localPort: int,
    iface: string,             // the network service name handed to networksetup
    serverOptions: ServerOptions,
    commands: seq<Command>)

  const DefaultAutosshPath := "/opt/homebrew/bin/autossh"
  const DefaultLocalPort := 1234
  const DefaultInterface := "Wi-Fi"
  const DefaultAliveInterval := 10
  const DefaultAliveCountMax := 3

  /**
    What reading the configuration yields: the current user cannot be determined, the file
    cannot be read, its JSON does not decode, or the decoded record (absent fields zero).
   */
  datatype ConfigSource = NoCurrentUser | Unreadable | Malformed | Parsed(raw: Config)

  datatype LoadError = UserLookupFailed | ReadFailed | ParseFailed

  /** The decoded record with every empty or zero field replaced by its default. */
  function WithDefaults(raw: Config): (c: Config)
    ensures Complete(c) && c.commands == raw.commands
  {
    Config(
      if raw.autosshPath == "" then DefaultAutosshPath else raw.autosshPath,
      if raw.localPort == 0 then DefaultLocalPort else raw.localPort,
      if raw.iface == "" then DefaultInterface else raw.iface,
      ServerOptions(
        if raw.serverOptions.serverAliveInterval == 0 then DefaultAliveInterval
        else raw.serverOptions.serverAliveInterval,
        if raw.serverOptions.serverAliveCountMax == 0 then DefaultAliveCountMax
        else raw.serverOptions.serverAliveCountMax),
      raw.commands)
  }

  /** No field that has a default is empty or zero. */
  predicate Complete(c: Config) {
    c.autosshPath != "" && c.localPort != 0 && c.iface != ""
    && c.serverOptions.serverAliveInterval != 0 && c.serverOptions.serverAliveCountMax != 0
  }

  /**
    loadConfig: the failure of each step is reported as its own error; a decoded record has its
    fields defaulted one by one.
   */
  method LoadConfig(src: ConfigSource) returns (r: Result<Config, LoadError>)
    ensures src.NoCurrentUser? <==> r == Failure(UserLookupFailed)
    ensures src.Unreadable? <==> r == Failure(ReadFailed)
    ensures src.Malformed? <==> r == Failure(ParseFailed)
    ensures src.Parsed? ==> r == Success(WithDefaults(src.raw))
  {
    match src {
      case NoCurrentUser => return Failure(UserLookupFailed);
      case Unreadable => return Failure(ReadFailed);
      case Malformed => return Failure(ParseFailed);
      case Parsed(raw) =>
        var config := raw;
        if config.autosshPath == "" {
          config := config.(autosshPath := DefaultAutosshPath);
        }
        if config.localPort == 0 {
          config := config.(localPort := DefaultLocalPort);
        }
        if config.iface == "" {
          config := config.(iface := DefaultInterface);
        }
        if config.serverOptions.serverAliveInterval == 0 {
          config := config.(serverOptions := config.serverOptions.(serverAliveInterval := DefaultAliveInterval));
        }
        if config.serverOptions.serverAliveCountMax == 0 {
          config := config.(serverOptions := config.serverOptions.(serverAliveCountMax := DefaultAliveCountMax));
        }
        return Success(config);
    }
  }

  /**
    Each field is decided on its own: an empty or zero field takes its default, any other value
    (a negative port included) is kept, and the server list is never touched.
   */
  lemma DefaultsReplaceOnlyZeroFields(raw: Config)
    ensures var c := WithDefaults(raw);
      && (c.autosshPath == DefaultAutosshPath || c.autosshPath == raw.autosshPath)
      && (c.autosshPath != raw.autosshPath <==> raw.autosshPath == "")
      && (c.localPort != raw.localPort <==> raw.localPort == 0)
      && (raw.localPort == 0 ==> c.localPort == DefaultLocalPort)
      && (c.iface != raw.iface <==> raw.iface == "")
      && (raw.iface == "" ==> c.iface == DefaultInterface)
      && (c.serverOptions.serverAliveInterval != raw.serverOptions.serverAliveInterval
          <==> raw.serverOptions.serverAliveInterval == 0)
      && (raw.serverOptions.serverAliveInterval == 0 ==> c.serverOptions.serverAliveInterval == DefaultAliveInterval)
      && (c.serverOptions.serverAliveCountMax != raw.serverOptions.serverAliveCountMax
          <==> raw.serverOptions.serverAliveCountMax == 0)
      && (raw.serverOptions.serverAliveCountMax == 0 ==> c.serverOptions.serverAliveCountMax == DefaultAliveCountMax)
      && c.commands == raw.commands
  {
  }

  /** A loaded configuration has every defaulted field set, and loading it again changes nothing. */
  lemma DefaultsComplete(raw: Config)
    ensures Complete(WithDefaults(raw))
    ensures WithDefaults(WithDefaults(raw)) == WithDefaults(raw)
  {
  }

  /** Defaulting leaves a record alone exactly when it is already complete. */
  lemma DefaultsFixIffComplete(c: Config)
    ensures WithDefaults(c) == c <==> Complete(c)
  {
  }

  /** createDummyConfig: the template written on first use, with one example server. */
  const DummyConfig := Config(
    DefaultAutosshPath, DefaultLocalPort, DefaultInterface,
    ServerOptions(DefaultAliveInterval, DefaultAliveCountMax),
    [Command("example", "Example VPN Server", "your-server-name-or-ip")])

  /**
    Loading the template back (its JSON decodes to the same record) yields it unchanged:
    one profile named "example" for server "your-server-name-or-ip".
   */
  lemma DummyConfigLoadsBack()
    ensures WithDefaults(DummyConfig) == DummyConfig
    ensures |DummyConfig.commands| == 1
    ensures DummyConfig.commands[0].name == "example"
    ensures DummyConfig.commands[0].server == "your-server-name-or-ip"
  {
  }

  /**
    main: the configuration used when loading fails. Its keep-alive options stay zero, since it
    bypasses the defaulting, and it has no servers.
   */
  const FallbackConfig := Config(DefaultAutosshPath, DefaultLocalPort, DefaultInterface, ServerOptions(0, 0), [])

  /** main: the loaded configuration, or the fallback when loading fails. */
  function InitialConfig(src: ConfigSource): (c: Config)
    ensures src.Parsed? ==> Complete(c) && c.commands == src.raw.commands
    ensures !src.Parsed? ==> !Complete(c) && c.commands == []
  {
    if src.Parsed? then WithDefaults(src.raw) else FallbackConfig
  }
}
