/**
  The autossh command line connectVPN builds: no monitor port, the two ssh keep-alive options, a
  dynamic (SOCKS) forward on localhost:<port>, no remote command, and the server. A spawn is
  recorded as the request it carries; its argument vector is AutosshArgs of that request.
 */
module AutosshCommand {
  import opened Wrappers
  import opened Text
  import opened ConfigStore

  /** autossh's arguments: no monitor port, the keep-alive options, a dynamic forward on localhost:<port>, no remote command, the server. */
  function AutosshArgs(options: ServerOptions, port: int, server: string): seq<string> {
    ["-f", "-M", "0",
     "-o", "ServerAliveInterval " + FormatInt(options.serverAliveInterval),
     "-o", "ServerAliveCountMax " + FormatInt(options.serverAliveCountMax),
     "-D", "localhost:" + FormatInt(port),
     "-N", server]
  }

  /** What an autossh command line asks for. */
  datatype TunnelRequest = TunnelRequest(options: ServerOptions, port: int, server: string)

  function StripPrefix(s: string, prefix: string): Option<string> {
    if |prefix| <= |s| && s[..|prefix|] == prefix then Some(s[|prefix|..]) else None
  }

  /** Reads an argument vector of the shape AutosshArgs builds; anything else is refused. */
  function ParseAutosshArgs(args: seq<string>): Option<TunnelRequest> {
    if |args| != 11 || args[0] != "-f" || args[1] != "-M" || args[2] != "0" || args[3] != "-o"
       || args[5] != "-o" || args[7] != "-D" || args[9] != "-N" then None
    else
      match (StripPrefix(args[4], "ServerAliveInterval "), StripPrefix(args[6], "ServerAliveCountMax "),
             StripPrefix(args[8], "localhost:"))
      case (Some(a), Some(b), Some(c)) =>
        (match (ParseInt(a), ParseInt(b), ParseInt(c))
         case (Some(interval), Some(count), Some(port)) =>
           Some(TunnelRequest(ServerOptions(interval, count), port, server := args[10]))
         case _ => None)
      case _ => None
  }

  lemma StripPrefixOfConcat(prefix: string, rest: string)
    ensures StripPrefix(prefix + rest, prefix) == Some(rest)
  {
    assert (prefix + rest)[..|prefix|] == prefix;
    assert (prefix + rest)[|prefix|..] == rest;
  }

  /** The argument vector carries exactly the configured keep-alive options, port and server. */
  lemma AutosshArgsRoundTrip(options: ServerOptions, port: int, server: string)
    ensures ParseAutosshArgs(AutosshArgs(options, port, server)) == Some(TunnelRequest(options, port, server))
  {
    StripPrefixOfConcat("ServerAliveInterval ", FormatInt(options.serverAliveInterval));
    StripPrefixOfConcat("ServerAliveCountMax ", FormatInt(options.serverAliveCountMax));
    StripPrefixOfConcat("localhost:", FormatInt(port));
    ParseFormatInt(options.serverAliveInterval);
    ParseFormatInt(options.serverAliveCountMax);
    ParseFormatInt(port);
  }
}
