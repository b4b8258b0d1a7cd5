/**
  connectVPN and disconnectVPN as the command sequences they issue.

  Connect looks the server name up (first match wins), then resets (a full disconnect), spawns
  autossh with a fixed-shape argument vector, and only if that succeeds points the SOCKS proxy at
  127.0.0.1:<port>. Disconnect switches the proxy off, sends SIGTERM to every autossh, and
  unless pkill found nothing, checks again and escalates to SIGKILL; it always reports success.
 */
module TunnelSupervisor {
  import opened Wrappers
  import opened Text
  import opened ConfigStore
  import opened OsModel
  import opened AutosshCommand

  datatype VpnError = CommandNotFound(name: string) | AutosshStartFailed | SocksProxyFailed

  /** The address the SOCKS proxy is pointed at. */
  const Loopback := "127.0.0.1"

  /** The spawn command for a server under a configuration. */
  function SpawnCall(config: Config, server: string): Call {
    Spawn(config.autosshPath, TunnelRequest(config.serverOptions, config.localPort, server))
  }

  /**
    The spawn command runs the configured binary with exactly the argument vector that carries
    the configured keep-alive options and port and the chosen server: reading it back gives them.
   */
  lemma SpawnArgv(config: Config, server: string)
    ensures var argv := Argv(SpawnCall(config, server));
      |argv| == 12 && argv[0] == config.autosshPath
      && ParseAutosshArgs(argv[1..]) == Some(TunnelRequest(config.serverOptions, config.localPort, server))
  {
    var argv := Argv(SpawnCall(config, server));
    var args := AutosshArgs(config.serverOptions, config.localPort, server);
    assert argv == [config.autosshPath] + args;
    assert argv[1..] == args;
    AutosshArgsRoundTrip(config.serverOptions, config.localPort, server);
  }

  /** The position of the first server entry with the given name, if any. */
  function FirstMatch(commands: seq<Command>, name: string): (k: Option<nat>)
    ensures k.None? <==> forall j :: 0 <= j < |commands| ==> commands[j].name != name
    ensures k.Some? ==> k.value < |commands| && commands[k.value].name == name
    ensures k.Some? ==> forall j :: 0 <= j < k.value ==> commands[j].name != name
  {
    if commands == [] then None
    else if commands[0].name == name then Some(0)
    else match FirstMatch(commands[1..], name)
      case None => None
      case Some(j) => Some(j + 1)
  }

  /** The lookup loop of connectVPN: scan the entries in order and stop at the first whose name matches. */
  method LookupCommand(commands: seq<Command>, name: string) returns (target: Option<Command>)
    ensures FirstMatch(commands, name).None? ==> target == None
    ensures FirstMatch(commands, name).Some? ==> target == Some(commands[FirstMatch(commands, name).value])
  {
    var i := 0;
    while i < |commands|
      invariant 0 <= i <= |commands|
      invariant forall j :: 0 <= j < i ==> commands[j].name != name
    {
      if commands[i].name == name {
        return Some(commands[i]);
      }
      i := i + 1;
    }
    return None;
  }

  /** The commands disconnectVPN issues when run from position `t` of the OS history. */
  function DisconnectRun(respond: Oracle, t: nat, iface: string): (d: seq<Call>)
    ensures 2 <= |d| <= 4 && d[0] == SocksProxyOff(iface) && d[1] == PkillTerm
  {
    if FoundNothing(respond(t + 1, PkillTerm)) then
      [SocksProxyOff(iface), PkillTerm]
    else if Succeeded(respond(t + 2, PgrepAutossh)) then
      [SocksProxyOff(iface), PkillTerm, PgrepAutossh, PkillKill]
    else
      [SocksProxyOff(iface), PkillTerm, PgrepAutossh]
  }

  /**
    Disconnect always starts by switching the proxy off and then sends SIGTERM, whatever the
    proxy command replied: the two are independent best-effort steps.
   */
  lemma DisconnectProxyOffThenTerm(respond: Oracle, t: nat, iface: string)
    ensures var d := DisconnectRun(respond, t, iface);
      |d| >= 2 && d[0] == SocksProxyOff(iface) && d[1] == PkillTerm
      && forall k :: 2 <= k < |d| ==> !TouchesProxy(d[k])
  {
  }

  /** When pkill finds nothing to signal, disconnect stops there: no re-check and no SIGKILL. */
  lemma NothingToKillStopsEarly(respond: Oracle, t: nat, iface: string)
    ensures FoundNothing(respond(t + 1, PkillTerm)) <==>
      DisconnectRun(respond, t, iface) == [SocksProxyOff(iface), PkillTerm]
  {
  }

  /** SIGKILL is sent exactly when pkill did not report "nothing found" and autossh is still there afterwards. */
  lemma EscalatesIffStillRunning(respond: Oracle, t: nat, iface: string)
    ensures PkillKill in DisconnectRun(respond, t, iface) <==>
      !FoundNothing(respond(t + 1, PkillTerm)) && Succeeded(respond(t + 2, PgrepAutossh))
  {
  }

  /** A proxy-off command that succeeded leaves the service's proxy disabled once disconnect returns. */
  lemma DisconnectDisablesProxy(respond: Oracle, h: seq<Call>, iface: string)
    requires Succeeded(respond(|h|, SocksProxyOff(iface)))
    ensures ProxyAfter(respond, h + DisconnectRun(respond, |h|, iface), iface) == ProxyDisabled
  {
    DisconnectProxyOffThenTerm(respond, |h|, iface);
    ProxyOffThenOthers(respond, h, DisconnectRun(respond, |h|, iface), iface);
  }

  /**
    A reset that ends with any of pkill finding nothing, pgrep finding nothing, or a SIGKILL that
    went through, leaves no autossh process running.
   */
  lemma VerifiedResetLeavesNoTunnel(respond: Oracle, h: seq<Call>, iface: string)
    requires var t := |h|;
      || FoundNothing(respond(t + 1, PkillTerm))
      || FoundNothing(respond(t + 2, PgrepAutossh))
      || (Succeeded(respond(t + 2, PgrepAutossh))
          && (Succeeded(respond(t + 3, PkillKill)) || FoundNothing(respond(t + 3, PkillKill))))
    ensures CensusAfter(respond, h + DisconnectRun(respond, |h|, iface)) == Known([])
  {
    var t := |h|;
    var h1 := h + [SocksProxyOff(iface)];
    var h2 := h1 + [PkillTerm];
    CensusAfterSnoc(respond, h, SocksProxyOff(iface));
    CensusAfterSnoc(respond, h1, PkillTerm);
    if FoundNothing(respond(t + 1, PkillTerm)) {
      assert h + DisconnectRun(respond, t, iface) == h2;
    } else {
      var h3 := h2 + [PgrepAutossh];
      CensusAfterSnoc(respond, h2, PgrepAutossh);
      if Succeeded(respond(t + 2, PgrepAutossh)) {
        CensusAfterSnoc(respond, h3, PkillKill);
        assert h + DisconnectRun(respond, t, iface) == h3 + [PkillKill];
      } else {
        assert h + DisconnectRun(respond, t, iface) == h3;
      }
    }
  }

  /** The outcome of connectVPN: the commands it issued and the error it returned, if any. */
  datatype Attempt = Attempt(calls: seq<Call>, err: Option<VpnError>)

  /** The commands connectVPN issues for a known server from position `t`: reset, spawn, and the proxy if the spawn worked. */
  function LaunchRun(respond: Oracle, t: nat, config: Config, server: string): (a: Attempt)
    ensures var n := |DisconnectRun(respond, t, config.iface)|;
      && |a.calls| == n + (if a.err == Some(AutosshStartFailed) then 1 else 2)
      && a.calls[n] == SpawnCall(config, server)
      && (a.err.None? || a.err == Some(AutosshStartFailed) || a.err == Some(SocksProxyFailed))
  {
    var reset := DisconnectRun(respond, t, config.iface);
    var spawn := SpawnCall(config, server);
    var ts := t + |reset|;
    if !Succeeded(respond(ts, spawn)) then
      Attempt(reset + [spawn], Some(AutosshStartFailed))
    else
      var proxy := SetSocksProxy(config.iface, Loopback, config.localPort);
      Attempt(reset + [spawn, proxy], if Succeeded(respond(ts + 1, proxy)) then None else Some(SocksProxyFailed))
  }

  /** The commands connectVPN issues when run from position `t` of the OS history, and its result. */
  function ConnectRun(respond: Oracle, t: nat, config: Config, name: string): (a: Attempt)
    ensures a.calls == [] <==> FirstMatch(config.commands, name).None?
    ensures a.err == Some(CommandNotFound(name)) <==> FirstMatch(config.commands, name).None?
  {
    match FirstMatch(config.commands, name)
    case None => Attempt([], Some(CommandNotFound(name)))
    case Some(k) => LaunchRun(respond, t, config, config.commands[k].server)
  }

  /** Once autossh has started, the proxy command follows it, whatever it replies. */
  lemma LaunchSpawned(respond: Oracle, t: nat, config: Config, server: string)
    requires Succeeded(respond(t + |DisconnectRun(respond, t, config.iface)|, SpawnCall(config, server)))
    ensures LaunchRun(respond, t, config, server).calls
      == DisconnectRun(respond, t, config.iface) + [SpawnCall(config, server), SetSocksProxy(config.iface, Loopback, config.localPort)]
  {
  }

  /** An unknown name is reported before anything is run; a known name always runs something. */
  lemma UnknownNameHasNoEffect(respond: Oracle, t: nat, config: Config, name: string)
    ensures (forall j :: 0 <= j < |config.commands| ==> config.commands[j].name != name)
      <==> ConnectRun(respond, t, config, name).calls == []
    ensures ConnectRun(respond, t, config, name).calls == [] ==>
      ConnectRun(respond, t, config, name).err == Some(CommandNotFound(name))
  {
  }

  /**
    A known name resets first and then spawns autossh for the FIRST entry with that name, even
    when later entries share it.
   */
  lemma ResetThenSpawnFirstMatch(respond: Oracle, t: nat, config: Config, name: string, i: nat)
    requires i < |config.commands| && config.commands[i].name == name
    requires forall j :: 0 <= j < i ==> config.commands[j].name != name
    ensures var a := ConnectRun(respond, t, config, name);
      var d := DisconnectRun(respond, t, config.iface);
      |a.calls| > |d| && a.calls[..|d|] == d && a.calls[|d|] == SpawnCall(config, config.commands[i].server)
  {
    var d := DisconnectRun(respond, t, config.iface);
    var a := ConnectRun(respond, t, config, name);
    assert FirstMatch(config.commands, name) == Some(i);
    assert a.calls[..|d|] == d;
  }

  /** A failed spawn is reported and ends connect: the proxy is never pointed at the tunnel. */
  lemma FailedSpawnLeavesProxyAlone(respond: Oracle, t: nat, config: Config, name: string)
    requires FirstMatch(config.commands, name).Some?
    requires var server := config.commands[FirstMatch(config.commands, name).value].server;
      !Succeeded(respond(t + |DisconnectRun(respond, t, config.iface)|, SpawnCall(config, server)))
    ensures var a := ConnectRun(respond, t, config, name);
      a.err == Some(AutosshStartFailed) && a.calls[|a.calls| - 1].Spawn?
      && forall k :: 0 <= k < |a.calls| ==> !a.calls[k].SetSocksProxy?
  {
    var d := DisconnectRun(respond, t, config.iface);
    var spawn := SpawnCall(config, config.commands[FirstMatch(config.commands, name).value].server);
    DisconnectProxyOffThenTerm(respond, t, config.iface);
    assert ConnectRun(respond, t, config, name) == Attempt(d + [spawn], Some(AutosshStartFailed));
  }

  /** A failed proxy command is reported, but the tunnel spawned just before is left running. */
  lemma FailedProxyKeepsTunnel(respond: Oracle, t: nat, config: Config, name: string)
    requires FirstMatch(config.commands, name).Some?
    requires var server := config.commands[FirstMatch(config.commands, name).value].server;
      var ts := t + |DisconnectRun(respond, t, config.iface)|;
      Succeeded(respond(ts, SpawnCall(config, server)))
      && !Succeeded(respond(ts + 1, SetSocksProxy(config.iface, Loopback, config.localPort)))
    ensures var a := ConnectRun(respond, t, config, name);
      var n := |DisconnectRun(respond, t, config.iface)|;
      a.err == Some(SocksProxyFailed) && |a.calls| == n + 2
      && a.calls[n].Spawn? && a.calls[n + 1] == SetSocksProxy(config.iface, Loopback, config.localPort)
  {
  }

  /** Connect succeeds exactly when the name is known, autossh starts and the proxy is set. */
  lemma ConnectSucceedsIff(respond: Oracle, t: nat, config: Config, name: string)
    ensures ConnectRun(respond, t, config, name).err == None <==>
      FirstMatch(config.commands, name).Some?
      && var server := config.commands[FirstMatch(config.commands, name).value].server;
         var ts := t + |DisconnectRun(respond, t, config.iface)|;
         Succeeded(respond(ts, SpawnCall(config, server)))
         && Succeeded(respond(ts + 1, SetSocksProxy(config.iface, Loopback, config.localPort)))
  {
  }

  /** After a successful connect the service's SOCKS proxy points at 127.0.0.1 on the configured port. */
  lemma ConnectEnablesProxy(respond: Oracle, h: seq<Call>, config: Config, name: string)
    requires ConnectRun(respond, |h|, config, name).err == None
    ensures ProxyAfter(respond, h + ConnectRun(respond, |h|, config, name).calls, config.iface)
      == ProxyEnabled(Loopback, config.localPort)
  {
    var a := ConnectRun(respond, |h|, config, name);
    LastProxyCommandWins(respond, h, a.calls, config.iface, Loopback, config.localPort);
  }

  /** A successful spawn into an empty census, followed by the proxy command, leaves exactly that one tunnel. */
  lemma SpawnIntoEmptyCensus(respond: Oracle, hd: seq<Call>, spawn: Call, proxy: Call)
    requires spawn.Spawn? && proxy.SetSocksProxy?
    requires CensusAfter(respond, hd) == Known([]) && Succeeded(respond(|hd|, spawn))
    ensures CensusAfter(respond, hd + [spawn, proxy]) == Known([spawn])
  {
    CensusAfterSnoc(respond, hd, spawn);
    assert hd + [spawn, proxy] == (hd + [spawn]) + [proxy];
    OthersKeepCensus(respond, hd + [spawn], [proxy]);
  }

  /**
    Reset-then-set: when the reset step leaves no autossh running and the spawn succeeds, exactly
    one tunnel runs afterwards, for the first entry with the requested name, whether or not the
    proxy could be set.
   */
  lemma ConnectLeavesOneTunnel(respond: Oracle, h: seq<Call>, config: Config, name: string, k: nat)
    requires FirstMatch(config.commands, name) == Some(k)
    requires CensusAfter(respond, h + DisconnectRun(respond, |h|, config.iface)) == Known([])
    requires Succeeded(respond(|h + DisconnectRun(respond, |h|, config.iface)|, SpawnCall(config, config.commands[k].server)))
    ensures CensusAfter(respond, h + ConnectRun(respond, |h|, config, name).calls)
      == Known([SpawnCall(config, config.commands[k].server)])
  {
    var server := config.commands[k].server;
    var d := DisconnectRun(respond, |h|, config.iface);
    var hd := h + d;
    var spawn := SpawnCall(config, server);
    var proxy := SetSocksProxy(config.iface, Loopback, config.localPort);
    var calls := ConnectRun(respond, |h|, config, name).calls;
    assert |hd| == |h| + |d|;
    LaunchSpawned(respond, |h|, config, server);
    SpawnIntoEmptyCensus(respond, hd, spawn, proxy);
    assert h + calls == hd + [spawn, proxy];
  }

  /** Two servers, "a" and "b", under the default settings. */
  const TwoServers := Config(DefaultAutosshPath, DefaultLocalPort, DefaultInterface,
    ServerOptions(DefaultAliveInterval, DefaultAliveCountMax),
    [Command("a", "Server A", "host-a"), Command("b", "Server B", "host-b")])

  /**
    An OS on which the first pkill finds nothing, every later pkill fails with status 2, pgrep
    cannot be started, and every other command succeeds.
   */
  function StubbornKill(n: nat, c: Call): Reply {
    match c
    case PkillTerm => if n == 1 then Exited(1, "") else Exited(2, "")
    case PgrepAutossh => StartFailed
    case _ => Exited(0, "")
  }

  /** The first connect, to "a": pkill finds nothing, so the reset stops there; then spawn and proxy. */
  lemma FirstOfTwoConnects()
    ensures var a := ConnectRun(StubbornKill, 0, TwoServers, "a");
      a.err == None && a.calls
        == [SocksProxyOff(DefaultInterface), PkillTerm, SpawnCall(TwoServers, "host-a"), SetSocksProxy(DefaultInterface, Loopback, DefaultLocalPort)]
  {
    assert FirstMatch(TwoServers.commands, "a") == Some(0);
  }

  /** The second connect, to "b": pkill fails, the re-check cannot start, so no SIGKILL; then spawn and proxy. */
  lemma SecondOfTwoConnects()
    ensures var a := ConnectRun(StubbornKill, 4, TwoServers, "b");
      a.err == None && a.calls
        == [SocksProxyOff(DefaultInterface), PkillTerm, PgrepAutossh, SpawnCall(TwoServers, "host-b"), SetSocksProxy(DefaultInterface, Loopback, DefaultLocalPort)]
  {
    assert FirstMatch(TwoServers.commands[1..], "b") == Some(0);
    assert FirstMatch(TwoServers.commands, "b") == Some(1);
  }

  /** The census along the first connect's commands: after it exactly the first tunnel runs. */
  lemma CensusAfterFirstConnect(h4: seq<Call>)
    requires h4 == [SocksProxyOff(DefaultInterface), PkillTerm, SpawnCall(TwoServers, "host-a"), SetSocksProxy(DefaultInterface, Loopback, DefaultLocalPort)]
    ensures CensusAfter(StubbornKill, h4) == Known([SpawnCall(TwoServers, "host-a")])
  {
    var h1 := h4[..1];
    var h2 := h4[..2];
    var h3 := h4[..3];
    assert h2 == h1 + [h4[1]] && h3 == h2 + [h4[2]] && h4 == h3 + [h4[3]];
    CensusAfterSnoc(StubbornKill, h1, h4[1]);
    CensusAfterSnoc(StubbornKill, h2, h4[2]);
    CensusAfterSnoc(StubbornKill, h3, h4[3]);
  }

  /** The census along the second connect's commands: the first tunnel survives and the second joins it. */
  lemma CensusAfterSecondConnect(h4: seq<Call>, d: seq<Call>)
    requires CensusAfter(StubbornKill, h4) == Known([SpawnCall(TwoServers, "host-a")]) && |h4| == 4
    requires d == [SocksProxyOff(DefaultInterface), PkillTerm, PgrepAutossh, SpawnCall(TwoServers, "host-b"), SetSocksProxy(DefaultInterface, Loopback, DefaultLocalPort)]
    ensures CensusAfter(StubbornKill, h4 + d) == Known([SpawnCall(TwoServers, "host-a"), SpawnCall(TwoServers, "host-b")])
  {
    var h5 := h4 + d[..1];
    var h6 := h4 + d[..2];
    var h7 := h4 + d[..3];
    var h8 := h4 + d[..4];
    assert h6 == h5 + [d[1]] && h7 == h6 + [d[2]] && h8 == h7 + [d[3]] && h4 + d == h8 + [d[4]];
    CensusAfterSnoc(StubbornKill, h4, d[0]);
    CensusAfterSnoc(StubbornKill, h5, d[1]);
    CensusAfterSnoc(StubbornKill, h6, d[2]);
    CensusAfterSnoc(StubbornKill, h7, d[3]);
    CensusAfterSnoc(StubbornKill, h8, d[4]);
    assert |h5| == 5 && |h6| == 6;
    assert [SpawnCall(TwoServers, "host-a")] + [d[3]] == [SpawnCall(TwoServers, "host-a"), SpawnCall(TwoServers, "host-b")];
  }

  /**
    Reset-then-set does not guarantee one tunnel: when the second connect's SIGTERM fails and
    the re-check cannot run, no SIGKILL is sent and both spawned tunnels keep running.
   */
  lemma TwoConnectsCanLeaveTwoTunnels()
    ensures var first := ConnectRun(StubbornKill, 0, TwoServers, "a");
      var second := ConnectRun(StubbornKill, |first.calls|, TwoServers, "b");
      && first.err == None && second.err == None
      && CensusAfter(StubbornKill, first.calls + second.calls)
        == Known([SpawnCall(TwoServers, "host-a"), SpawnCall(TwoServers, "host-b")])
  {
    var first := ConnectRun(StubbornKill, 0, TwoServers, "a");
    FirstOfTwoConnects();
    SecondOfTwoConnects();
    CensusAfterFirstConnect(first.calls);
    CensusAfterSecondConnect(first.calls, ConnectRun(StubbornKill, 4, TwoServers, "b").calls);
  }

  /** With the fallback configuration (no servers) every connect request fails before running anything. */
  lemma FallbackConfigCannotConnect(respond: Oracle, t: nat, name: string)
    ensures ConnectRun(respond, t, FallbackConfig, name) == Attempt([], Some(CommandNotFound(name)))
  {
  }

  /** pgrep -f "autossh.*-D.*localhost": "autossh", then "-D", then "localhost", in that order. */
  predicate MatchesForwardPattern(s: string) {
    exists i, j, k :: 0 <= i <= |s| && 0 <= j <= |s| && 0 <= k <= |s|
      && OccursAt(s, "autossh", i) && i + 7 <= j && OccursAt(s, "-D", j) && j + 2 <= k && OccursAt(s, "localhost", k)
  }

  /** A line made of a part holding "autossh", then " -D ", then text starting with "localhost" matches the pattern. */
  lemma PatternInLine(head: string, tail: string)
    requires Contains(head, "autossh")
    requires |tail| >= 9 && tail[..9] == "localhost"
    ensures MatchesForwardPattern(head + " -D " + tail)
  {
    var line := head + " -D " + tail;
    var i :| 0 <= i <= |head| - 7 && OccursAt(head, "autossh", i);
    var j := |head| + 1;
    var k := |head| + 4;
    assert line[i..i + 7] == head[i..i + 7];
    assert line[j..j + 2] == "-D";
    assert line[k..k + 9] == tail[..9];
    assert OccursAt(line, "autossh", i) && OccursAt(line, "-D", j) && OccursAt(line, "localhost", k);
  }

  /** Joining twelve words whose ninth is "-D" puts the first eight, " -D " and the last two in a row. */
  lemma JoinAroundForward(parts: seq<string>)
    requires |parts| == 12 && parts[8] == "-D"
    ensures Join(parts, " ") == Join(parts[..8], " ") + " -D " + Join(parts[9..], " ")
  {
    JoinAt(parts, " ", 8);
    var rest := parts[8..];
    assert rest[1..] == parts[9..];
    assert Join(rest, " ") == "-D" + " " + Join(parts[9..], " ");
  }

  /**
    The first probe check finds the tunnel connect spawns: when the configured binary's path
    contains "autossh", the spawned command line (arguments joined by spaces, as pgrep -f sees
    it) matches the probe's pattern.
   */
  lemma SpawnedTunnelMatchesProbe(config: Config, server: string)
    requires Contains(config.autosshPath, "autossh")
    ensures MatchesForwardPattern(Join(Argv(SpawnCall(config, server)), " "))
  {
    var argv := Argv(SpawnCall(config, server));
    var forward := "localhost:" + FormatInt(config.localPort);
    var args := AutosshArgs(config.serverOptions, config.localPort, server);
    assert argv == [config.autosshPath] + args;
    assert |args| == 11;
    assert args[7] == "-D";
    assert args[8] == forward;
    JoinAroundForward(argv);
    var head := Join(argv[..8], " ");
    var tail := Join(argv[9..], " ");
    JoinStartsWith(argv[..8], " ");
    JoinStartsWith(argv[9..], " ");
    var i :| 0 <= i <= |config.autosshPath| - 7 && OccursAt(config.autosshPath, "autossh", i);
    assert head[i..i + 7] == config.autosshPath[i..i + 7];
    assert OccursAt(head, "autossh", i);
    assert tail[..9] == forward[..9];
    PatternInLine(head, tail);
  }
}
