/**
  The operating system as the controller sees it: it issues external commands (pgrep, pkill,
  lsof, networksetup, autossh) and reads back an exit status and standard output. The OS is an
  object that records every command issued, in order, and answers the n-th command according to
  an arbitrary response function, so every way a command can END is covered. Every command is
  assumed to end: a command that never returns is outside the model.

  The OS state the controller cares about, the SOCKS proxy setting of a network service and the
  set of running autossh processes, is read off the history of commands and replies:
  ProxyAfter and CensusAfter.
 */
module OsModel {
  import opened Text
  import opened AutosshCommand

  /** pgrep -f "autossh.*-D.*localhost": matches full command lines. */
  const ForwardPattern := "autossh.*-D.*localhost"

  /** The external commands the controller runs. */
  datatype Call =
    | PgrepForward                                          // pgrep -f <ForwardPattern>
    | PgrepAutossh                                          // pgrep autossh
    | Lsof(port: int)                                       // lsof -nP -iTCP:<port> -sTCP:LISTEN
    | Spawn(path: string, request: TunnelRequest)           // <autossh_path> <AutosshArgs of request>
    | SetSocksProxy(iface: string, host: string, port: int) // networksetup -setsocksfirewallproxy
    | SocksProxyOff(iface: string)                          // networksetup -setsocksfirewallproxystate <iface> off
    | PkillTerm                                             // pkill autossh
    | PkillKill                                             // pkill -9 autossh

  /**
    The argument vector of each command: queries run pgrep or lsof, the proxy commands run
    networksetup on their own service, and the others run pkill or the spawned binary.
   */
  function Argv(c: Call): (argv: seq<string>)
    ensures |argv| >= 2
    ensures IsQuery(c) ==> argv[0] == "pgrep" || argv[0] == "lsof"
    ensures TouchesProxy(c) ==> |argv| >= 4 && argv[0] == "networksetup" && argv[2] == c.iface
    ensures c.Spawn? ==> argv[0] == c.path
  {
    match c
    case PgrepForward => ["pgrep", "-f", ForwardPattern]
    case PgrepAutossh => ["pgrep", "autossh"]
    case Lsof(port) => ["lsof", "-nP", "-iTCP:" + FormatInt(port), "-sTCP:LISTEN"]
    case Spawn(path, request) => [path] + AutosshArgs(request.options, request.port, request.server)
    case SetSocksProxy(iface, host, port) => ["networksetup", "-setsocksfirewallproxy", iface, host, FormatInt(port)]
    case SocksProxyOff(iface) => ["networksetup", "-setsocksfirewallproxystate", iface, "off"]
    case PkillTerm => ["pkill", "autossh"]
    case PkillKill => ["pkill", "-9", "autossh"]
  }

  /** Commands that only inspect the process and socket tables. */
  predicate IsQuery(c: Call) {
    c.PgrepForward? || c.PgrepAutossh? || c.Lsof?
  }

  /** Commands that change the proxy setting of a network service. */
  predicate TouchesProxy(c: Call) {
    c.SetSocksProxy? || c.SocksProxyOff?
  }

  /**
    How a command ended: it exited with a status (the wait status's exit status, -1 when a
    signal ended it) and printed `stdout`, or it could not be started at all.
   */
  datatype Reply = Exited(code: int, stdout: string) | StartFailed

  /** Go's `cmd.Run() == nil`: the command started and exited with status 0. */
  predicate Succeeded(r: Reply) {
    r.Exited? && r.code == 0
  }

  /** Exit status 1 of pgrep and pkill: no process matched. */
  predicate FoundNothing(r: Reply) {
    r.Exited? && r.code == 1
  }

  /** `cmd.Output()` returned no error and output that is not all white space. */
  predicate PrintedSomething(r: Reply) {
    Succeeded(r) && TrimSpace(r.stdout) != []
  }

  /** The OS's answer to the command issued at a given position of the history. */
  type Oracle = (nat, Call) -> Reply

  class Os {
    const respond: Oracle
    var history: seq<Call>

    constructor (respond: Oracle)
      ensures this.respond == respond && history == []
    {
      this.respond := respond;
      history := [];
    }

    /** Runs one command, to completion, and reports how it ended. */
    method Run(c: Call) returns (r: Reply)
      modifies this
      ensures history == old(history) + [c]
      ensures r == respond(|old(history)|, c)
    {
      r := respond(|history|, c);
      history := history + [c];
    }
  }

  /** The SOCKS proxy of one network service: never set so far, switched off, or pointing at a host and port. */
  datatype ProxySetting = ProxyUnknown | ProxyDisabled | ProxyEnabled(host: string, port: int)

  /** A networksetup command that succeeded sets the proxy of its service; nothing else changes it. */
  function ProxyStep(prior: ProxySetting, iface: string, c: Call, r: Reply): ProxySetting {
    if !Succeeded(r) then prior
    else match c
      case SetSocksProxy(f, host, port) => if f == iface then ProxyEnabled(host, port) else prior
      case SocksProxyOff(f) => if f == iface then ProxyDisabled else prior
      case _ => prior
  }

  /** The proxy setting of `iface` after the first `n` commands of `h`, each answered by `respond`. */
  function ProxyAt(respond: Oracle, h: seq<Call>, n: nat, iface: string): ProxySetting
    requires n <= |h|
    decreases n
  {
    if n == 0 then ProxyUnknown
    else ProxyStep(ProxyAt(respond, h, n - 1, iface), iface, h[n - 1], respond(n - 1, h[n - 1]))
  }

  /** The proxy setting of `iface` after the commands of `h`. */
  function ProxyAfter(respond: Oracle, h: seq<Call>, iface: string): ProxySetting {
    ProxyAt(respond, h, |h|, iface)
  }

  /** The setting after `n` commands depends on those commands only. */
  lemma {:induction false} ProxyAtPrefix(respond: Oracle, h: seq<Call>, g: seq<Call>, n: nat, iface: string)
    requires n <= |h| && n <= |g|
    requires forall k :: 0 <= k < n ==> h[k] == g[k]
    ensures ProxyAt(respond, h, n, iface) == ProxyAt(respond, g, n, iface)
  {
    if n > 0 {
      ProxyAtPrefix(respond, h, g, n - 1, iface);
    }
  }

  lemma ProxyAfterSnoc(respond: Oracle, h: seq<Call>, c: Call, iface: string)
    ensures ProxyAfter(respond, h + [c], iface) == ProxyStep(ProxyAfter(respond, h, iface), iface, c, respond(|h|, c))
  {
    ProxyAtPrefix(respond, h + [c], h, |h|, iface);
  }

  /** Commands that do not touch the proxy leave its setting as it was, whatever they reply. */
  lemma {:induction false} OthersKeepProxy(respond: Oracle, h: seq<Call>, cs: seq<Call>, iface: string)
    requires forall k :: 0 <= k < |cs| ==> !TouchesProxy(cs[k])
    ensures ProxyAfter(respond, h + cs, iface) == ProxyAfter(respond, h, iface)
  {
    if cs == [] {
      assert h + cs == h;
    } else {
      var init := cs[..|cs| - 1];
      OthersKeepProxy(respond, h, init, iface);
      assert h + cs == (h + init) + [cs[|cs| - 1]];
      ProxyAfterSnoc(respond, h + init, cs[|cs| - 1], iface);
    }
  }

  /** After a successful proxy-off followed by commands that leave the proxy alone, the proxy is disabled. */
  lemma ProxyOffThenOthers(respond: Oracle, h: seq<Call>, cs: seq<Call>, iface: string)
    requires cs != [] && cs[0] == SocksProxyOff(iface) && Succeeded(respond(|h|, cs[0]))
    requires forall k :: 1 <= k < |cs| ==> !TouchesProxy(cs[k])
    ensures ProxyAfter(respond, h + cs, iface) == ProxyDisabled
  {
    ProxyAfterSnoc(respond, h, cs[0], iface);
    assert h + cs == (h + [cs[0]]) + cs[1..];
    OthersKeepProxy(respond, h + [cs[0]], cs[1..], iface);
  }

  /** A run ending in a successful command that points the proxy of `iface` somewhere leaves it pointing there. */
  lemma LastProxyCommandWins(respond: Oracle, h: seq<Call>, cs: seq<Call>, iface: string, host: string, port: int)
    requires cs != [] && cs[|cs| - 1] == SetSocksProxy(iface, host, port)
    requires Succeeded(respond(|h| + |cs| - 1, cs[|cs| - 1]))
    ensures ProxyAfter(respond, h + cs, iface) == ProxyEnabled(host, port)
  {
    var c := cs[|cs| - 1];
    var prefix := h + cs[..|cs| - 1];
    assert h + cs == prefix + [c];
    ProxyAfterSnoc(respond, prefix, c, iface);
    assert ProxyStep(ProxyAfter(respond, prefix, iface), iface, c, respond(|prefix|, c)) == ProxyEnabled(host, port);
  }

  /**
    What the replies reveal about the running autossh processes (those `pkill autossh` and
    `pgrep autossh` match): nothing definite, or exactly the processes started by the spawn commands in `tunnels`.
    A tunnel the controller spawns is assumed to run under a process name that matches "autossh".
   */
  datatype Census = Unknown | Known(tunnels: seq<Call>)

  function CensusStep(prior: Census, c: Call, r: Reply): Census {
    match c
    case Spawn(_, _) =>
      if !Succeeded(r) then prior
      else if prior.Known? then Known(prior.tunnels + [c])
      else Unknown
    case PkillTerm =>
      if FoundNothing(r) then Known([])     // nothing was there to signal
      else if Succeeded(r) then Unknown     // signalled; a process may outlive SIGTERM
      else prior
    case PkillKill =>
      if Succeeded(r) || FoundNothing(r) then Known([]) else prior
    case PgrepAutossh =>
      if FoundNothing(r) then Known([])
      else if Succeeded(r) && prior == Known([]) then Unknown
      else prior
    case _ => prior
  }

  /** The census after the first `n` commands of `h`, each answered by `respond`. */
  function CensusAt(respond: Oracle, h: seq<Call>, n: nat): Census
    requires n <= |h|
    decreases n
  {
    if n == 0 then Unknown
    else CensusStep(CensusAt(respond, h, n - 1), h[n - 1], respond(n - 1, h[n - 1]))
  }

  /** The census after the commands of `h`. */
  function CensusAfter(respond: Oracle, h: seq<Call>): Census {
    CensusAt(respond, h, |h|)
  }

  /** The census after `n` commands depends on those commands only. */
  lemma {:induction false} CensusAtPrefix(respond: Oracle, h: seq<Call>, g: seq<Call>, n: nat)
    requires n <= |h| && n <= |g|
    requires forall k :: 0 <= k < n ==> h[k] == g[k]
    ensures CensusAt(respond, h, n) == CensusAt(respond, g, n)
  {
    if n > 0 {
      CensusAtPrefix(respond, h, g, n - 1);
    }
  }

  lemma CensusAfterSnoc(respond: Oracle, h: seq<Call>, c: Call)
    ensures CensusAfter(respond, h + [c]) == CensusStep(CensusAfter(respond, h), c, respond(|h|, c))
  {
    CensusAtPrefix(respond, h + [c], h, |h|);
  }

  /** Commands that neither start, signal nor look for autossh processes. */
  predicate LeavesProcesses(c: Call) {
    c.Lsof? || c.SetSocksProxy? || c.SocksProxyOff? || c.PgrepForward?
  }

  /** Such commands leave the census as it was, whatever they reply. */
  lemma {:induction false} OthersKeepCensus(respond: Oracle, h: seq<Call>, cs: seq<Call>)
    requires forall k :: 0 <= k < |cs| ==> LeavesProcesses(cs[k])
    ensures CensusAfter(respond, h + cs) == CensusAfter(respond, h)
  {
    if cs == [] {
      assert h + cs == h;
    } else {
      var init := cs[..|cs| - 1];
      OthersKeepCensus(respond, h, init);
      assert h + cs == (h + init) + [cs[|cs| - 1]];
      CensusAfterSnoc(respond, h + init, cs[|cs| - 1]);
    }
  }
}
