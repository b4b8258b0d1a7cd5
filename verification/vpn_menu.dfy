/**
  The menu-bar application (VPNApp): it holds the configuration, the menu it built from it, the
  disconnect item and what the menu bar shows, and it drives the OS through the probe, connect
  and disconnect procedures. Clicks, the start-up sequence, the wait after a disconnect, the
  configuration reload and the file monitor are its operations.
 */
module VpnMenu {
  import opened Wrappers
  import opened ConfigStore
  import opened OsModel
  import opened ConnectionProbe
  import opened TunnelSupervisor
  import opened AutosshCommand

  /** The wait after a disconnect probes at most this many times (every 250 ms, about five seconds). */
  const SettleProbes := 20

  /** The file monitor polls every 2 s and gives up after 5 minutes: at most this many polls. */
  const MonitorTicks := 150

  const TooltipStartup := "SOCKS VPN Menu"
  const TooltipConnected := "SOCKS VPN Menu - Connected"
  const TooltipDisconnected := "SOCKS VPN Menu - Disconnected"
  /** Globe showing the Americas. */
  const TitleConnected := "\U{1F30E}"
  /** Globe with meridians. */
  const TitleDisconnected := "\U{1F310}"

  /** The disconnect item: not created yet, or created and enabled or greyed out. */
  datatype MenuItem = NoItem | Item(enabled: bool)

  /** The image shown in the menu bar: none yet, or the bundled connected or disconnected picture. */
  datatype Picture = NoPicture | ConnectedPicture | DisconnectedPicture

  /** What the menu bar shows: a title next to the picture, and a tooltip. */
  datatype Display = Display(title: string, tooltip: string, picture: Picture)

  /** The menu bar tells the given connection state: by its tooltip, and by the picture when the title is cleared, otherwise by the title. */
  predicate Shows(d: Display, connected: bool) {
    && d.tooltip == (if connected then TooltipConnected else TooltipDisconnected)
    && if d.title == "" then d.picture == (if connected then ConnectedPicture else DisconnectedPicture)
       else d.title == (if connected then TitleConnected else TitleDisconnected)
  }

  /**
    updateIcon's presentation: when the bundled picture for the state could be read it is shown
    and the title cleared; otherwise the emoji title is shown and the picture left as it was.
   */
  function Render(prior: Display, connected: bool, iconLoaded: bool): (d: Display)
    ensures Shows(d, connected) && !Shows(d, !connected)
    ensures d.title == "" <==> iconLoaded
    ensures !iconLoaded ==> d.picture == prior.picture
  {
    var tooltip := if connected then TooltipConnected else TooltipDisconnected;
    if iconLoaded then Display("", tooltip, if connected then ConnectedPicture else DisconnectedPicture)
    else Display(if connected then TitleConnected else TitleDisconnected, tooltip, prior.picture)
  }

  /** The menu item buildMenu adds for a server entry: its caption, its hint, and the name a click connects to. */
  datatype MenuEntry = MenuEntry(caption: string, hint: string, name: string)

  function EntryFor(c: Command): (e: MenuEntry)
    ensures e.caption == c.description && e.name == c.name
    ensures StripPrefix(e.hint, "Connect to ") == Some(c.server)
  {
    StripPrefixOfConcat("Connect to ", c.server);
    MenuEntry(c.description, "Connect to " + c.server, c.name)
  }

  /**
    A click on the k-th server item connects by that item's NAME, so it reaches the first entry
    with that name: the k-th entry itself exactly when no earlier entry shares its name.
   */
  lemma ClickedEntryTarget(commands: seq<Command>, k: nat)
    requires k < |commands|
    ensures var m := FirstMatch(commands, EntryFor(commands[k]).name);
      m.Some? && m.value <= k
      && (m.value == k <==> forall j :: 0 <= j < k ==> commands[j].name != commands[k].name)
  {
  }

  /** The result of the wait after a disconnect: the queries issued and each probe's verdict, in order. */
  datatype Settling = Settling(calls: seq<Call>, verdicts: seq<bool>)

  /** The wait from position `t` of the OS history with `budget` probes left: probe until one says "not connected". */
  function Settle(respond: Oracle, t: nat, port: int, budget: nat): (s: Settling)
    decreases budget
    ensures |s.verdicts| <= budget
    ensures budget > 0 ==> |s.verdicts| >= 1
    ensures forall k :: 0 <= k < |s.verdicts| - 1 ==> s.verdicts[k]
    ensures 0 < |s.verdicts| < budget ==> !s.verdicts[|s.verdicts| - 1]
  {
    if budget == 0 then Settling([], [])
    else
      var o := Observe(respond, t, port);
      if !o.evidence.Connected() then Settling(o.calls, [false])
      else
        var rest := Settle(respond, t + |o.calls|, port, budget - 1);
        Settling(o.calls + rest.calls, [true] + rest.verdicts)
  }

  /** Regrouping a history; stated on its own so that the loop and click proofs stay small. */
  lemma Associative(a: seq<Call>, b: seq<Call>, c: seq<Call>)
    ensures (a + b) + c == a + (b + c)
  {
  }

  lemma AppendThree(h: seq<Call>, a: seq<Call>, b: seq<Call>, c: seq<Call>)
    ensures h + (a + b + c) == ((h + a) + b) + c
  {
  }

  /** The wait only queries, at most three commands per probe. */
  lemma {:induction false} SettleOnlyQueries(respond: Oracle, t: nat, port: int, budget: nat)
    decreases budget
    ensures var s := Settle(respond, t, port, budget);
      && (forall k :: 0 <= k < |s.calls| ==> IsQuery(s.calls[k]))
      && |s.calls| <= 3 * |s.verdicts|
  {
    if budget > 0 {
      var o := Observe(respond, t, port);
      if o.evidence.Connected() {
        var t', budget' := t + |o.calls|, budget - 1;
        SettleContinues(respond, port, t, budget, t', budget');
        SettleOnlyQueries(respond, t', port, budget');
      }
    }
  }

  /** The wait's first probe: it ends the wait when it says "not connected", and otherwise the rest of the budget follows. */
  lemma SettleUnfold(respond: Oracle, t: nat, port: int, left: nat)
    requires left > 0
    ensures var o := Observe(respond, t, port);
      Settle(respond, t, port, left).calls ==
        if o.evidence.Connected() then o.calls + Settle(respond, t + |o.calls|, port, left - 1).calls else o.calls
  {
  }

  /** A probe of the wait that says "connected" is followed by the rest of the wait, one probe shorter, from just after it. */
  lemma SettleContinues(respond: Oracle, port: int, t: nat, left: nat, t': nat, left': nat)
    requires left > 0 && left' == left - 1
    requires t' == t + |Observe(respond, t, port).calls|
    requires Observe(respond, t, port).evidence.Connected()
    ensures var rest := Settle(respond, t', port, left');
      Settle(respond, t, port, left) == Settling(Observe(respond, t, port).calls + rest.calls, [true] + rest.verdicts)
  {
  }

  /**
    One probe of the wait, as the loop that runs it sees it: the probes `done` so far, the probe
    at `t` saying "connected", and the wait resumed at `t'` with `left'` probes still allowed.
   */
  lemma SettleStep(respond: Oracle, t0: nat, port: int, budget: nat, done: seq<Call>, t: nat, left: nat, t': nat, left': nat)
    requires left > 0 && left' == left - 1
    requires t' == t + |Observe(respond, t, port).calls|
    requires Observe(respond, t, port).evidence.Connected()
    requires Settle(respond, t0, port, budget).calls == done + Settle(respond, t, port, left).calls
    ensures Settle(respond, t0, port, budget).calls == (done + Observe(respond, t, port).calls) + Settle(respond, t', port, left').calls
  {
    var o := Observe(respond, t, port);
    SettleContinues(respond, port, t, left, t', left');
    var rest := Settle(respond, t', port, left');
    assert done + (o.calls + rest.calls) == (done + o.calls) + rest.calls;
  }

  /** A probe of the wait that says "not connected" ends it. */
  lemma SettleLast(respond: Oracle, t0: nat, port: int, budget: nat, done: seq<Call>, t: nat, left: nat)
    requires left > 0 && !Observe(respond, t, port).evidence.Connected()
    requires Settle(respond, t0, port, budget).calls == done + Settle(respond, t, port, left).calls
    ensures Settle(respond, t0, port, budget).calls == done + Observe(respond, t, port).calls
  {
    SettleUnfold(respond, t, port, left);
  }

  /** The wait only queries: the proxy setting stays as the disconnect left it. */
  lemma SettleKeepsProxy(respond: Oracle, h: seq<Call>, port: int, budget: nat, iface: string)
    ensures ProxyAfter(respond, h + Settle(respond, |h|, port, budget).calls, iface) == ProxyAfter(respond, h, iface)
  {
    SettleOnlyQueries(respond, |h|, port, budget);
    OthersKeepProxy(respond, h, Settle(respond, |h|, port, budget).calls, iface);
  }

  /** A click on "Disconnect": the disconnect commands, the wait, and the probe that refreshes the menu. */
  datatype DisconnectClick = DisconnectClick(reset: seq<Call>, wait: Settling, probe: Observation) {
    function Calls(): seq<Call> {
      reset + wait.calls + probe.calls
    }
  }

  /** The click as issued after the commands `h`: it always begins by switching the proxy off. */
  function DisconnectClickRun(respond: Oracle, h: seq<Call>, config: Config): (c: DisconnectClick)
    ensures |c.Calls()| >= 3
    ensures c.Calls()[0] == SocksProxyOff(config.iface)
  {
    var d := DisconnectRun(respond, |h|, config.iface);
    var s := Settle(respond, |h + d|, config.localPort, SettleProbes);
    DisconnectClick(d, s, Observe(respond, |h + d + s.calls|, config.localPort))
  }

  /** A disconnect click whose proxy-off command succeeded leaves the proxy disabled, however long the wait. */
  lemma DisconnectClickDisablesProxy(respond: Oracle, h: seq<Call>, config: Config)
    requires Succeeded(respond(|h|, SocksProxyOff(config.iface)))
    ensures ProxyAfter(respond, h + DisconnectClickRun(respond, h, config).Calls(), config.iface) == ProxyDisabled
  {
    var c := DisconnectClickRun(respond, h, config);
    var h1 := h + c.reset;
    var h2 := h1 + c.wait.calls;
    DisconnectDisablesProxy(respond, h, config.iface);
    SettleKeepsProxy(respond, h1, config.localPort, SettleProbes, config.iface);
    ProbeKeepsProxy(respond, h2, config.localPort, config.iface);
    AppendThree(h, c.reset, c.wait.calls, c.probe.calls);
  }

  /** The position of the first poll that saw a modification time strictly after `last`, if any. */
  function FirstNewer(last: Option<int>, polls: seq<Option<int>>): (k: Option<nat>)
    ensures k.None? <==> forall j :: 0 <= j < |polls| ==> !NewerThan(polls[j], last)
    ensures k.Some? ==> k.value < |polls| && NewerThan(polls[k.value], last)
    ensures k.Some? ==> forall j :: 0 <= j < k.value ==> !NewerThan(polls[j], last)
  {
    if polls == [] then None
    else if NewerThan(polls[0], last) then Some(0)
    else match FirstNewer(last, polls[1..])
      case None => None
      case Some(j) => Some(j + 1)
  }

  /**
    A poll whose stat succeeded (Some) saw a time strictly after the recorded one; a failed stat
    never counts. A recorded None is the zero time, which every file time is after.
   */
  predicate NewerThan(poll: Option<int>, last: Option<int>) {
    poll.Some? && (last.None? || poll.value > last.value)
  }

  /** An unchanged (or older) file never triggers a reload, however long the monitor runs. */
  lemma UnchangedFileNeverReloads(last: int, polls: seq<Option<int>>)
    requires forall j :: 0 <= j < |polls| ==> polls[j].None? || polls[j].value <= last
    ensures FirstNewer(Some(last), polls) == None
  {
  }

  class VpnApp {
    var config: Config
    /** The server items of the menu, built once from the configuration at start-up. */
    var entries: seq<MenuEntry>
    var disconnectItem: MenuItem
    var display: Display
    const os: Os

    /** main: load the configuration, falling back to a built-in one when that fails. */
    constructor (src: ConfigSource, os: Os)
      ensures config == InitialConfig(src)
      ensures entries == [] && disconnectItem == NoItem && display == Display("", "", NoPicture)
      ensures this.os == os
    {
      var r := LoadConfig(src);
      if r.Success? {
        config := r.value;
      } else {
        config := FallbackConfig;
      }
      entries := [];
      disconnectItem := NoItem;
      display := Display("", "", NoPicture);
      this.os := os;
    }

    /** isVPNConnected: the three checks in turn; the first positive one decides. */
    method IsVpnConnected() returns (connected: bool)
      modifies os
      ensures var o := Observe(os.respond, |old(os.history)|, config.localPort);
        os.history == old(os.history) + o.calls && connected == o.evidence.Connected()
    {
      var r := os.Run(PgrepForward);
      if PrintedSomething(r) {
        return true;
      }
      r := os.Run(PgrepAutossh);
      if Succeeded(r) {
        return true;
      }
      if config.localPort > 0 {
        r := os.Run(Lsof(config.localPort));
        if PrintedSomething(r) {
          connected := ScanListeners(r.stdout);
          return;
        }
      }
      return false;
    }

    /** disconnectVPN: proxy off, SIGTERM, and SIGKILL if autossh survives; every failure is only logged. */
    method DisconnectVpn() returns (err: Option<VpnError>)
      modifies os
      ensures os.history == old(os.history) + DisconnectRun(os.respond, |old(os.history)|, config.iface)
      ensures err == None
    {
      var r := os.Run(SocksProxyOff(config.iface));
      r := os.Run(PkillTerm);
      if FoundNothing(r) {
        return None;
      }
      r := os.Run(PgrepAutossh);
      if Succeeded(r) {
        r := os.Run(PkillKill);
      }
      return None;
    }

    /** connectVPN: look the name up, reset, spawn autossh, then point the proxy at the tunnel. */
    method ConnectVpn(name: string) returns (err: Option<VpnError>)
      modifies os
      ensures var a := ConnectRun(os.respond, |old(os.history)|, config, name);
        os.history == old(os.history) + a.calls && err == a.err
    {
      var target := LookupCommand(config.commands, name);
      if target.None? {
        return Some(CommandNotFound(name));
      }
      err := Launch(target.value.server);
    }

    /** connectVPN once the server is known: reset, spawn autossh, and point the proxy at the tunnel if it started. */
    method Launch(server: string) returns (err: Option<VpnError>)
      modifies os
      ensures var a := LaunchRun(os.respond, |old(os.history)|, config, server);
        os.history == old(os.history) + a.calls && err == a.err
    {
      ghost var h0 := os.history;
      ghost var d := DisconnectRun(os.respond, |h0|, config.iface);
      var _ := DisconnectVpn();
      var spawn := Spawn(config.autosshPath, TunnelRequest(config.serverOptions, config.localPort, server));
      var r := os.Run(spawn);
      assert os.history == h0 + (d + [spawn]);
      if !Succeeded(r) {
        return Some(AutosshStartFailed);
      }
      var proxy := SetSocksProxy(config.iface, Loopback, config.localPort);
      r := os.Run(proxy);
      assert os.history == h0 + (d + [spawn, proxy]);
      if !Succeeded(r) {
        return Some(SocksProxyFailed);
      }
      return None;
    }

    /** The wait after a disconnect: probe up to SettleProbes times, stopping at the first "not connected". */
    method AwaitDisconnect()
      modifies os
      ensures os.history == old(os.history) + Settle(os.respond, |old(os.history)|, config.localPort, SettleProbes).calls
    {
      var port := config.localPort;
      ghost var respond := os.respond;
      ghost var h0 := os.history;
      ghost var done: seq<Call> := [];
      ghost var t: nat := |h0|;
      ghost var left: nat := SettleProbes;
      var i := 0;
      while i < SettleProbes
        invariant 0 <= i <= SettleProbes && left == SettleProbes - i && port == config.localPort
        invariant os.history == h0 + done && t == |os.history|
        invariant Settle(respond, |h0|, port, SettleProbes).calls == done + Settle(respond, t, port, left).calls
      {
        ghost var o := Observe(respond, t, port);
        ghost var hb := os.history;
        var connected := IsVpnConnected();
        assert os.history == hb + o.calls && connected == o.evidence.Connected();
        Associative(h0, done, o.calls);
        if !connected {
          SettleLast(respond, |h0|, port, SettleProbes, done, t, left);
          done := done + o.calls;
          return;
        }
        ghost var done1, t1, left1 := done, t, left;
        done := done + o.calls;
        t := t + |o.calls|;
        left := left - 1;
        i := i + 1;
        SettleStep(respond, |h0|, port, SettleProbes, done1, t1, left1, t, left);
      }
      assert done + [] == done;
    }

    /** updateIcon: probe once, show the state in the menu bar, and enable the disconnect item exactly when connected. */
    method UpdateIcon(iconLoaded: bool)
      modifies this, os
      ensures var o := Observe(os.respond, |old(os.history)|, config.localPort);
        && os.history == old(os.history) + o.calls
        && display == Render(old(display), o.evidence.Connected(), iconLoaded)
        && disconnectItem == (if old(disconnectItem).NoItem? then NoItem else Item(o.evidence.Connected()))
      ensures config == old(config) && entries == old(entries)
    {
      var connected := IsVpnConnected();
      display := Render(display, connected, iconLoaded);
      if disconnectItem.Item? {
        disconnectItem := Item(connected);
      }
    }

    /** buildMenu: one item per server entry, then the disconnect item, enabled only if a tunnel is up. */
    method BuildMenu()
      modifies this, os
      ensures |entries| == |config.commands|
      ensures forall k :: 0 <= k < |entries| ==> entries[k] == EntryFor(config.commands[k])
      ensures var o := Observe(os.respond, |old(os.history)|, config.localPort);
        os.history == old(os.history) + o.calls && disconnectItem == Item(o.evidence.Connected())
      ensures config == old(config) && display == old(display)
    {
      var built: seq<MenuEntry> := [];
      var i := 0;
      while i < |config.commands|
        invariant 0 <= i <= |config.commands|
        invariant |built| == i
        invariant forall k :: 0 <= k < i ==> built[k] == EntryFor(config.commands[k])
      {
        built := built + [EntryFor(config.commands[i])];
        i := i + 1;
      }
      entries := built;
      disconnectItem := Item(true);
      var connected := IsVpnConnected();
      if !connected {
        disconnectItem := Item(false);
      }
    }

    /** onReady: the start-up tooltip, the menu, then the first icon update. */
    method OnReady(iconLoaded: bool)
      modifies this, os
      ensures |entries| == |config.commands|
      ensures forall k :: 0 <= k < |entries| ==> entries[k] == EntryFor(config.commands[k])
      ensures var o1 := Observe(os.respond, |old(os.history)|, config.localPort);
        var o2 := Observe(os.respond, |old(os.history)| + |o1.calls|, config.localPort);
        && os.history == old(os.history) + o1.calls + o2.calls
        && disconnectItem == Item(o2.evidence.Connected())
        && display == Render(Display(old(display).title, TooltipStartup, old(display).picture), o2.evidence.Connected(), iconLoaded)
        && Shows(display, o2.evidence.Connected())
      ensures config == old(config)
    {
      display := display.(tooltip := TooltipStartup);
      BuildMenu();
      UpdateIcon(iconLoaded);
    }

    /** A click on the k-th server item: connect by its name, and refresh the icon only on success. */
    method OnConnectClicked(k: nat, iconLoaded: bool) returns (err: Option<VpnError>)
      requires k < |entries|
      modifies this, os
      ensures var a := ConnectRun(os.respond, |old(os.history)|, config, old(entries)[k].name);
        && err == a.err
        && (a.err.Some? ==> os.history == old(os.history) + a.calls && display == old(display) && disconnectItem == old(disconnectItem))
        && (a.err.None? ==>
            var o := Observe(os.respond, |old(os.history)| + |a.calls|, config.localPort);
            && os.history == old(os.history) + a.calls + o.calls
            && display == Render(old(display), o.evidence.Connected(), iconLoaded)
            && disconnectItem == (if old(disconnectItem).NoItem? then NoItem else Item(o.evidence.Connected())))
      ensures config == old(config) && entries == old(entries)
    {
      ghost var h0 := os.history;
      ghost var a := ConnectRun(os.respond, |h0|, config, entries[k].name);
      err := ConnectVpn(entries[k].name);
      assert os.history == h0 + a.calls && err == a.err;
      if err.None? {
        ghost var h1 := os.history;
        assert |h1| == |h0| + |a.calls|;
        UpdateIcon(iconLoaded);
      }
    }

    /**
      A click on "Disconnect": grey the item out, disconnect, wait for the tunnel to go, then
      update the icon, which enables the item again only if the final probe still finds a tunnel.
     */
    method OnDisconnectClicked(iconLoaded: bool)
      requires disconnectItem.Item?
      modifies this, os
      ensures var c := DisconnectClickRun(os.respond, old(os.history), config);
        && os.history == old(os.history) + c.Calls()
        && disconnectItem == Item(c.probe.evidence.Connected())
        && display == Render(old(display), c.probe.evidence.Connected(), iconLoaded)
      ensures config == old(config) && entries == old(entries)
    {
      ghost var c := DisconnectClickRun(os.respond, os.history, config);
      ghost var h0 := os.history;
      disconnectItem := Item(false);
      var _ := DisconnectVpn();
      ghost var h1 := os.history;
      AwaitDisconnect();
      ghost var h2 := os.history;
      UpdateIcon(iconLoaded);
      assert h1 == h0 + c.reset && h2 == h1 + c.wait.calls && os.history == h2 + c.probe.calls;
      AppendThree(h0, c.reset, c.wait.calls, c.probe.calls);
    }

    /** reloadConfiguration: swap in a freshly loaded configuration, or keep the current one when loading fails; the menu is not rebuilt. */
    method ReloadConfiguration(src: ConfigSource)
      modifies this
      ensures src.Parsed? ==> config == WithDefaults(src.raw)
      ensures !src.Parsed? ==> config == old(config)
      ensures entries == old(entries) && disconnectItem == old(disconnectItem) && display == old(display)
    {
      var r := LoadConfig(src);
      if r.Failure? {
        return;
      }
      config := r.value;
    }

    /**
      monitorConfigFile: poll the file's modification time up to MonitorTicks times and reload at
      the first poll that saw it strictly after the time recorded at the start; then stop. `src`
      is what reading the file yields at that moment.
     */
    method MonitorConfigFile(initial: Option<int>, polls: seq<Option<int>>, src: ConfigSource) returns (reloadedAt: Option<nat>)
      modifies this
      ensures var seen := if |polls| <= MonitorTicks then polls else polls[..MonitorTicks];
        reloadedAt == FirstNewer(initial, seen)
      ensures reloadedAt.Some? && src.Parsed? ==> config == WithDefaults(src.raw)
      ensures reloadedAt.None? || !src.Parsed? ==> config == old(config)
      ensures entries == old(entries) && disconnectItem == old(disconnectItem) && display == old(display)
    {
      var n := if |polls| <= MonitorTicks then |polls| else MonitorTicks;
      var i := 0;
      while i < n
        invariant 0 <= i <= n
        invariant forall j :: 0 <= j < i ==> !NewerThan(polls[j], initial)
      {
        if NewerThan(polls[i], initial) {
          ReloadConfiguration(src);
          return Some(i);
        }
        i := i + 1;
      }
      return None;
    }

    /** onExit: disconnect before quitting. */
    method OnExit()
      modifies os
      ensures os.history == old(os.history) + DisconnectRun(os.respond, |old(os.history)|, config.iface)
    {
      var _ := DisconnectVpn();
    }
  }
}
