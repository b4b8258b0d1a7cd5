# SOCKS VPN menu: connection-lifecycle controller

A Dafny model of the controller in `main.go` of the SOCKS VPN menu-bar application. The
controller does five things:

- It loads `~/.vpn.json` and gives every empty or zero field its default.
- It tells whether an autossh tunnel is up. Three OS queries are tried in order: `pgrep -f`,
  `pgrep`, and `lsof` on the local port.
- It connects: the server name is looked up, a full disconnect runs, autossh is spawned with
  a fixed argument vector, and the SOCKS proxy of the network service is pointed at
  127.0.0.1:<port>.
- It disconnects: the proxy is switched off, then SIGTERM is sent, then SIGKILL if autossh is
  still there.
- It runs the menu-bar application around these: the menu, the icon update, the bounded wait
  after a disconnect, the configuration reload and the configuration-file monitor.

The OS is an object (`OsModel.Os`) with two parts:

- The history of every command issued.
- An arbitrary response function that answers the n-th command with an exit status and
  standard output. A command that cannot start gets `StartFailed`.

Because the response function is arbitrary, every way a command can end is covered. The
model assumes that every command ends. A command that hangs is outside the model. Each
procedure is a method of `VpnMenu.VpnApp`, proved to append exactly the commands computed by a
specification function:

- `Observe` for the probe.
- `DisconnectRun` for disconnect.
- `ConnectRun` and `LaunchRun` for connect.
- `Settle` for the wait after a disconnect.
- `DisconnectClickRun` for the whole disconnect click.

Two parts of the OS state are read off the history and its replies:

- `ProxyAfter`: the SOCKS proxy setting of a service.
- `CensusAfter`: what the replies reveal about the running autossh processes.

Properties are stated about these views.

Modules, leaf to root:

- `Wrappers`: Option and Result.
- `Text`: the Go string helpers the code relies on (TrimSpace, Split, ToLower, Contains,
  `%d` formatting).
- `ConfigStore`: loadConfig, the fallback configuration, the template.
- `AutosshCommand`: the autossh argument vector.
- `OsModel`: the command vocabulary, the OS object, the proxy and census views.
- `ConnectionProbe`: isVPNConnected.
- `TunnelSupervisor`: connectVPN and disconnectVPN.
- `VpnMenu`: the application object and its handlers.

Where the design description and the code disagree, the model follows the code:

- disconnectVPN returns no error on any path, a failed proxy-off included (main.go:379-413).
- The fallback configuration used when loading fails (main.go:54-59) bypasses the defaulting.
  Its keep-alive options are 0 and it has no servers.
- The lsof check accepts a row if "ssh" appears anywhere in it, not only in the command column
  (main.go:317-323).
- A connect followed by another connect is not unconditionally left with a single tunnel. The
  reset only empties the process table when pkill reports nothing to kill, or pgrep then finds
  nothing, or the SIGKILL goes through. `ConnectLeavesOneTunnel` states the property under
  that condition, and `VerifiedResetLeavesNoTunnel` says when the reset meets it.
  `TwoConnectsCanLeaveTwoTunnels` exhibits replies under which two tunnels run afterwards.
- The design asks for a probe that finishes in bounded time even when a query hangs. The code
  puts no timeout on any command it runs (main.go:293-311), so a hung pgrep or lsof blocks the
  probe forever.

## Model

| member | source | states |
|---|---|---|
| ConfigStore.LoadConfig | main.go:254-289 | each failure (user lookup, read, parse) gives its own error, exactly; a decoded record yields `WithDefaults` of it |
| ConfigStore.WithDefaults | main.go:271-286 | the defaulted record has no empty or zero defaulted field and keeps the server list |
| ConfigStore.DefaultsReplaceOnlyZeroFields | main.go:271-286 | a field changes exactly when it was empty or zero, and then takes its default (/opt/homebrew/bin/autossh, 1234, Wi-Fi, 10, 3); the server list is untouched |
| ConfigStore.DefaultsComplete | main.go:271-286 | after defaulting no defaulted field is empty or zero, and defaulting again changes nothing |
| ConfigStore.DefaultsFixIffComplete | main.go:271-286 | defaulting leaves a record unchanged if and only if none of its defaulted fields is empty or zero |
| ConfigStore.DummyConfigLoadsBack | main.go:502-518 | the first-run template loads back unchanged, with one server named "example" for "your-server-name-or-ip" |
| ConfigStore.InitialConfig | main.go:49-61 | a loaded configuration is complete and keeps its servers; the fallback is incomplete (zero keep-alive) and has no servers |
| AutosshCommand.AutosshArgsRoundTrip | main.go:357-363 | reading the argument vector back gives exactly the keep-alive interval, count, port and server it was built from |
| OsModel.Argv | main.go:293-311 | every argument vector has a program and an argument; queries run pgrep or lsof; proxy commands run networksetup on their own service; a spawn runs the configured binary |
| TunnelSupervisor.SpawnArgv | main.go:357-365 | the spawn runs the configured binary with 11 arguments that read back as the configured options, port and chosen server |
| Text.TrimSpaceSpec | main.go:295 | the trimmed text starts and ends with a non-space, and is empty exactly when the output was all white space |
| Text.ParseFormatInt | main.go:359-361 | `%d` formatting is read back exactly, so the numbers in the argument vector are recoverable |
| Text.JoinSplit | main.go:315 | splitting on a separator loses nothing: joining the pieces gives back the text |
| Text.SplitSingle | main.go:315-316 | a text splits into one line exactly when it holds no newline |
| ConnectionProbe.ScanListeners | main.go:313-327 | the early-exit scan over lsof's rows after the header answers true exactly when some such row mentions ssh |
| ConnectionProbe.Observe | main.go:291-338 | the probe issues one to three commands, all queries |
| ConnectionProbe.ConnectedIffSomeCheckPasses | main.go:291-338 | "connected" if and only if the forward pgrep printed a pid, or pgrep autossh succeeded, or (port > 0 and) lsof printed a table with an ssh row |
| ConnectionProbe.FirstPositiveCheckShortCircuits | main.go:292-305 | a positive first or second check decides at once; lsof is run exactly when both fail and the port is positive |
| ConnectionProbe.MentionsSsh | main.go:318-319 | a row passes the lower-case test exactly when "ssh" occurs in it in any letter case |
| ConnectionProbe.LowerCaseTestFindsSsh | main.go:318-319 | the lower-case test for "autossh" or "ssh" holds exactly when "ssh" occurs in any letter case; "autossh" adds nothing |
| ConnectionProbe.ListsSsh | main.go:313-323 | the scan's test agrees with the reference reading: a row after the header holds "ssh" in some letter case |
| ConnectionProbe.HeaderOnlyIsNotSsh | main.go:314-327 | a one-line (header-only) listing never counts as an ssh listener |
| ConnectionProbe.ForeignListenerIsNotConnected | main.go:325-327 | a listener none of whose rows spells ssh gives "not connected" (no false positive from port reuse) |
| ConnectionProbe.ProbeKeepsProxy | main.go:291-338 | a probe leaves the proxy setting of every service unchanged |
| TunnelSupervisor.FirstMatch | main.go:341-351 | the index found is that of the first entry with the name; none exactly when no entry has it |
| TunnelSupervisor.LookupCommand | main.go:341-347 | the breaking loop returns the first entry with the name, or nothing when there is none |
| TunnelSupervisor.DisconnectRun | main.go:379-413 | disconnect issues two to four commands, always proxy-off first and SIGTERM second |
| TunnelSupervisor.DisconnectProxyOffThenTerm | main.go:380-388 | disconnect always starts with proxy-off and then SIGTERM, whatever proxy-off replied; nothing later touches the proxy |
| TunnelSupervisor.NothingToKillStopsEarly | main.go:386-393 | pkill's exit status 1 ends disconnect after two commands, and only then |
| TunnelSupervisor.EscalatesIffStillRunning | main.go:400-410 | SIGKILL is sent if and only if pkill did not report "nothing found" and pgrep autossh then succeeds |
| TunnelSupervisor.DisconnectDisablesProxy | main.go:380-384 | a successful proxy-off leaves the service's proxy disabled when disconnect returns |
| TunnelSupervisor.VerifiedResetLeavesNoTunnel | main.go:386-410 | pkill finding nothing, pgrep finding nothing, or a SIGKILL that went through leaves no autossh running |
| TunnelSupervisor.LaunchRun | main.go:353-376 | after the reset comes the spawn for the server; the proxy command follows unless the spawn failed; the error is none, spawn failed or proxy failed |
| TunnelSupervisor.ConnectRun | main.go:340-377 | connect issues no command, and reports "not found", exactly when no entry has the name |
| TunnelSupervisor.LaunchSpawned | main.go:365-374 | once autossh has started, the proxy command always follows it |
| TunnelSupervisor.UnknownNameHasNoEffect | main.go:349-351 | connect issues no command at all if and only if no entry has the name, and then reports "not found" |
| TunnelSupervisor.ResetThenSpawnFirstMatch | main.go:341-365 | a known name runs the full disconnect first and then spawns autossh for the first entry with that name |
| TunnelSupervisor.FailedSpawnLeavesProxyAlone | main.go:365-368 | a failed spawn is reported, ends connect, and no proxy-enable command is issued |
| TunnelSupervisor.FailedProxyKeepsTunnel | main.go:370-374 | a failed proxy command after a successful spawn is reported, and the spawn is not undone |
| TunnelSupervisor.ConnectSucceedsIff | main.go:340-377 | connect returns no error if and only if the name is known, autossh started and the proxy command succeeded |
| TunnelSupervisor.ConnectEnablesProxy | main.go:370-376 | after a successful connect the service's proxy points at 127.0.0.1 on the configured port |
| TunnelSupervisor.SpawnIntoEmptyCensus | main.go:365-374 | a successful spawn into an empty process table, then the proxy command, leaves exactly that one tunnel |
| TunnelSupervisor.ConnectLeavesOneTunnel | main.go:353-374 | when the reset leaves no autossh and the spawn succeeds, exactly one tunnel runs afterwards, for the first entry with the name |
| TunnelSupervisor.FirstOfTwoConnects | main.go:340-377 | on the stubborn OS, the first connect's pkill finds nothing, so the reset stops there; spawn and proxy follow and it succeeds |
| TunnelSupervisor.SecondOfTwoConnects | main.go:379-410 | on the stubborn OS, the second connect's pkill fails and the re-check cannot start, so no SIGKILL is sent; spawn and proxy follow and it succeeds |
| TunnelSupervisor.TwoConnectsCanLeaveTwoTunnels | main.go:353-410 | two successful connects in a row can leave both tunnels running, when SIGTERM fails and the re-check cannot start |
| TunnelSupervisor.FallbackConfigCannotConnect | main.go:54-59 | with the fallback configuration every connect fails with "not found" and issues nothing |
| TunnelSupervisor.SpawnedTunnelMatchesProbe | main.go:357-365 | if the binary's path contains "autossh", the spawned command line matches the probe's pattern autossh.*-D.*localhost |
| VpnMenu.Render | main.go:193-241 | the menu bar shows the state by tooltip and by picture or emoji title, never the other state; the title is cleared exactly when the picture loaded |
| VpnMenu.EntryFor | main.go:90-104 | the item shows the entry's description, its hint names the entry's server after "Connect to ", and it connects by the entry's name |
| VpnMenu.ClickedEntryTarget | main.go:90-104 | a click on the k-th item connects to the first entry with its name: the k-th itself exactly when no earlier entry shares the name |
| VpnMenu.Settle | main.go:133-138 | the wait probes at most 20 times, at least once; every probe but the last said "connected"; stopping before the bound means the last said "not connected" |
| VpnMenu.SettleOnlyQueries | main.go:133-138 | the wait only issues queries, at most three per probe |
| VpnMenu.SettleKeepsProxy | main.go:131-141 | the wait leaves the proxy as the disconnect left it |
| VpnMenu.DisconnectClickRun | main.go:116-141 | a disconnect click always begins by switching the proxy off |
| VpnMenu.DisconnectClickDisablesProxy | main.go:118-141 | after a disconnect click whose proxy-off succeeded, the proxy is disabled, however long the wait |
| VpnMenu.FirstNewer | main.go:549-563 | the monitor triggers at the first poll whose stat succeeded with a time strictly after the recorded one, and never otherwise |
| VpnMenu.UnchangedFileNeverReloads | main.go:549-558 | a file never modified after the recorded time never triggers a reload |
| VpnMenu.VpnApp.constructor | main.go:46-61 | the application starts with the loaded configuration, or the fallback when loading fails |
| VpnMenu.VpnApp.IsVpnConnected | main.go:291-338 | the probe appends exactly `Observe`'s commands and returns its verdict |
| VpnMenu.VpnApp.DisconnectVpn | main.go:379-413 | disconnect appends exactly `DisconnectRun`'s commands and returns no error on every path |
| VpnMenu.VpnApp.ConnectVpn | main.go:340-377 | connect appends exactly `ConnectRun`'s commands and returns its error |
| VpnMenu.VpnApp.Launch | main.go:353-376 | reset, spawn and proxy append exactly `LaunchRun`'s commands and return its error |
| VpnMenu.VpnApp.AwaitDisconnect | main.go:131-138 | the bounded loop appends exactly the commands of `Settle` with 20 probes |
| VpnMenu.VpnApp.UpdateIcon | main.go:170-252 | one probe; the display shows its verdict; an existing disconnect item is enabled exactly when connected |
| VpnMenu.VpnApp.BuildMenu | main.go:86-115 | one item per server entry, in order; the disconnect item is created enabled exactly when the probe says connected |
| VpnMenu.VpnApp.OnReady | main.go:66-70 | start-up tooltip, menu, then one icon update whose verdict the menu bar shows |
| VpnMenu.VpnApp.OnConnectClicked | main.go:92-104 | connect by the item's name; on error nothing else happens; on success one icon update follows, showing its verdict and enabling an existing disconnect item exactly when connected |
| VpnMenu.VpnApp.OnDisconnectClicked | main.go:116-143 | the item is greyed out, then disconnect, the wait and one icon update run; the item ends enabled exactly when the final probe still finds a tunnel |
| VpnMenu.VpnApp.ReloadConfiguration | main.go:567-582 | a successful load replaces the configuration wholesale; a failed one leaves it unchanged; the menu is not rebuilt |
| VpnMenu.VpnApp.MonitorConfigFile | main.go:535-564 | at most 150 polls; reloads once, at the first strictly newer modification time, and never otherwise |
| VpnMenu.VpnApp.OnExit | main.go:81-84 | quitting runs the full disconnect |

## Left out

- The tray library: the icon bytes, the separators, and the edit and quit items
  (main.go:107-109, main.go:146-167). The display is modelled as its title, tooltip and which
  bundled picture it shows.
- Commands that never end. The code puts no timeout on any command it runs (main.go:294,
  main.go:302, main.go:311, main.go:366, main.go:372, main.go:382, main.go:388, main.go:402,
  main.go:406). A hung command blocks the probe or the handler forever. In the model every
  command ends.
- The crash when the user lookup fails (main.go:175-176). updateIcon ignores the error of
  `user.Current()` and reads `usr.HomeDir`. `user.Current` caches its first result, error
  included. So when loading failed with `NoCurrentUser`, the first icon update in onReady
  (main.go:70) dereferences nil and the program panics. In the model, the constructor
  followed by `OnReady` completes and shows the state.
- Locating the icon files (main.go:175-191). The first candidate directory is never empty, so
  only the first `os.ReadFile` matters. Whether it succeeded is the `iconLoaded` parameter of
  `UpdateIcon`.
- Goroutines, channels, the 5-second ticker of the periodic refresh (main.go:72-78), and the
  sleeps and tickers of the wait and the monitor. Each refresh is one `UpdateIcon` call. Click
  handlers are methods called once per click, and the wait and the monitor are bounded loops.
  Interleavings between concurrent handlers are not modelled.
- Process execution, `syscall.WaitStatus`, `os/user`, `os.Stat`, `os.ReadFile` and
  `os.WriteFile` become inputs:
  - OS commands are answered by the response function of `OsModel.Os`.
  - The loader's outcome is a `ConfigSource` value.
  - The monitor's stat results are a sequence of optional times.
- JSON decoding and `MarshalIndent` (main.go:267, main.go:520). The configuration is an
  already-decoded record.
- editConfiguration (main.go:416-499), which finds and launches an editor, and the file
  writing of createDummyConfig (main.go:520-531). Only the template's content is modelled.
- Logging.
- The `app.config != nil` tests (main.go:308, main.go:332). main always sets the
  configuration and a reload only assigns a successful load, so they always hold.
- The retry branch of the disconnect handler (main.go:124-129). disconnectVPN never returns an
  error, so the branch cannot run.
- VpnMenu.VpnApp.MonitorConfigFile: in the source the 150th tick and the 5-minute timeout fire
  together and either may win. The model always lets the 150th poll run.
- Text.ToLower: lowers the ASCII capitals only. No other character lowers to 's' or 'h', so
  the ssh test is unaffected.
- OsModel.CensusStep: a spawned tunnel is assumed to run under a process name that pkill and
  pgrep `autossh` match.
- After a reload the menu keeps its old server items (main.go:579-581). `entries` is left
  unchanged, and a click still connects by the old item's name against the new configuration.
