/**
  isVPNConnected: whether a tunnel is up, judged from three OS queries tried in order, the first
  positive one deciding:
    1. a process whose command line matches "autossh.*-D.*localhost" (pgrep -f prints its pid);
    2. any process named autossh (pgrep exits 0);
    3. when the configured port is positive, a TCP listener on it (lsof prints a table) whose
       rows after the header mention ssh in any letter case; a listener owned by anything else
       means "not connected".
 */
module ConnectionProbe {
  import opened Text
  import opened OsModel

  /** Which check decided; the source logs it. */
  datatype Evidence = ForwardProcess | AutosshProcess | SshListener | ForeignListener | NoEvidence {
    predicate Connected() {
      ForwardProcess? || AutosshProcess? || SshListener?
    }
  }

  /** The queries a probe issued, in order, and what it concluded. */
  datatype Observation = Observation(calls: seq<Call>, evidence: Evidence)

  /** A row of lsof's table names ssh or autossh, compared in lower case: that is, "ssh" occurs in it in any letter case. */
  function MentionsSsh(line: string): (b: bool)
    ensures b <==> exists i :: SshAt(line, i)
  {
    LowerCaseTestFindsSsh(line);
    var lower := ToLower(line);
    Contains(lower, "autossh") || Contains(lower, "ssh")
  }

  /**
    Some row of the trimmed lsof output after its first (header) line mentions ssh: exactly when
    the reference reading finds "ssh" in any letter case in such a row.
   */
  function ListsSsh(out: string): (b: bool)
    ensures b <==> HasSshRow(out)
  {
    var lines := Split(TrimSpace(out), '\n');
    exists k :: 1 <= k < |lines| && MentionsSsh(lines[k])
  }

  /** The rows after lsof's header line are scanned in order; the first that mentions ssh ends the scan. */
  method ScanListeners(out: string) returns (ssh: bool)
    ensures ssh == ListsSsh(out)
  {
    var text := TrimSpace(out);
    var lines := Split(text, '\n');
    if |lines| > 1 {
      var k := 1;
      while k < |lines|
        invariant 1 <= k <= |lines|
        invariant forall j :: 1 <= j < k ==> !MentionsSsh(lines[j])
      {
        if MentionsSsh(lines[k]) {
          return true;
        }
        k := k + 1;
      }
    }
    return false;
  }

  /**
    The probe run from position `t` of the OS history with the configured local port: the
    queries it issues (each asked only when the ones before it found nothing) and its verdict.
   */
  function Observe(respond: Oracle, t: nat, port: int): (o: Observation)
    ensures 1 <= |o.calls| <= 3
    ensures forall k :: 0 <= k < |o.calls| ==> IsQuery(o.calls[k])
  {
    if PrintedSomething(respond(t, PgrepForward)) then
      Observation([PgrepForward], ForwardProcess)
    else if Succeeded(respond(t + 1, PgrepAutossh)) then
      Observation([PgrepForward, PgrepAutossh], AutosshProcess)
    else if port > 0 then
      var listing := respond(t + 2, Lsof(port));
      Observation([PgrepForward, PgrepAutossh, Lsof(port)],
        if !PrintedSomething(listing) then NoEvidence
        else if ListsSsh(listing.stdout) then SshListener
        else ForeignListener)
    else
      Observation([PgrepForward, PgrepAutossh], NoEvidence)
  }

  /** The verdict is "connected" exactly when one of the three checks, asked in turn, is positive. */
  lemma ConnectedIffSomeCheckPasses(respond: Oracle, t: nat, port: int)
    ensures Observe(respond, t, port).evidence.Connected() <==>
      || PrintedSomething(respond(t, PgrepForward))
      || Succeeded(respond(t + 1, PgrepAutossh))
      || (port > 0 && PrintedSomething(respond(t + 2, Lsof(port))) && ListsSsh(respond(t + 2, Lsof(port)).stdout))
  {
  }

  /** A positive check ends the probe: the later queries are never issued. */
  lemma FirstPositiveCheckShortCircuits(respond: Oracle, t: nat, port: int)
    ensures PrintedSomething(respond(t, PgrepForward)) ==>
      Observe(respond, t, port) == Observation([PgrepForward], ForwardProcess)
    ensures !PrintedSomething(respond(t, PgrepForward)) && Succeeded(respond(t + 1, PgrepAutossh)) ==>
      Observe(respond, t, port) == Observation([PgrepForward, PgrepAutossh], AutosshProcess)
    ensures Lsof(port) in Observe(respond, t, port).calls <==>
      !PrintedSomething(respond(t, PgrepForward)) && !Succeeded(respond(t + 1, PgrepAutossh)) && port > 0
  {
  }

  /** Case-insensitive search for "ssh", written out letter by letter. */
  predicate SshAt(line: string, i: int) {
    0 <= i && i + 3 <= |line|
    && (line[i] == 's' || line[i] == 'S')
    && (line[i + 1] == 's' || line[i + 1] == 'S')
    && (line[i + 2] == 'h' || line[i + 2] == 'H')
  }

  /** "ssh" in the lower-cased line sits over an "ssh" in any letter case in the line itself. */
  lemma SshFromLowerCase(line: string, i: int)
    requires OccursAt(ToLower(line), "ssh", i)
    ensures SshAt(line, i)
  {
    var w := ToLower(line)[i..i + 3];
    assert w == "ssh";
    assert LowerChar(line[i]) == w[0] && LowerChar(line[i + 1]) == w[1] && LowerChar(line[i + 2]) == w[2];
  }

  /** The lower-case test agrees with a letter-by-letter case-insensitive search for "ssh"; "autossh" adds nothing. */
  lemma LowerCaseTestFindsSsh(line: string)
    ensures Contains(ToLower(line), "autossh") || Contains(ToLower(line), "ssh") <==> exists i :: SshAt(line, i)
  {
    var lower := ToLower(line);
    if Contains(lower, "autossh") {
      var i :| 0 <= i <= |lower| - 7 && OccursAt(lower, "autossh", i);
      assert lower[i + 4..i + 7] == lower[i..i + 7][4..7];
      assert OccursAt(lower, "ssh", i + 4);
    }
    if Contains(lower, "ssh") {
      var i :| 0 <= i <= |lower| - 3 && OccursAt(lower, "ssh", i);
      SshFromLowerCase(line, i);
    }
    if i :| SshAt(line, i) {
      assert lower[i..i + 3] == "ssh";
      assert OccursAt(lower, "ssh", i);
    }
  }

  /** Output with no line after the header (a single line once trimmed) never counts as an ssh listener. */
  lemma HeaderOnlyIsNotSsh(out: string)
    requires '\n' !in TrimSpace(out)
    ensures !ListsSsh(out)
  {
    SplitSingle(TrimSpace(out), '\n');
  }

  /** Reference reading of lsof's table: some row after the header holds "ssh" in any letter case. */
  ghost predicate HasSshRow(out: string) {
    var lines := Split(TrimSpace(out), '\n');
    exists k, i :: 1 <= k < |lines| && SshAt(lines[k], i)
  }

  /**
    No false positive from port reuse: when both process checks fail and no row of the port's
    listener table after the header spells ssh in any letter case, the probe says "not connected".
   */
  lemma ForeignListenerIsNotConnected(respond: Oracle, t: nat, port: int)
    requires !PrintedSomething(respond(t, PgrepForward)) && !Succeeded(respond(t + 1, PgrepAutossh))
    requires port > 0 && PrintedSomething(respond(t + 2, Lsof(port)))
    requires !HasSshRow(respond(t + 2, Lsof(port)).stdout)
    ensures Observe(respond, t, port).evidence == ForeignListener
    ensures !Observe(respond, t, port).evidence.Connected()
  {
  }

  /** A probe only queries: it leaves the proxy setting of every service as it was. */
  lemma ProbeKeepsProxy(respond: Oracle, h: seq<Call>, port: int, iface: string)
    ensures ProxyAfter(respond, h + Observe(respond, |h|, port).calls, iface) == ProxyAfter(respond, h, iface)
  {
    OthersKeepProxy(respond, h, Observe(respond, |h|, port).calls, iface);
  }
}
