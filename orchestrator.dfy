/**
 * The older single-VM orchestrator (firecracker_orchestrator.py): it holds
 * one Firecracker process and its API socket, wires the guest to a fixed
 * network (host side 172.50.0.1/24) through a TAP interface and NAT rules,
 * passes tasks to the guest as JSON files and stores the results it gets
 * back under readable file names, with any fenced code from the answer in a
 * second file beside them.
 *
 * Shell commands go through the host machine; the shared-disk preparation
 * (`dd`, `mkfs.ext4`, mount and copies) is one abstract outcome, `diskOk`.
 */
module Orchestrator {
  import opened Wrappers
  import opened Text
  import opened Json
  import opened Files
  import opened Host
  import opened Process
  import opened DefaultRoute
  import opened NetworkManager
  import VmManager

  type Environment = map<string, string>

  const MissingKeyMessage := "OpenAI API key required. Set OPENAI_API_KEY environment variable or pass as parameter."

  /** `openai_api_key or os.environ.get('OPENAI_API_KEY')`; construction raises `ValueError` when that is falsy. */
  function ResolveApiKey(arg: Option<string>, env: Environment): (r: Result<string, string>)
    ensures r.Ok? <==> (arg.Some? && arg.value != "") || ("OPENAI_API_KEY" in env && env["OPENAI_API_KEY"] != "")
    ensures r.Ok? ==> r.value != ""
    ensures arg.Some? && arg.value != "" ==> r == Ok(arg.value)
    ensures !(arg.Some? && arg.value != "") && r.Ok? ==> r.value == env["OPENAI_API_KEY"]
    ensures r.Err? ==> r.error == MissingKeyMessage
  {
    if arg.Some? && arg.value != "" then Ok(arg.value)
    else if "OPENAI_API_KEY" in env && env["OPENAI_API_KEY"] != "" then Ok(env["OPENAI_API_KEY"])
    else Err(MissingKeyMessage)
  }

  // ----- the Firecracker configuration -----

  /** The kernel command line: unlike the VM manager's, it carries the API key itself. */
  function LegacyBootArgs(key: string): string {
    "console=ttyS0 reboot=k panic=1 pci=off init=/ssl_agent.sh OPENAI_API_KEY=" + key
    + " VM_IP=172.50.0.2 GATEWAY_IP=172.50.0.1"
  }

  /**
   * `create_vm_config`: the same document the VM manager generates for the
   * same shared disk and TAP name, except for the boot arguments.
   */
  function CreateVmConfig(s: VmManager.Settings, key: string, vmId: string): (c: VmManager.VmConfig)
    ensures c == VmManager.GenerateVmConfig(s, VmManager.SharedDiskPath(vmId), VmManager.TapName(vmId)).(bootArgs := LegacyBootArgs(key))
  {
    VmManager.VmConfig(
      PathJoin(s.ubuntuImages, "vmlinux.bin"), LegacyBootArgs(key),
      [VmManager.Drive("rootfs", PathJoin(s.ubuntuImages, "ubuntu-rootfs.ext4"), true, false),
       VmManager.Drive("shared", VmManager.SharedDiskPath(vmId), false, false)],
      "tap" + vmId, s.vcpus, s.memoryMb, None)
  }

  /** The configuration names the TAP device, puts the root image first and the shared disk second, and copies the VM size. */
  lemma CreateVmConfigShape(s: VmManager.Settings, key: string, vmId: string)
    ensures var c := CreateVmConfig(s, key, vmId);
      && c.hostDevName == "tap" + vmId
      && |c.drives| == 2 && c.drives[0].isRootDevice && !c.drives[1].isRootDevice
      && c.drives[1].pathOnHost == "/tmp/shared-" + vmId + ".ext4"
      && c.vcpuCount == s.vcpus && c.memSizeMib == s.memoryMb
  {
  }

  // ----- networking -----

  const HostAddress := "172.50.0.1/24"
  const GuestNetwork := "172.50.0.0/24"

  /** The five interface commands of `setup_networking`, in order. */
  function InterfaceCommands(tap: string): seq<NetCommand> {
    [TunTapAdd(tap), AddrAdd(HostAddress, tap), SetMtu(tap), LinkUp(tap), SetForwarding(true)]
  }

  /** Exceptions neither handler of `setup_networking` catches. */
  datatype Escape = ValueErrorEscaped | OsErrorEscaped

  /** What `setup_networking` returned (or raised) and the commands it issued. */
  datatype NetSetup = NetSetup(result: Result<Option<string>, Escape>, issued: seq<NetCommand>)

  /**
   * The NAT part of `setup_networking`: its failures are only warnings, but
   * a command that cannot start and the parser's `ValueError` escape.
   */
  function NatStep(tap: string, host: Machine<NetCommand>): (r: NetSetup)
    ensures |r.issued| >= 1 && r.issued[0] == ShowDefaultRoute
    ensures r.result.Ok? ==> r.result.value == Some(tap)
    ensures r.result == Err(ValueErrorEscaped) <==>
              Succeeds(host, ShowDefaultRoute) && LegacyDefaultDevice(host(ShowDefaultRoute).stdout).Err?
  {
    match host(ShowDefaultRoute)
    case Unstartable => NetSetup(Err(OsErrorEscaped), [ShowDefaultRoute])
    case Completed(code, out) =>
      if code != 0 then NetSetup(Ok(Some(tap)), [ShowDefaultRoute])
      else
        match LegacyDefaultDevice(out)
        case Err(_) => NetSetup(Err(ValueErrorEscaped), [ShowDefaultRoute])
        case Ok(dev) =>
          if dev.None? || dev.value == "" then NetSetup(Ok(Some(tap)), [ShowDefaultRoute])
          else
            var rules := RunChecked(NatRules(Append, GuestNetwork, tap, dev.value), host);
            NetSetup(if rules.status == OsError then Err(OsErrorEscaped) else Ok(Some(tap)), [ShowDefaultRoute] + rules.issued)
  }

  /**
   * `setup_networking`: the TAP name once the interface is up, even when
   * NAT could not be configured; None when an interface command fails.
   */
  function SetupNetworking(vmId: string, host: Machine<NetCommand>): (r: NetSetup)
    ensures var run := RunChecked(InterfaceCommands("tap" + vmId), host);
      && |run.issued| <= |r.issued| && r.issued[..|run.issued|] == run.issued
      && (r.result == Ok(None) <==> run.status == CalledProcessError)
      && (r.result.Ok? && r.result.value.Some? ==> r.result.value.value == "tap" + vmId && run.status == AllSucceeded)
      && (r.result == Err(ValueErrorEscaped) <==>
            run.status == AllSucceeded && Succeeds(host, ShowDefaultRoute)
            && LegacyDefaultDevice(host(ShowDefaultRoute).stdout).Err?)
  {
    var tap := "tap" + vmId;
    var run := RunChecked(InterfaceCommands(tap), host);
    if run.status == OsError then NetSetup(Err(OsErrorEscaped), run.issued)
    else if run.status == CalledProcessError then NetSetup(Ok(None), run.issued)
    else
      var natStep := NatStep(tap, host);
      NetSetup(natStep.result, run.issued + natStep.issued)
  }

  /** NAT problems are only warnings: with the interface up, setup returns the TAP name whatever the rules do. */
  lemma SetupSurvivesNatFailure(vmId: string, host: Machine<NetCommand>)
    requires forall c :: host(c).Completed?
    requires forall k :: 0 <= k < 5 ==> Succeeds(host, InterfaceCommands("tap" + vmId)[k])
    requires Succeeds(host, ShowDefaultRoute) ==> LegacyDefaultDevice(host(ShowDefaultRoute).stdout).Ok?
    ensures SetupNetworking(vmId, host).result == Ok(Some("tap" + vmId))
  {
  }

  /** A command that only removes: the route query, a rule deletion or the interface deletion. */
  predicate Removes(c: NetCommand) {
    c.ShowDefaultRoute? || c.LinkDelete? || ((c.Masquerade? || c.ForwardOut? || c.ForwardIn?) && c.op == Delete)
  }

  /**
   * `cleanup_networking`: rule deletions and the interface deletion ignore
   * exit statuses, a failed route query only skips the rules, while an
   * `OSError` or the parser's `ValueError` reaches the outer handler and
   * skips the interface deletion too. It never raises.
   */
  function CleanupNetworking(tap: string, host: Machine<NetCommand>): (issued: seq<NetCommand>)
    ensures |issued| >= 1 && issued[0] == ShowDefaultRoute
    ensures forall k :: 0 <= k < |issued| ==> Removes(issued[k])
    ensures LinkDelete(tap) in issued ==> issued[|issued| - 1] == LinkDelete(tap)
    ensures Succeeds(host, ShowDefaultRoute) && LegacyDefaultDevice(host(ShowDefaultRoute).stdout).Err? ==>
              issued == [ShowDefaultRoute]
    ensures host(ShowDefaultRoute).Completed? && host(ShowDefaultRoute).code != 0 ==>
              issued == [ShowDefaultRoute, LinkDelete(tap)]
  {
    match host(ShowDefaultRoute)
    case Unstartable => [ShowDefaultRoute]
    case Completed(code, out) =>
      if code != 0 then [ShowDefaultRoute, LinkDelete(tap)]
      else
        match LegacyDefaultDevice(out)
        case Err(_) => [ShowDefaultRoute]
        case Ok(dev) =>
          if dev.None? || dev.value == "" then [ShowDefaultRoute, LinkDelete(tap)]
          else
            var rules := RunUnchecked(NatRules(Delete, GuestNetwork, tap, dev.value), host);
            DeletionsRemove(NatRules(Delete, GuestNetwork, tap, dev.value), |rules.issued|);
            if rules.status == OsError then [ShowDefaultRoute] + rules.issued
            else [ShowDefaultRoute] + rules.issued + [LinkDelete(tap)]
  }

  lemma DeletionsRemove(cmds: seq<NetCommand>, n: nat)
    requires n <= |cmds| && forall k :: 0 <= k < |cmds| ==> Removes(cmds[k])
    ensures forall k :: 0 <= k < n ==> Removes(cmds[..n][k])
  {
  }

  /**
   * On a host where every command works and the default route names
   * `iface`, setup creates the interface and appends the three NAT rules.
   */
  lemma SetupOnWorkingHost(vmId: string, host: Machine<NetCommand>, iface: string)
    requires forall c :: Succeeds(host, c)
    requires Succeeds(host, ShowDefaultRoute)
    requires iface != "" && LegacyDefaultDevice(host(ShowDefaultRoute).stdout) == Ok(Some(iface))
    ensures SetupNetworking(vmId, host)
            == NetSetup(Ok(Some("tap" + vmId)), InterfaceCommands("tap" + vmId) + [ShowDefaultRoute] + NatRules(Append, GuestNetwork, "tap" + vmId, iface))
  {
    var tap := "tap" + vmId;
    var rules := NatRules(Append, GuestNetwork, tap, iface);
    assert forall k :: 0 <= k < |InterfaceCommands(tap)| ==> Succeeds(host, InterfaceCommands(tap)[k]);
    assert forall k :: 0 <= k < |rules| ==> Succeeds(host, rules[k]);
    assert NatStep(tap, host) == NetSetup(Ok(Some(tap)), [ShowDefaultRoute] + rules);
  }

  /**
   * On the same host, clean-up deletes exactly the three rules setup
   * appended (the same rules, with `-D` for `-A`), then the interface.
   */
  lemma CleanupOnWorkingHost(tap: string, host: Machine<NetCommand>, iface: string)
    requires forall c :: Succeeds(host, c)
    requires Succeeds(host, ShowDefaultRoute)
    requires iface != "" && LegacyDefaultDevice(host(ShowDefaultRoute).stdout) == Ok(Some(iface))
    ensures CleanupNetworking(tap, host) == [ShowDefaultRoute] + NatRules(Delete, GuestNetwork, tap, iface) + [LinkDelete(tap)]
    ensures forall k :: 0 <= k < 3 ==>
              NatRules(Delete, GuestNetwork, tap, iface)[k] == NatRules(Append, GuestNetwork, tap, iface)[k].(op := Delete)
  {
    var rules := NatRules(Delete, GuestNetwork, tap, iface);
    assert forall k :: 0 <= k < |rules| ==> Succeeds(host, rules[k]);
  }

  /**
   * A route line that mentions "dev" only inside a longer word leaks the
   * interface: setup creates it and then raises, and clean-up raises before
   * deleting it.
   */
  lemma LegacyParseLeaksTap(vmId: string, host: Machine<NetCommand>)
    requires forall c :: Succeeds(host, c)
    requires Succeeds(host, ShowDefaultRoute)
    requires LegacyDefaultDevice(host(ShowDefaultRoute).stdout).Err?
    ensures SetupNetworking(vmId, host).result == Err(ValueErrorEscaped)
    ensures TunTapAdd("tap" + vmId) in SetupNetworking(vmId, host).issued
    ensures LinkDelete("tap" + vmId) !in CleanupNetworking("tap" + vmId, host)
  {
    var tap := "tap" + vmId;
    assert RunChecked(InterfaceCommands(tap), host).issued == InterfaceCommands(tap);
    assert SetupNetworking(vmId, host).issued[0] == TunTapAdd(tap);
  }

  // ----- stopping the process -----

  /** `terminate()` and `kill()` raise `PermissionError`: the only way out of `stop_vm` before it clears the process. */
  predicate Refuses(p: Proc) {
    p.live && p.onTerminate == Refused
  }

  /**
   * The requests `stop_vm` makes: terminate and wait; kill and wait again
   * when the wait times out. `Popen` does not signal a process it has seen
   * exit, so a process that is gone is terminated and waited for without
   * error. Only `TimeoutExpired` is caught, so a terminate that raises
   * (`PermissionError`, or `ProcessLookupError` for a process that vanished
   * while still counted as running) ends the requests.
   */
  function StopRequests(p: Proc): (r: seq<Request>)
    ensures |r| >= 1 && r[0] == Terminate
    ensures Kill in r <==> p.live && p.onTerminate == Lingers
    ensures r == [Terminate] <==> SignalRaises(p)
  {
    if !p.live then [Terminate, WaitFor]
    else
      match p.onTerminate
      case Exits => [Terminate, WaitFor]
      case Lingers => [Terminate, WaitFor, Kill, WaitFor]
      case AlreadyGone => [Terminate]
      case Refused => [Terminate]
  }

  /** A running process whose `terminate()` raises: it refuses the signal, or has vanished. */
  predicate SignalRaises(p: Proc) {
    p.live && (p.onTerminate == Refused || p.onTerminate == AlreadyGone)
  }

  /** For a running process that answers the signal, the orchestrator asks what the VM manager asks. */
  lemma StopRequestsMatchManager(p: Proc)
    requires p.live
    ensures StopRequests(p) == VmManager.TerminationRequests(p)
  {
  }

  // ----- tasks and results -----

  function TasksDir(s: VmManager.Settings): string { PathJoin(s.shared, "tasks") }
  function SharedResultsDir(s: VmManager.Settings): string { PathJoin(s.shared, "results") }
  function TaskFile(s: VmManager.Settings, taskId: string): string { PathJoin(TasksDir(s), taskId + ".json") }
  function ResultFile(s: VmManager.Settings, taskId: string): string { PathJoin(SharedResultsDir(s), taskId + ".json") }

  /** The task document the guest polls for. */
  function TaskDocument(taskId: string, instruction: string, now: int): Json {
    Obj([("task_id", Str(taskId)), ("description", Str(instruction)), ("timestamp", Int(now))])
  }

  /** What `submit_task` returns when no result appears in time. */
  function TimeoutResult(taskId: string): (r: Json)
    ensures r.Obj? && Truthy(r)
    ensures Get(r, "status") == Some(Str("timeout")) && Get(r, "task_id") == Some(Str(taskId))
    ensures Get(r, "error") == Some(Str("Task timed out"))
  {
    var fields := [("task_id", Str(taskId)), ("error", Str("Task timed out")), ("status", Str("timeout"))];
    LookupFirst(fields, 0, "task_id");
    LookupFirst(fields, 1, "error");
    LookupFirst(fields, 2, "status");
    Obj(fields)
  }

  // ----- result file names -----

  /** The characters the file-name filter keeps. */
  predicate Kept(c: char) {
    IsAlnum(c) || c == ' ' || c == '-' || c == '_'
  }

  /** The characters of a sanitised name. */
  predicate NameChar(c: char) {
    IsAlnum(c) || c == '-' || c == '_'
  }

  /** `"".join(c for c in s if c.isalnum() or c in (' ', '-', '_'))`. */
  function KeepNameChars(s: string): (r: string)
    ensures |r| <= |s|
    ensures forall i :: 0 <= i < |r| ==> Kept(r[i])
    ensures (forall i :: 0 <= i < |s| ==> Kept(s[i])) ==> r == s
    decreases |s|
  {
    if |s| == 0 then ""
    else (if Kept(s[0]) then [s[0]] else "") + KeepNameChars(s[1..])
  }

  /**
   * The task description as a file-name part: filtered, right-stripped,
   * spaces turned into underscores, cut to 50 characters. The result has
   * no separator, dot or space.
   */
  function SafeName(desc: string): (r: string)
    ensures |r| <= 50
    ensures forall i :: 0 <= i < |r| ==> NameChar(r[i])
  {
    Shorten(KeepNameChars(desc))
  }

  /** `.rstrip()`, `.replace(' ', '_')` and `[:50]` on the filtered text. */
  function Shorten(kept: string): (r: string)
    requires forall i :: 0 <= i < |kept| ==> Kept(kept[i])
    ensures |r| <= 50
    ensures forall i :: 0 <= i < |r| ==> NameChar(r[i])
  {
    var stripped := RStrip(kept);
    var joined := ReplaceChar(stripped, ' ', '_');
    assert forall i :: 0 <= i < |joined| ==> NameChar(joined[i]) by {
      forall i | 0 <= i < |joined| ensures NameChar(joined[i]) {
        assert stripped[i] == kept[i] && Kept(kept[i]);
      }
    }
    if |joined| <= 50 then joined else joined[..50]
  }

  /** An item the filter keeps: `c.isalnum() or c in (' ', '-', '_')` for a string `c`. */
  predicate KeptPiece(p: string) {
    (p != "" && forall i :: 0 <= i < |p| ==> IsAlnum(p[i])) || p == " " || p == "-" || p == "_"
  }

  /** `"".join(c for c in items if ...)` over the strings the description yields. */
  function KeepPieces(ps: seq<string>): (r: string)
    ensures forall i :: 0 <= i < |r| ==> Kept(r[i])
    decreases |ps|
  {
    if ps == [] then ""
    else
      var rest := KeepPieces(ps[1..]);
      var head := if KeptPiece(ps[0]) then ps[0] else "";
      assert forall i :: 0 <= i < |head| ==> Kept(head[i]);
      head + rest
  }

  /** The one-character strings of a text, as iterating it yields them. */
  function Chars(s: string): (r: seq<string>)
    ensures |r| == |s| && forall i :: 0 <= i < |s| ==> r[i] == [s[i]]
  {
    seq(|s|, i requires 0 <= i < |s| => [s[i]])
  }

  /**
   * What iterating the description yields: a text's characters, a list's
   * items and a dict's keys. None where Python raises: a value that is not
   * iterable (`TypeError`) or a list item that is not a string (it has no
   * `isalnum`).
   */
  function DescriptionPieces(d: Json): (r: Option<seq<string>>)
    ensures d.Str? ==> r == Some(Chars(d.s))
    ensures r.Some? <==> d.Str? || d.Obj? || (d.Arr? && forall i :: 0 <= i < |d.items| ==> d.items[i].Str?)
  {
    match d
    case Str(s) => Some(Chars(s))
    case Arr(items) =>
      if forall i :: 0 <= i < |items| ==> items[i].Str? then Some(seq(|items|, i requires 0 <= i < |items| => items[i].s))
      else None
    case Obj(fields) => Some(seq(|fields|, i requires 0 <= i < |fields| => fields[i].0))
    case _ => None
  }

  /** `safe_task` for any description value; None where building it raises. */
  function SafeTask(d: Json): (r: Option<string>)
    ensures r.Some? <==> DescriptionPieces(d).Some?
    ensures r.Some? ==> |r.value| <= 50 && forall i :: 0 <= i < |r.value| ==> NameChar(r.value[i])
  {
    match DescriptionPieces(d)
    case Some(ps) => Some(Shorten(KeepPieces(ps)))
    case None => None
  }

  /** Filtering a text's characters one by one is filtering the text. */
  lemma {:induction false} KeepCharsIsKeepNameChars(s: string)
    ensures KeepPieces(Chars(s)) == KeepNameChars(s)
    decreases |s|
  {
    if s != [] {
      assert Chars(s)[1..] == Chars(s[1..]);
      KeepCharsIsKeepNameChars(s[1..]);
      assert KeptPiece([s[0]]) <==> Kept(s[0]);
    }
  }

  /** For a text description, `safe_task` is the sanitised text. */
  lemma SafeTaskOfText(s: string)
    ensures SafeTask(Str(s)) == Some(SafeName(s))
  {
    KeepCharsIsKeepNameChars(s);
  }

  /**
   * A list description is filtered item by item: a list holding one
   * alphanumeric word names the file after that word, and an empty list
   * gives the empty name.
   */
  lemma ListDescriptionNames(w: string)
    requires w != [] && |w| <= 50 && forall i :: 0 <= i < |w| ==> IsAlnum(w[i])
    ensures SafeTask(Arr([Str(w)])) == Some(w)
    ensures SafeTask(Arr([])) == Some("")
  {
    var ps := DescriptionPieces(Arr([Str(w)])).value;
    assert ps == [w];
    assert KeptPiece(w);
    assert KeepPieces(ps) == w by {
      assert ps[1..] == [];
    }
    RStripWithoutSpace(w);
    assert ReplaceChar(w, ' ', '_') == w;
    assert DescriptionPieces(Arr([])).value == [];
  }

  /** A name that is already safe and short enough passes unchanged. */
  lemma SafeNameFixpoint(s: string)
    requires |s| <= 50 && forall i :: 0 <= i < |s| ==> NameChar(s[i])
    ensures SafeName(s) == s
  {
    assert KeepNameChars(s) == s;
    RStripWithoutSpace(s);
    assert ReplaceChar(s, ' ', '_') == s;
  }

  lemma RStripWithoutSpace(s: string)
    requires forall i :: 0 <= i < |s| ==> NameChar(s[i])
    ensures RStrip(s) == s
  {
    var kept := RStrip(s);
    if |s| > 0 {
      NameCharNotSpace(s[|s| - 1]);
    }
  }

  lemma NameCharNotSpace(c: char)
    requires NameChar(c)
    ensures !IsSpace(c)
  {
  }

  /** Sanitising is idempotent. */
  lemma SafeNameIdempotent(desc: string)
    ensures SafeName(SafeName(desc)) == SafeName(desc)
  {
    SafeNameFixpoint(SafeName(desc));
  }

  /** `result.get(key, default)`: a stored value wins, even None. */
  function GetOr(j: Json, key: string, default: Json): Json
    requires j.Obj?
  {
    match Get(j, key)
    case Some(v) => v
    case None => default
  }

  function ResultBase(result: Json): string
    requires result.Obj? && SafeTask(GetOr(result, "task_description", Str("unknown_task"))).Some?
  {
    PyStr(GetOr(result, "vm_id", Str("unknown"))) + "_" + SafeTask(GetOr(result, "task_description", Str("unknown_task"))).value
  }

  /** `results_dir / f"{vm_id}_{safe_task}.json"`. */
  function ResultPath(s: VmManager.Settings, result: Json): (r: string)
    requires result.Obj? && SafeTask(GetOr(result, "task_description", Str("unknown_task"))).Some?
    ensures |r| >= 5 && r[|r| - 5..] == ".json"
    ensures s.results <= r || r == ResultBase(result) + ".json"
  {
    PathJoin(s.results, ResultBase(result) + ".json")
  }

  /** A vm id that starts with a separator puts the record outside the results directory. */
  lemma AbsoluteVmIdLeavesResults(s: VmManager.Settings, result: Json)
    requires result.Obj? && SafeTask(GetOr(result, "task_description", Str("unknown_task"))).Some?
    requires Get(result, "vm_id").Some? && Get(result, "vm_id").value.Str?
    requires var v := Get(result, "vm_id").value.s; v != "" && v[0] == '/'
    ensures ResultPath(s, result) == ResultBase(result) + ".json"
  {
  }

  /** The record written: the result with `saved_to` and `saved_at` added. */
  function SavedCopy(result: Json, path: string, now: int): (r: Json)
    requires result.Obj?
    ensures r.Obj?
    ensures Get(r, "saved_to") == Some(Str(path)) && Get(r, "saved_at") == Some(Int(now))
    ensures forall k :: k != "saved_to" && k != "saved_at" ==> Get(r, k) == Get(result, k)
  {
    Set(Set(result, "saved_to", Str(path)), "saved_at", Int(now))
  }

  // ----- code extraction -----

  /** The extension for the code file: the first fence language found, else `txt`. */
  function CodeExtension(code: string): (ext: string)
    ensures ext in ["py", "js", "go", "sh", "txt"]
    ensures Contains(code, "```python") ==> ext == "py"
    ensures ext == "txt" <==> !Contains(code, "```python") && !Contains(code, "```javascript")
                              && !Contains(code, "```go") && !Contains(code, "```bash")
  {
    if Contains(code, "```python") then "py"
    else if Contains(code, "```javascript") then "js"
    else if Contains(code, "```go") then "go"
    else if Contains(code, "```bash") then "sh"
    else "txt"
  }

  /** The code file never replaces the result record written just before it. */
  lemma CodeFileDistinct(dir: string, base: string, code: string)
    ensures PathJoin(dir, base + "." + CodeExtension(code)) != PathJoin(dir, base + ".json")
  {
    var a := PathJoin(dir, base + "." + CodeExtension(code));
    var b := PathJoin(dir, base + ".json");
    assert b[|b| - 1] == 'n';
    assert a[|a| - 1] != 'n';
  }

  /** A line that opens or closes a fenced block. */
  predicate IsFence(line: string) {
    "```" <= line
  }

  /**
   * The lines inside fenced blocks, from a state where `inBlock` says
   * whether a block is open; fence lines themselves are dropped.
   */
  function Extracted(lines: seq<string>, inBlock: bool): seq<string>
    decreases |lines|
  {
    if |lines| == 0 then []
    else if IsFence(lines[0]) then Extracted(lines[1..], !inBlock)
    else (if inBlock then [lines[0]] else []) + Extracted(lines[1..], inBlock)
  }

  /** The extraction loop of `save_result_to_file`. */
  method ExtractCode(code: string) returns (out: seq<string>)
    ensures out == Extracted(Split(code, '\n'), false)
  {
    var lines := Split(code, '\n');
    out := [];
    var inBlock := false;
    var i := 0;
    while i < |lines|
      invariant 0 <= i <= |lines|
      invariant out + Extracted(lines[i..], inBlock) == Extracted(lines, false)
    {
      var line := lines[i];
      assert lines[i..][1..] == lines[i + 1..];
      if IsFence(line) {
        inBlock := !inBlock;
      } else {
        if inBlock {
          out := out + [line];
        }
      }
      i := i + 1;
    }
  }

  /** Every extracted line is a line of the text that is not a fence, and none is invented. */
  lemma {:induction false} ExtractedLines(lines: seq<string>, inBlock: bool)
    ensures |Extracted(lines, inBlock)| <= |lines|
    ensures forall k :: 0 <= k < |Extracted(lines, inBlock)| ==>
              Extracted(lines, inBlock)[k] in lines && !IsFence(Extracted(lines, inBlock)[k])
    decreases |lines|
  {
    if |lines| > 0 {
      var b := if IsFence(lines[0]) then !inBlock else inBlock;
      ExtractedLines(lines[1..], b);
      assert forall x :: x in lines[1..] ==> x in lines;
    }
  }

  /** `a` is `b` with some elements left out, the rest in their order. */
  predicate Subsequence<T(==)>(a: seq<T>, b: seq<T>)
    decreases |b|
  {
    a == [] || (b != [] && ((a[0] == b[0] && Subsequence(a[1..], b[1..])) || Subsequence(a, b[1..])))
  }

  /** The extracted lines keep the order they have in the text. */
  lemma {:induction false} ExtractedInOrder(lines: seq<string>, inBlock: bool)
    ensures Subsequence(Extracted(lines, inBlock), lines)
    decreases |lines|
  {
    if |lines| > 0 {
      var b := if IsFence(lines[0]) then !inBlock else inBlock;
      ExtractedInOrder(lines[1..], b);
      var out := Extracted(lines, inBlock);
      if !IsFence(lines[0]) && inBlock {
        assert out[0] == lines[0] && out[1..] == Extracted(lines[1..], b);
      } else {
        assert out == Extracted(lines[1..], b);
      }
    }
  }

  /** Without any fence line nothing is extracted outside a block, and everything inside one. */
  lemma {:induction false} ExtractedNoFence(lines: seq<string>, inBlock: bool)
    requires forall k :: 0 <= k < |lines| ==> !IsFence(lines[k])
    ensures Extracted(lines, inBlock) == if inBlock then lines else []
    decreases |lines|
  {
    if |lines| > 0 {
      ExtractedNoFence(lines[1..], inBlock);
      if inBlock {
        assert lines == [lines[0]] + lines[1..];
      }
    }
  }

  /** Fence-free lines in front extract independently of what follows. */
  lemma {:induction false} ExtractedAppend(pre: seq<string>, rest: seq<string>, inBlock: bool)
    requires forall k :: 0 <= k < |pre| ==> !IsFence(pre[k])
    ensures Extracted(pre + rest, inBlock) == Extracted(pre, inBlock) + Extracted(rest, inBlock)
    decreases |pre|
  {
    if |pre| == 0 {
      assert pre + rest == rest;
    } else {
      assert (pre + rest)[0] == pre[0] && (pre + rest)[1..] == pre[1..] + rest;
      ExtractedAppend(pre[1..], rest, inBlock);
      var head: seq<string> := if inBlock then [pre[0]] else [];
      assert Extracted(pre + rest, inBlock) == head + Extracted(pre[1..] + rest, inBlock);
      assert Extracted(pre, inBlock) == head + Extracted(pre[1..], inBlock);
    }
  }

  /** One fenced block, after text without fences: exactly its body is extracted. */
  lemma OneFencedBlock(pre: seq<string>, open: string, body: seq<string>, close: string, post: seq<string>)
    requires forall k :: 0 <= k < |pre| ==> !IsFence(pre[k])
    requires forall k :: 0 <= k < |body| ==> !IsFence(body[k])
    requires IsFence(open) && IsFence(close)
    ensures Extracted(pre + [open] + body + [close] + post, false) == body + Extracted(post, false)
  {
    var tail := [close] + post;
    assert pre + [open] + body + [close] + post == pre + ([open] + (body + tail));
    ExtractedAppend(pre, [open] + (body + tail), false);
    ExtractedNoFence(pre, false);
    assert ([open] + (body + tail))[1..] == body + tail;
    ExtractedAppend(body, tail, true);
    ExtractedNoFence(body, true);
    assert tail[1..] == post;
  }

  /** The code file, split at newlines, gives back exactly the extracted lines. */
  lemma CodeFileReadsBack(code: string)
    requires Extracted(Split(code, '\n'), false) != []
    ensures Split(Join(Extracted(Split(code, '\n'), false), "\n"), '\n') == Extracted(Split(code, '\n'), false)
  {
    var lines := Split(code, '\n');
    var out := Extracted(lines, false);
    ExtractedLines(lines, false);
    forall k | 0 <= k < |out| ensures '\n' !in out[k] {
      var j :| 0 <= j < |lines| && lines[j] == out[k];
    }
    SplitJoin(out, '\n');
  }

  /** What `save_result_to_file` does with a result before any file is written. */
  predicate SkipsSave(result: Json) {
    !Truthy(result) || (result.Obj? && Get(result, "status") == Some(Str("timeout")))
  }

  /**
   * A result that reaches the writing step: a dict, not timed out, whose
   * description can be iterated into a name (a text, a dict, or a list of
   * texts).
   */
  predicate SavesResult(result: Json) {
    !SkipsSave(result) && result.Obj? && SafeTask(GetOr(result, "task_description", Str("unknown_task"))).Some?
  }

  /** What `submit_task` returns on a timeout is never saved. */
  lemma TimeoutNotSaved(taskId: string)
    ensures SkipsSave(TimeoutResult(taskId))
  {
  }

  /** The generated code, when it is a non-empty string. */
  predicate HasCode(result: Json) {
    result.Obj? && Get(result, "generated_code").Some? && Get(result, "generated_code").value.Str?
    && Get(result, "generated_code").value.s != ""
  }

  /** Why `start_vm` did not return a flag. */
  datatype StartError =
    | NetworkRaised(escape: Escape)  // escaped from `setup_networking`
    | NetworkingFailed                // `Exception("Failed to set up VM networking")`
    | DiskFailed                      // a shared-disk command failed, after the interface was set up
    | ConfigNotWritten                // opening the configuration file raised

  /** How `Popen` went: the child (running or already exited when polled), or an exception. */
  datatype Launch = Spawned(p: Proc) | SpawnFailed

  /** The file that receives the child's standard output. */
  function VmLogPath(vmId: string): string {
    "/tmp/vm-" + vmId + ".log"
  }

  /** The file that receives the child's standard error. */
  function VmErrPath(vmId: string): string {
    "/tmp/vm-" + vmId + ".err"
  }

  /**
   * Whether `start_vm`'s launch yields a child: both output files open for
   * writing and `Popen` returns; otherwise an exception reaches the handler.
   */
  predicate Started(failing: set<string>, vmId: string, launch: Launch) {
    VmLogPath(vmId) !in failing && VmErrPath(vmId) !in failing && launch.Spawned?
  }

  /**
   * The files once `start_vm` has opened the output files for writing: the
   * log is emptied, then the error file, unless opening the log raised.
   */
  function OutputFiles(files: map<string, Content>, failing: set<string>, vmId: string): map<string, Content> {
    if VmLogPath(vmId) in failing then files
    else Written(files[VmLogPath(vmId) := Text("")], failing, VmErrPath(vmId), Text(""))
  }

  /**
   * Opening the output files touches them and nothing else; a child starts
   * only once both were emptied.
   */
  lemma OutputFilesMeaning(files: map<string, Content>, failing: set<string>, vmId: string, launch: Launch)
    ensures var after := OutputFiles(files, failing, vmId);
      && (forall f :: f != VmLogPath(vmId) && f != VmErrPath(vmId) ==> (f in after <==> f in files) && (f in files ==> after[f] == files[f]))
      && (Started(failing, vmId, launch) ==> after[VmLogPath(vmId)] == Text("") && after[VmErrPath(vmId)] == Text(""))
      && (VmLogPath(vmId) in failing ==> after == files)
  {
    assert VmLogPath(vmId) != VmErrPath(vmId) by {
      var n := |"/tmp/vm-" + vmId|;
      assert VmLogPath(vmId)[n + 1] == 'l' && VmErrPath(vmId)[n + 1] == 'e';
    }
  }

  datatype StopError = PermissionDenied | ProcessGone | SocketNotRemoved

  datatype SubmitError = TaskNotWritten | ResultNotRemoved

  /** The host steps of `submit_task`'s copy of the task file onto a VM's shared disk. */
  datatype ShareStep =
    | MakeDir(dir: string)
    | Mount(disk: string, at: string)
    | CopyFile(src: string, dst: string)
    | Unmount(at: string)
    | RemoveDir(dir: string)

  function SharedDiskPath(vmId: string): string { "/tmp/shared-" + vmId + ".ext4" }
  function MountPoint(vmId: string): string { "/tmp/shared-mount-" + vmId }

  /**
   * The copy for a truthy `vm_id`: make the mount point, mount the VM's
   * disk on it and copy the task file into its `tasks` directory, then
   * always unmount and remove the mount point. A failed mount (or copy) is
   * caught and reported; the unmount still follows.
   */
  function ShareSteps(taskFile: string, taskId: string, vmId: Option<string>, mounted: bool): seq<ShareStep> {
    if vmId.None? || vmId.value == "" then []
    else
      var at := MountPoint(vmId.value);
      [MakeDir(at), Mount(SharedDiskPath(vmId.value), at)]
      + (if mounted then [CopyFile(taskFile, PathJoin(PathJoin(at, "tasks"), taskId + ".json"))] else [])
      + [Unmount(at), RemoveDir(at)]
  }

  /**
   * Without a vm id nothing is copied; with one, its disk is mounted and
   * the mount always undone, and the task file is copied, under its own
   * name, exactly when the mount succeeded.
   */
  lemma ShareStepsUndoMount(taskFile: string, taskId: string, vmId: Option<string>, mounted: bool)
    ensures var steps := ShareSteps(taskFile, taskId, vmId, mounted);
      && (steps == [] <==> vmId.None? || vmId.value == "")
      && (steps != [] ==>
            var at := MountPoint(vmId.value);
            && steps[..2] == [MakeDir(at), Mount(SharedDiskPath(vmId.value), at)]
            && steps[|steps| - 2..] == [Unmount(at), RemoveDir(at)]
            && (mounted <==> exists dst :: CopyFile(taskFile, dst) in steps)
            && (mounted ==> var dst := steps[2].dst; |dst| >= |taskId| + 5 && dst[|dst| - |taskId| - 5..] == taskId + ".json"))
  {
    var steps := ShareSteps(taskFile, taskId, vmId, mounted);
    if steps != [] && mounted {
      assert steps[2] == CopyFile(taskFile, PathJoin(PathJoin(MountPoint(vmId.value), "tasks"), taskId + ".json"));
    }
  }

  class Orchestrator {
    const settings: VmManager.Settings
    const apiKey: string
    const fs: FileSystem
    /** `vm_process`: the one Firecracker child, if any. */
    var vmProcess: Option<Proc>
    /** `vm_socket`: the API socket path of the last start. */
    var vmSocket: Option<string>

    /** Construction once `ResolveApiKey` has found a key; without one it raises instead. */
    constructor (settings: VmManager.Settings, arg: Option<string>, env: Environment, fs: FileSystem)
      requires ResolveApiKey(arg, env).Ok?
      ensures this.settings == settings && this.fs == fs && apiKey == ResolveApiKey(arg, env).value
      ensures vmProcess.None? && vmSocket.None?
    {
      this.settings := settings;
      this.fs := fs;
      apiKey := ResolveApiKey(arg, env).value;
      vmProcess := None;
      vmSocket := None;
    }

    /**
     * `start_vm`: networking, shared disk and configuration file first, any
     * failure there escaping; then the launch, where an exception cleans up
     * the network and gives false, and a child that has already exited
     * gives false with no clean-up.
     */
    method StartVm(vmId: string, host: Machine<NetCommand>, diskOk: bool, launch: Launch)
      returns (r: Result<bool, StartError>, issued: seq<NetCommand>)
      modifies this, fs
      ensures r == Err(NetworkingFailed) <==> SetupNetworking(vmId, host).result == Ok(None)
      ensures r.Err? && r.error.NetworkRaised? <==> SetupNetworking(vmId, host).result.Err?
      ensures r.Err? && r.error.NetworkRaised? ==> r.error.escape == SetupNetworking(vmId, host).result.error
      ensures r == Err(DiskFailed) <==> SetupNetworking(vmId, host).result == Ok(Some("tap" + vmId)) && !diskOk
      ensures r.Ok? <==> SetupNetworking(vmId, host).result == Ok(Some("tap" + vmId)) && diskOk && VmManager.ConfigPath(vmId) !in fs.failing
      ensures r.Ok? ==> (r.value <==> Started(fs.failing, vmId, launch) && launch.p.live)
      ensures issued == SetupNetworking(vmId, host).issued
                        + (if r.Ok? && !Started(fs.failing, vmId, launch) then CleanupNetworking("tap" + vmId, host) else [])
      ensures r.Err? ==> fs.files == old(fs.files) && vmProcess == old(vmProcess) && vmSocket == old(vmSocket)
      ensures r.Ok? ==>
        && fs.files == OutputFiles(old(fs.files)[VmManager.ConfigPath(vmId) := Document(VmManager.ConfigJson(CreateVmConfig(settings, apiKey, vmId)))],
                                   fs.failing, vmId)
        && vmSocket == Some(VmManager.SocketPath(vmId))
        && vmProcess == if Started(fs.failing, vmId, launch) then Some(launch.p) else old(vmProcess)
    {
      var net := SetupNetworking(vmId, host);
      issued := net.issued;
      if net.result.Err? {
        return Err(NetworkRaised(net.result.error)), issued;
      }
      if net.result.value.None? {
        return Err(NetworkingFailed), issued;
      }
      var more;
      r, more := StartOnNetwork(vmId, host, diskOk, launch);
      issued := issued + more;
    }

    /** `start_vm` once `setup_networking` has returned the TAP name: disk, configuration, launch. */
    method StartOnNetwork(vmId: string, host: Machine<NetCommand>, diskOk: bool, launch: Launch)
      returns (r: Result<bool, StartError>, issued: seq<NetCommand>)
      modifies this, fs
      ensures r == Err(DiskFailed) <==> !diskOk
      ensures r.Ok? <==> diskOk && VmManager.ConfigPath(vmId) !in fs.failing
      ensures r.Err? ==> r.error == DiskFailed || r.error == ConfigNotWritten
      ensures r.Ok? ==> (r.value <==> Started(fs.failing, vmId, launch) && launch.p.live)
      ensures issued == if r.Ok? && !Started(fs.failing, vmId, launch) then CleanupNetworking("tap" + vmId, host) else []
      ensures r.Err? ==> fs.files == old(fs.files) && vmProcess == old(vmProcess) && vmSocket == old(vmSocket)
      ensures r.Ok? ==>
        && fs.files == OutputFiles(old(fs.files)[VmManager.ConfigPath(vmId) := Document(VmManager.ConfigJson(CreateVmConfig(settings, apiKey, vmId)))],
                                   fs.failing, vmId)
        && vmSocket == Some(VmManager.SocketPath(vmId))
        && vmProcess == if Started(fs.failing, vmId, launch) then Some(launch.p) else old(vmProcess)
    {
      issued := [];
      if !diskOk {
        return Err(DiskFailed), issued;
      }
      var launched := WriteConfigAndLaunch(vmId, launch);
      if launched.Err? {
        return Err(ConfigNotWritten), issued;
      }
      r := Ok(launched.value);
      if !Started(fs.failing, vmId, launch) {
        issued := CleanupNetworking("tap" + vmId, host);
      }
    }

    /**
     * The second half of `start_vm`, once the network and the disk are
     * ready: write the configuration, open the two output files, then
     * launch; false where opening a file or the launch raised, or the child
     * has already exited.
     */
    method WriteConfigAndLaunch(vmId: string, launch: Launch) returns (r: Result<bool, ()>)
      modifies this, fs
      ensures r.Ok? <==> VmManager.ConfigPath(vmId) !in fs.failing
      ensures r.Ok? ==> (r.value <==> Started(fs.failing, vmId, launch) && launch.p.live)
      ensures r.Err? ==> fs.files == old(fs.files) && vmProcess == old(vmProcess) && vmSocket == old(vmSocket)
      ensures r.Ok? ==>
        && fs.files == OutputFiles(old(fs.files)[VmManager.ConfigPath(vmId) := Document(VmManager.ConfigJson(CreateVmConfig(settings, apiKey, vmId)))],
                                   fs.failing, vmId)
        && vmSocket == Some(VmManager.SocketPath(vmId))
        && vmProcess == if Started(fs.failing, vmId, launch) then Some(launch.p) else old(vmProcess)
    {
      var config := CreateVmConfig(settings, apiKey, vmId);
      var ok := fs.Write(VmManager.ConfigPath(vmId), Document(VmManager.ConfigJson(config)));
      if !ok {
        return Err(());
      }
      vmSocket := Some(VmManager.SocketPath(vmId));
      var logOpened := fs.Write(VmLogPath(vmId), Text(""));
      if !logOpened {
        return Ok(false);
      }
      var errOpened := fs.Write(VmErrPath(vmId), Text(""));
      if !errOpened {
        return Ok(false);
      }
      match launch
      case SpawnFailed =>
        r := Ok(false);
      case Spawned(p) =>
        vmProcess := Some(p);
        r := Ok(p.live);
    }

    /**
     * `stop_vm`: terminate (and kill) the child, forget it, clean up the
     * network for `"tap" + vm_id` and remove the socket if it exists. A
     * terminate that raises (a refused signal, or a process that vanished)
     * escapes before anything changes, as does a socket that cannot be
     * removed after the clean-up.
     */
    method StopVm(vmId: string, host: Machine<NetCommand>)
      returns (r: Result<(), StopError>, requests: seq<Request>, issued: seq<NetCommand>)
      modifies this, fs
      ensures requests == if old(vmProcess).Some? then StopRequests(old(vmProcess).value) else []
      ensures r == Err(PermissionDenied) <==> old(vmProcess).Some? && Refuses(old(vmProcess).value)
      ensures r == Err(ProcessGone) <==> old(vmProcess).Some? && old(vmProcess).value.live
                                         && old(vmProcess).value.onTerminate == AlreadyGone
      ensures r == Err(PermissionDenied) || r == Err(ProcessGone) ==>
        vmProcess == old(vmProcess) && issued == [] && fs.files == old(fs.files)
      ensures r != Err(PermissionDenied) && r != Err(ProcessGone) ==>
        vmProcess.None? && issued == CleanupNetworking("tap" + vmId, host)
      ensures var present := vmSocket.Some? && vmSocket.value != "" && vmSocket.value in old(fs.files);
        && (r == Err(SocketNotRemoved) <==> r != Err(PermissionDenied) && r != Err(ProcessGone)
                                            && present && vmSocket.value in fs.failing)
        && (r.Ok? ==> fs.files == if present then old(fs.files) - {vmSocket.value} else old(fs.files))
        && (r == Err(SocketNotRemoved) ==> fs.files == old(fs.files))
      ensures vmSocket == old(vmSocket)
    {
      requests := [];
      issued := [];
      if vmProcess.Some? {
        var p := vmProcess.value;
        requests := StopRequests(p);
        if Refuses(p) {
          return Err(PermissionDenied), requests, issued;
        }
        if p.live && p.onTerminate == AlreadyGone {
          return Err(ProcessGone), requests, issued;
        }
        vmProcess := None;
      }
      issued := CleanupNetworking("tap" + vmId, host);
      r := Ok(());
      if vmSocket.Some? && vmSocket.value != "" && vmSocket.value in fs.files {
        var ok := fs.Remove(vmSocket.value);
        if !ok {
          r := Err(SocketNotRemoved);
        }
      }
    }

    /** `unlink(missing_ok=True)`: false where it raises. */
    method UnlinkMissingOk(path: string) returns (ok: bool)
      modifies fs
      ensures ok <==> path !in old(fs.files) || path !in fs.failing
      ensures fs.files == if ok then old(fs.files) - {path} else old(fs.files)
    {
      ok := true;
      if path in fs.files {
        ok := fs.Remove(path);
      }
    }

    /**
     * The file exchange of `submit_task` for the task file `taskFile` and
     * the result file `resultFile`: the task is written, the guest writes
     * `arrived` (if anything) as the first step of the wait, then the files
     * are unlinked.
     */
    method Exchange(taskFile: string, resultFile: string, task: Json, arrived: Option<Json>, timeout: Json)
      returns (r: Result<Json, SubmitError>)
      modifies fs
      ensures r == Err(TaskNotWritten) <==> taskFile in fs.failing
      ensures r == Err(TaskNotWritten) ==> fs.files == old(fs.files)
      ensures r == Err(ResultNotRemoved) <==> taskFile !in fs.failing && arrived.Some? && resultFile in fs.failing
      ensures r == Err(ResultNotRemoved) ==>
                fs.files == old(fs.files)[taskFile := Document(task)][resultFile := Document(arrived.value)] - {taskFile}
      ensures r.Ok? && arrived.Some? ==> r.value == arrived.value && fs.files == old(fs.files) - {taskFile, resultFile}
      ensures r.Ok? && arrived.None? ==> r.value == timeout && fs.files == old(fs.files) - {taskFile}
    {
      var ok := fs.Write(taskFile, Document(task));
      if !ok {
        return Err(TaskNotWritten);
      }
      match arrived
      case Some(result) =>
        fs.files := fs.files[resultFile := Document(result)];
        ok := UnlinkMissingOk(taskFile);
        ok := UnlinkMissingOk(resultFile);
        if !ok {
          return Err(ResultNotRemoved);
        }
        return Ok(result);
      case None =>
        ok := UnlinkMissingOk(taskFile);
        return Ok(timeout);
    }

    /**
     * `submit_task` with the id `taskId` and clock reading `now`. `arrived`
     * is what the guest wrote to the result file before the timeout, if
     * anything; `mounted` is whether mounting the VM's shared disk succeeds.
     * Once the task file is written it is copied onto the disk of `vmId`,
     * if given. A result that arrives removes both files; a timeout removes
     * the task file and returns the timeout record.
     */
    method SubmitTask(instruction: string, taskId: string, vmId: Option<string>, now: int, arrived: Option<Json>, mounted: bool)
      returns (r: Result<Json, SubmitError>, steps: seq<ShareStep>)
      modifies fs
      ensures steps == if TaskFile(settings, taskId) in fs.failing then [] else ShareSteps(TaskFile(settings, taskId), taskId, vmId, mounted)
      ensures var taskFile := TaskFile(settings, taskId); var resultFile := ResultFile(settings, taskId);
        && (r == Err(TaskNotWritten) <==> taskFile in fs.failing)
        && (r == Err(TaskNotWritten) ==> fs.files == old(fs.files))
        && (r == Err(ResultNotRemoved) <==> taskFile !in fs.failing && arrived.Some? && resultFile in fs.failing)
        && (r == Err(ResultNotRemoved) ==>
              fs.files == old(fs.files)[taskFile := Document(TaskDocument(taskId, instruction, now))][resultFile := Document(arrived.value)] - {taskFile})
        && (r.Ok? && arrived.Some? ==> r.value == arrived.value && fs.files == old(fs.files) - {taskFile, resultFile})
        && (r.Ok? && arrived.None? ==> r.value == TimeoutResult(taskId) && fs.files == old(fs.files) - {taskFile})
    {
      r := Exchange(TaskFile(settings, taskId), ResultFile(settings, taskId), TaskDocument(taskId, instruction, now), arrived, TimeoutResult(taskId));
      steps := if r == Err(TaskNotWritten) then [] else ShareSteps(TaskFile(settings, taskId), taskId, vmId, mounted);
    }

    /**
     * `save_result_to_file` at clock reading `now`. Returns true where an
     * exception escapes: a truthy result that is not a dict, or a
     * description that cannot be iterated into a name. Write failures are caught: a failed
     * record write also skips the code file.
     */
    method SaveResultToFile(result: Json, now: int) returns (raised: bool)
      modifies fs
      ensures raised <==> !SkipsSave(result) && !SavesResult(result)
      ensures !SavesResult(result) ==> fs.files == old(fs.files)
      ensures SavesResult(result) ==>
        var path := ResultPath(settings, result);
        var afterRecord := if path in fs.failing then old(fs.files) else old(fs.files)[path := Document(SavedCopy(result, path, now))];
        var code := Get(result, "generated_code");
        var lines := if HasCode(result) then Extracted(Split(code.value.s, '\n'), false) else [];
        var codePath := if HasCode(result) then PathJoin(settings.results, ResultBase(result) + "." + CodeExtension(code.value.s)) else "";
        fs.files == if path !in fs.failing && lines != [] && codePath !in fs.failing
                    then afterRecord[codePath := Text(Join(lines, "\n"))] else afterRecord
    {
      if SkipsSave(result) {
        return false;
      }
      if !SavesResult(result) {
        return true;
      }
      raised := false;
      var path := ResultPath(settings, result);
      var ok := fs.Write(path, Document(SavedCopy(result, path, now)));
      if !ok {
        return;
      }
      if HasCode(result) {
        var code := Get(result, "generated_code").value.s;
        var ext := CodeExtension(code);
        var lines := ExtractCode(code);
        if lines != [] {
          var codePath := PathJoin(settings.results, ResultBase(result) + "." + ext);
          ok := fs.Write(codePath, Text(Join(lines, "\n")));
        }
      }
    }
  }
}
