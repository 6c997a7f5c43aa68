/**
 * The VM launcher wrapper (launcher.py): picks the program that will run the
 * VM (the jailer, the development launch script, or a placeholder sleep),
 * spawns it with its output captured under the results directory, and
 * records its pid; stopping it is best effort and never raises.
 */
module Launcher {
  import opened Wrappers
  import opened Text
  import opened Files
  import opened Process

  const DevLauncher := ".specify/scripts/launch_firecracker_without_jailer.sh"

  /**
   * The command `start_launcher` spawns. `jailer` is what `shutil.which`
   * found, consulted only when the jailer is wanted; `devLauncherExists`
   * says whether the development script is present.
   */
  function LauncherCommand(vmId: string, configPath: string, useJailer: bool, jailer: Option<string>,
                           devLauncherExists: bool, extraArgs: seq<string>): (r: seq<string>)
    ensures |r| >= 2
    ensures r == ["/bin/sleep", "60"] || (vmId in r && configPath in r)
  {
    if useJailer && jailer.Some? then [jailer.value, "--vm-id", vmId, "--config", configPath]
    else if devLauncherExists then [DevLauncher, vmId, configPath] + extraArgs
    else ["/bin/sleep", "60"]
  }

  /** The three commands, and which inputs decide between them. */
  lemma LauncherCommandChoice(vmId: string, configPath: string, useJailer: bool, jailer: Option<string>,
                              devLauncherExists: bool, extraArgs: seq<string>)
    ensures var cmd := LauncherCommand(vmId, configPath, useJailer, jailer, devLauncherExists, extraArgs);
      && (useJailer && jailer.Some? ==> cmd[0] == jailer.value && cmd[1..] == ["--vm-id", vmId, "--config", configPath])
      && (!(useJailer && jailer.Some?) && devLauncherExists ==>
            cmd[..3] == [DevLauncher, vmId, configPath] && cmd[3..] == extraArgs)
      && (!(useJailer && jailer.Some?) && !devLauncherExists ==> cmd == ["/bin/sleep", "60"])
  {
  }

  /** Without `use_jailer` the lookup result plays no part. */
  lemma JailerOnlyWhenWanted(vmId: string, configPath: string, jailer1: Option<string>, jailer2: Option<string>,
                             devLauncherExists: bool, extraArgs: seq<string>)
    ensures LauncherCommand(vmId, configPath, false, jailer1, devLauncherExists, extraArgs)
         == LauncherCommand(vmId, configPath, false, jailer2, devLauncherExists, extraArgs)
  {
  }

  /** The extra arguments reach only the development script. */
  lemma ExtraArgsOnlyForDevLauncher(vmId: string, configPath: string, useJailer: bool, jailer: Option<string>,
                                    devLauncherExists: bool, extra1: seq<string>, extra2: seq<string>)
    requires (useJailer && jailer.Some?) || !devLauncherExists
    ensures LauncherCommand(vmId, configPath, useJailer, jailer, devLauncherExists, extra1)
         == LauncherCommand(vmId, configPath, useJailer, jailer, devLauncherExists, extra2)
  {
  }

  /** The results directory of a VM and the three files the launcher leaves in it. */
  function ResultsDir(resultsRoot: string, vmId: string): string {
    PathJoin(resultsRoot, vmId)
  }

  function OutPath(dir: string): string { PathJoin(dir, "launcher.out") }
  function ErrPath(dir: string): string { PathJoin(dir, "launcher.err") }
  function PidPath(dir: string): string { PathJoin(dir, "launcher.pid") }

  /** Why `start_launcher` raised. */
  datatype LaunchError = CannotOpenLog | SpawnFailed | CannotWritePid

  /** The pid file holds the decimal pid, and reads back as that number. */
  lemma PidTextReadsBack(pid: nat)
    ensures AllDigits(NatToString(pid)) && DigitsValue(NatToString(pid)) == pid
  {
    NatToStringValue(pid);
  }

  /**
   * What `start_launcher` returns or raises: a log file that cannot be
   * opened, then a failed spawn, then a pid file that cannot be written.
   */
  function LaunchResult(failing: set<string>, dir: string, spawned: Option<Proc>): Result<(Proc, string), LaunchError> {
    if OutPath(dir) in failing || ErrPath(dir) in failing then Err(CannotOpenLog)
    else if spawned.None? then Err(SpawnFailed)
    else if PidPath(dir) in failing then Err(CannotWritePid)
    else Ok((spawned.value, dir))
  }

  /** The files `start_launcher` leaves: the two emptied logs and the pid file, as far as it got. */
  function LaunchFiles(files: map<string, Content>, failing: set<string>, dir: string, spawned: Option<Proc>)
    : map<string, Content>
  {
    if OutPath(dir) in failing then files
    else if ErrPath(dir) in failing then files[OutPath(dir) := Text("")]
    else if spawned.None? then files[OutPath(dir) := Text("")][ErrPath(dir) := Text("")]
    else Written(files[OutPath(dir) := Text("")][ErrPath(dir) := Text("")], failing, PidPath(dir), Text(NatToString(spawned.value.pid)))
  }

  /**
   * The launch succeeds exactly when the process spawned and its three
   * files could be written; it then leaves the empty logs and the pid.
   * Only those three files ever change, and the pid file is written only
   * for a process that exists.
   */
  lemma LaunchMeaning(files: map<string, Content>, failing: set<string>, dir: string, spawned: Option<Proc>)
    ensures var r := LaunchResult(failing, dir, spawned);
      var after := LaunchFiles(files, failing, dir, spawned);
      && (r.Ok? <==> spawned.Some? && OutPath(dir) !in failing && ErrPath(dir) !in failing && PidPath(dir) !in failing)
      && (r.Ok? ==> && after[OutPath(dir)] == Text("") && after[ErrPath(dir)] == Text("")
                    && after[PidPath(dir)] == Text(NatToString(r.value.0.pid)))
      && (forall p :: p != OutPath(dir) && p != ErrPath(dir) && p != PidPath(dir) ==>
            (p in after <==> p in files) && (p in after ==> after[p] == files[p]))
      && (spawned.None? ==> && (PidPath(dir) in after <==> PidPath(dir) in files)
                            && (PidPath(dir) in after ==> after[PidPath(dir)] == files[PidPath(dir)]))
  {
    var out, err, pid := OutPath(dir), ErrPath(dir), PidPath(dir);
    assert out[|out| - 1] == 't' && err[|err| - 1] == 'r' && pid[|pid| - 1] == 'd';
  }

  /**
   * `start_launcher`: chooses the command, truncates the two log files,
   * spawns the process (`spawned` is what `Popen` produced, None where it
   * raised) and writes its pid; returns the process and the results
   * directory.
   */
  method StartLauncher(fs: FileSystem, vmId: string, configPath: string, resultsRoot: string, useJailer: bool,
                       jailer: Option<string>, extraArgs: seq<string>, spawned: Option<Proc>)
    returns (r: Result<(Proc, string), LaunchError>, cmd: seq<string>)
    modifies fs
    ensures cmd == LauncherCommand(vmId, configPath, useJailer, jailer, DevLauncher in old(fs.files), extraArgs)
    ensures var dir := ResultsDir(resultsRoot, vmId);
      && r == LaunchResult(fs.failing, dir, spawned)
      && fs.files == LaunchFiles(old(fs.files), fs.failing, dir, spawned)
    ensures var dir := ResultsDir(resultsRoot, vmId);
      && (r.Ok? <==> spawned.Some? && OutPath(dir) !in fs.failing && ErrPath(dir) !in fs.failing && PidPath(dir) !in fs.failing)
      && (r.Ok? ==> r.value == (spawned.value, dir))
  {
    cmd := LauncherCommand(vmId, configPath, useJailer, jailer, DevLauncher in fs.files, extraArgs);
    var dir := ResultsDir(resultsRoot, vmId);
    var ok := fs.Write(OutPath(dir), Text(""));
    if !ok {
      return Err(CannotOpenLog), cmd;
    }
    ok := fs.Write(ErrPath(dir), Text(""));
    if !ok {
      return Err(CannotOpenLog), cmd;
    }
    if spawned.None? {
      return Err(SpawnFailed), cmd;
    }
    var proc := spawned.value;
    ok := fs.Write(PidPath(dir), Text(NatToString(proc.pid)));
    if !ok {
      return Err(CannotWritePid), cmd;
    }
    r := Ok((proc, dir));
  }

  /**
   * What `stop_launcher` asks of the process: a live process is terminated
   * and waited for five seconds; if either step raises, it is killed.
   */
  function StopRequests(p: Proc): seq<Request> {
    if !p.live then []
    else
      match p.onTerminate
      case Exits => [Terminate, WaitFor]
      case Lingers => [Terminate, WaitFor, Kill]
      case AlreadyGone => [Terminate, Kill]
      case Refused => [Terminate, Kill]
  }

  /** The process after `stop_launcher`: gone unless the system refused both signals. */
  function AfterStop(p: Proc): Proc {
    p.(live := p.live && p.onTerminate == Refused)
  }

  /** Only a live process is signalled; a kill follows exactly when a graceful stop did not work. */
  lemma StopRequestsMeaning(p: Proc)
    ensures StopRequests(p) == [] <==> !p.live
    ensures p.live ==> StopRequests(p)[0] == Terminate
    ensures (Kill in StopRequests(p)) <==> p.live && p.onTerminate != Exits
    ensures !AfterStop(p).live <==> !p.live || p.onTerminate != Refused
  {
  }

  /**
   * `stop_launcher`: signals the process as above and removes the pid file if
   * it exists; it never raises, and no other file changes.
   */
  method StopLauncher(fs: FileSystem, p: Proc, dir: string) returns (requests: seq<Request>, after: Proc)
    modifies fs
    ensures requests == StopRequests(p) && after == AfterStop(p)
    ensures fs.files == if PidPath(dir) in old(fs.files) && PidPath(dir) !in fs.failing
                        then old(fs.files) - {PidPath(dir)} else old(fs.files)
  {
    requests := StopRequests(p);
    after := AfterStop(p);
    if PidPath(dir) in fs.files {
      var _ := fs.Remove(PidPath(dir));
    }
  }
}
