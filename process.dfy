/**
 * A spawned child process (`subprocess.Popen`) as its owner sees it: its
 * pid, whether `poll()` still reports it running, and how it answers
 * `terminate()`. Which of these holds is decided by the operating system,
 * so it is a parameter of every operation that stops a process.
 */
module Process {
  datatype TerminateReply =
    | Exits        // terminates, and `wait(timeout)` returns in time
    | Lingers      // survives the signal: `wait(timeout)` raises `TimeoutExpired`
    | AlreadyGone  // `terminate()` raises `ProcessLookupError`
    | Refused      // `terminate()` and `kill()` raise `PermissionError`

  /**
   * `inspectable` says whether `psutil.Process(pid)` can read the process
   * (false where it raises `NoSuchProcess` or `AccessDenied`).
   */
  datatype Proc = Proc(pid: nat, live: bool, onTerminate: TerminateReply, inspectable: bool)

  /** The requests made of a process while stopping it. */
  datatype Request = Terminate | WaitFor | Kill
}
