/**
 * The host operating system as the control plane sees it: external commands
 * run through `subprocess.run`. A command either runs to completion with an
 * exit status and its standard output, or cannot be started at all (an
 * `OSError` such as a missing executable). The host is a parameter of every
 * operation that shells out, so every outcome is covered.
 */
module Host {
  datatype Outcome = Completed(code: int, stdout: string) | Unstartable

  /**
   * The host, as a map from commands to outcomes. Each component names its
   * commands with a datatype of its own (`C`), whose members document the
   * argument vectors they stand for.
   */
  type Machine<!C> = C -> Outcome

  /** How a run of several commands ended. */
  datatype Status =
    | AllSucceeded
    | CalledProcessError  // a command with `check=True` exited non-zero
    | OsError             // a command could not be started

  /** The commands actually issued, in order, and how the run ended. */
  datatype Run<C> = Run(issued: seq<C>, status: Status)

  predicate Succeeds<C>(host: Machine<C>, c: C) {
    host(c).Completed? && host(c).code == 0
  }

  /**
   * Consecutive `subprocess.run(c, check=True)` statements: the first
   * command that fails or cannot start ends the run.
   */
  function RunChecked<C>(cmds: seq<C>, host: Machine<C>): (r: Run<C>)
    ensures |r.issued| <= |cmds| && r.issued == cmds[..|r.issued|]
    ensures r.status == AllSucceeded <==> forall k :: 0 <= k < |cmds| ==> Succeeds(host, cmds[k])
    ensures r.status == AllSucceeded ==> r.issued == cmds
    ensures r.status != AllSucceeded ==>
      && |r.issued| >= 1
      && (forall k :: 0 <= k < |r.issued| - 1 ==> Succeeds(host, cmds[k]))
      && !Succeeds(host, r.issued[|r.issued| - 1])
      && (r.status == OsError <==> host(r.issued[|r.issued| - 1]).Unstartable?)
    decreases |cmds|
  {
    if |cmds| == 0 then Run([], AllSucceeded)
    else if host(cmds[0]).Unstartable? then Run([cmds[0]], OsError)
    else if host(cmds[0]).code != 0 then Run([cmds[0]], CalledProcessError)
    else
      var rest := RunChecked(cmds[1..], host);
      assert forall k :: 1 <= k < |cmds| ==> cmds[k] == cmds[1..][k - 1];
      Run([cmds[0]] + rest.issued, rest.status)
  }

  /**
   * Consecutive `subprocess.run(c, check=False)` statements: exit statuses
   * are ignored, and only a command that cannot start ends the run early.
   */
  function RunUnchecked<C>(cmds: seq<C>, host: Machine<C>): (r: Run<C>)
    ensures r.status != CalledProcessError
    ensures |r.issued| <= |cmds| && r.issued == cmds[..|r.issued|]
    ensures r.status == AllSucceeded <==> forall k :: 0 <= k < |cmds| ==> host(cmds[k]).Completed?
    ensures r.status == AllSucceeded ==> r.issued == cmds
    ensures r.status == OsError ==>
      && |r.issued| >= 1
      && (forall k :: 0 <= k < |r.issued| - 1 ==> host(cmds[k]).Completed?)
      && host(r.issued[|r.issued| - 1]).Unstartable?
    decreases |cmds|
  {
    if |cmds| == 0 then Run([], AllSucceeded)
    else if host(cmds[0]).Unstartable? then Run([cmds[0]], OsError)
    else
      var rest := RunUnchecked(cmds[1..], host);
      assert forall k :: 1 <= k < |cmds| ==> cmds[k] == cmds[1..][k - 1];
      Run([cmds[0]] + rest.issued, rest.status)
  }
}
