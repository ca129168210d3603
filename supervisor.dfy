/**
 * The master process (src/index.js:4-12): it forks one worker per CPU and, as soon as any
 * worker exits, logs it and exits itself with code 1. It never forks a replacement.
 */
module Supervisor {
  import opened Wrappers
  import opened Text

  /** `"worker " + worker.process.pid + "died"`: the pid runs straight into "died". */
  function ExitMessage(pid: nat): string {
    "worker " + NatToString(pid) + "died"
  }

  /**
   * The exit message starts with "worker ", ends with "died" right after the last digit of the
   * pid (no space between them), and the pid can be read back from what lies in between.
   */
  lemma ExitMessageReadBack(pid: nat)
    ensures var m := ExitMessage(pid);
      && |m| >= 12
      && m[..7] == "worker "
      && m[|m| - 4..] == "died"
      && IsDigit(m[|m| - 5])
      && (forall i :: 7 <= i < |m| - 4 ==> IsDigit(m[i]))
      && ParseNat(m[7..|m| - 4]) == pid
  {
    var m, digits := ExitMessage(pid), NatToString(pid);
    assert m[7..|m| - 4] == digits;
    assert m[|m| - 5] == digits[|digits| - 1];
    ParseNatToString(pid);
  }

  /** The master's state: workers forked, what it printed, and its exit code once it has exited. */
  class Master {
    var forked: nat
    var console: seq<string>
    var exitCode: Option<int>

    /** The master, before the fork loop. */
    constructor ()
      ensures forked == 0 && console == [] && exitCode == None
    {
      forked, console, exitCode := 0, [], None;
    }

    /** `cluster.fork()`: one more worker. */
    method Fork()
      requires exitCode.None?
      modifies this
      ensures forked == old(forked) + 1
      ensures console == old(console) && exitCode == old(exitCode)
    {
      forked := forked + 1;
    }

    /** The fork loop: exactly `numCPUs` workers, one per iteration. */
    method Start(numCPUs: nat)
      requires exitCode.None?
      modifies this
      ensures forked == old(forked) + numCPUs
      ensures console == old(console) && exitCode == None
    {
      for i := 0 to numCPUs
        invariant forked == old(forked) + i
        invariant console == old(console) && exitCode == None
      {
        Fork();
      }
    }

    /**
     * The `exit` handler. Whatever the exit code or signal, the message is printed and the
     * master exits with code 1; no worker is forked. Once it has exited it handles nothing more.
     */
    method OnWorkerExit(pid: nat, code: Option<int>, signal: Option<string>)
      modifies this
      ensures forked == old(forked)
      ensures exitCode.Some? && exitCode.value == (if old(exitCode).None? then 1 else old(exitCode).value)
      ensures console == if old(exitCode).None? then old(console) + [ExitMessage(pid)] else old(console)
    {
      if exitCode.None? {
        console := console + [ExitMessage(pid)];
        exitCode := Some(1);
      }
    }
  }

  /** The master's life: start `numCPUs` workers, then one worker exits. */
  method Supervise(numCPUs: nat, pid: nat, code: Option<int>, signal: Option<string>)
    returns (forked: nat, console: seq<string>, exitCode: Option<int>)
    ensures forked == numCPUs
    ensures console == [ExitMessage(pid)] && exitCode == Some(1)
  {
    var master := new Master();
    master.Start(numCPUs);
    master.OnWorkerExit(pid, code, signal);
    forked, console, exitCode := master.forked, master.console, master.exitCode;
  }
}
