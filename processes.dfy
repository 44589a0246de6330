/**
 * A child process as the asyncio subprocess API exposes it to the adapters: `returncode`
 * stays `None` while it runs. What the operating system does is an oracle: the process ends
 * on its own through `Exit`, and `onTerminate` says how it answers SIGTERM.
 */
module Processes {
  import opened Wrappers

  datatype Signal = SigTerm | SigKill

  class Process {
    /** The argument vector it was started with. */
    const argv: seq<string>
    /** Variables set in its environment on top of the parent's. */
    const envOverrides: map<string, string>
    /**
     * How it answers SIGTERM within the five-second grace period: `Some(code)` means it exits
     * with that code, `None` that it is still running when the grace period ends.
     */
    const onTerminate: Option<int>
    var returnCode: Option<int>
    /** Everything it wrote on its standard error. */
    var stderr: string
    /** The signals sent to it, in order. */
    var signals: seq<Signal>

    constructor (argv: seq<string>, envOverrides: map<string, string>, onTerminate: Option<int>)
      ensures this.argv == argv && this.envOverrides == envOverrides
      ensures this.onTerminate == onTerminate
      ensures returnCode.None? && stderr == "" && signals == []
    {
      this.argv := argv;
      this.envOverrides := envOverrides;
      this.onTerminate := onTerminate;
      returnCode := None;
      stderr := "";
      signals := [];
    }

    predicate Running()
      reads this
    {
      returnCode.None?
    }

    /** The process ends by itself with `code`, having written `err`; a dead process stays dead. */
    method Exit(code: int, err: string)
      modifies this
      ensures old(Running()) ==> returnCode == Some(code) && stderr == err
      ensures !old(Running()) ==> returnCode == old(returnCode) && stderr == old(stderr)
      ensures signals == old(signals)
    {
      if returnCode.None? {
        returnCode := Some(code);
        stderr := err;
      }
    }

    /**
     * `kill()` without awaiting `wait()`: SIGKILL is sent to a running process, but
     * `returncode` is only filled in by a later `wait()`.
     */
    method Kill()
      modifies this
      ensures signals == if old(Running()) then old(signals) + [SigKill] else old(signals)
      ensures returnCode == old(returnCode) && stderr == old(stderr)
    {
      if returnCode.None? {
        signals := signals + [SigKill];
      }
    }

    /** The state `Stop` leaves behind, given the return code and signals it started from. */
    ghost predicate StoppedFrom(rc0: Option<int>, signals0: seq<Signal>)
      reads this
    {
      if rc0.Some? then returnCode == rc0 && signals == signals0
      else match onTerminate
        case Some(code) => returnCode == Some(code) && signals == signals0 + [SigTerm]
        case None => returnCode == Some(-9) && signals == signals0 + [SigTerm, SigKill]
    }

    /**
     * `terminate()`, then `wait()` for at most five seconds, then `kill()` and `wait()`. On a
     * process that has already exited the signal finds no process, and the error is swallowed.
     */
    method Stop()
      modifies this
      ensures StoppedFrom(old(returnCode), old(signals))
      ensures returnCode.Some?
      ensures stderr == old(stderr)
    {
      if returnCode.Some? {
        return;
      }
      signals := signals + [SigTerm];
      match onTerminate {
        case Some(code) =>
          returnCode := Some(code);
        case None =>
          signals := signals + [SigKill];
          returnCode := Some(-9);
      }
    }
  }
}
