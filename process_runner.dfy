/**
 * BackgroundProcessRunner: runs an external command on a worker thread and
 * streams its merged stdout/stderr, line by line, to the output callback,
 * then reports the exit code to the completion callback.
 *
 * The child process is abstract: whether Popen succeeds, the lines it
 * prints, whether it is still running when poll() is asked, and the code
 * wait() returns are all inputs. The UI thread's terminate() calls, which
 * race with the reading loop, are an input too: interrupts[k] says that a
 * terminate() lands after line k is read and before the flag is checked
 * for it.
 */
module ExternalProcess {
  import opened Wrappers
  import opened Text
  import opened Events
  import InProcess

  const NotFoundPrefix: string := "Ошибка запуска: "
  const LaunchFailedPrefix: string := "Не удалось запустить процесс: "

  /** How Popen ended: started, FileNotFoundError, or any other exception (with str(e)). */
  datatype Launch = Launched | NotFound(message: string) | LaunchFailed(message: string)

  /** The _proc field: never set, a child not yet waited for, or a child whose wait() returned. */
  datatype Proc = NoProc | Running | Exited(code: int)

  /** The "$ ..." line echoing the command, every word shell-quoted. */
  function CommandEcho(command: seq<string>): string
  {
    "$ " + Join(QuoteAll(command), " ") + "\n"
  }

  /** The diagnostic for a launch that raised. */
  function LaunchError(launch: Launch): string
    requires !launch.Launched?
  {
    match launch
    case NotFound(e) => NotFoundPrefix + e + "\n"
    case LaunchFailed(e) => LaunchFailedPrefix + e + "\n"
  }

  /** The index of the first interrupt, or |interrupts| when none lands. */
  function FirstInterrupt(interrupts: seq<bool>): (n: nat)
    ensures n <= |interrupts|
    ensures forall k :: 0 <= k < n ==> !interrupts[k]
    ensures n < |interrupts| ==> interrupts[n]
  {
    if interrupts == [] || interrupts[0] then 0 else 1 + FirstInterrupt(interrupts[1..])
  }

  /** How many lines reach the callback: all lines before the first one read with the flag set. */
  function Forwarded(stopped: bool, interrupts: seq<bool>): nat
  {
    if stopped then 0 else FirstInterrupt(interrupts)
  }

  /** Whether the stop flag is up once the reading loop is over. */
  function StoppedAfter(stopped: bool, interrupts: seq<bool>): bool
  {
    stopped || FirstInterrupt(interrupts) < |interrupts|
  }

  /** Whether a racing terminate() lands before the loop stops reading. */
  function Interrupted(stopped: bool, interrupts: seq<bool>): bool
  {
    FirstInterrupt(interrupts) < |interrupts| && FirstInterrupt(interrupts) == Forwarded(stopped, interrupts)
  }

  /** The SIGTERMs the worker's run causes: one from the racing terminate(), one after the loop. */
  function SignalsSent(stopped: bool, interrupts: seq<bool>, aliveAtStop: bool, aliveAfterLoop: bool): nat
  {
    (if Interrupted(stopped, interrupts) && aliveAtStop then 1 else 0)
    + (if StoppedAfter(stopped, interrupts) && aliveAfterLoop then 1 else 0)
  }

  /** Everything _run_worker hands to the two callbacks. */
  function WorkerEvents(command: seq<string>, launch: Launch, stopped: bool, lines: seq<string>,
                        interrupts: seq<bool>, exitCode: int): seq<Event>
    requires |interrupts| == |lines|
  {
    if !launch.Launched? then [Line(CommandEcho(command)), Line(LaunchError(launch)), End(1)]
    else [Line(CommandEcho(command))] + Lines(lines[..Forwarded(stopped, interrupts)]) + [End(exitCode)]
  }

  /**
   * The echo comes first, completion comes exactly once and last, a failed
   * launch adds exactly one diagnostic and reports 1, and a started process
   * reports what wait() returned.
   */
  lemma WorkerCompletesOnce(command: seq<string>, launch: Launch, stopped: bool, lines: seq<string>,
                            interrupts: seq<bool>, exitCode: int)
    requires |interrupts| == |lines|
    ensures var evs := WorkerEvents(command, launch, stopped, lines, interrupts, exitCode);
            CompletesOnce(evs) && evs[0] == Line(CommandEcho(command)) &&
            evs[|evs| - 1] == End(if launch.Launched? then exitCode else 1) &&
            (!launch.Launched? ==> |evs| == 3)
  {
    var evs := WorkerEvents(command, launch, stopped, lines, interrupts, exitCode);
    if launch.Launched? {
      var n := Forwarded(stopped, interrupts);
      var mid := Lines(lines[..n]);
      assert evs == [Line(CommandEcho(command))] + mid + [End(exitCode)];
      forall k | 0 <= k < |evs| - 1
        ensures evs[k].Line?
      {
        if k > 0 { assert evs[k] == mid[k - 1]; }
      }
    }
  }

  /**
   * The lines reach the callback in order and unchanged, up to and excluding
   * the first one read with the stop flag set; with no stop, all of them.
   */
  lemma ForwardedLines(stopped: bool, lines: seq<string>, interrupts: seq<bool>)
    requires |interrupts| == |lines|
    ensures var n := Forwarded(stopped, interrupts);
            n <= |lines| &&
            (n < |lines| <==> StoppedAfter(stopped, interrupts) && lines != []) &&
            (forall k :: 0 <= k < n ==> !stopped && !interrupts[k])
  {
  }

  lemma LinesSnoc(lines: seq<string>, k: nat)
    requires k < |lines|
    ensures Lines(lines[..k + 1]) == Lines(lines[..k]) + [Line(lines[k])]
  {
    assert lines[..k + 1] == lines[..k] + [lines[k]];
    LinesAppend(lines[..k], [lines[k]]);
    LinesOne(lines[k]);
  }

  /** What the runner holds: the worker's liveness, the stop flag, the child, the SIGTERMs sent, the command. */
  datatype Snapshot = Snapshot(threadAlive: bool, stopRequested: bool, proc: Proc, signals: nat, command: seq<string>)

  /** What run(command) leaves: a live worker refuses and nothing changes, else a worker starts on command. */
  function Started(s: Snapshot, command: seq<string>): Snapshot
  {
    if s.threadAlive then s else s.(threadAlive := true, stopRequested := false, command := command)
  }

  class BackgroundRunner {
    var threadAlive: bool
    var stopRequested: bool
    var proc: Proc
    /** SIGTERMs sent to child processes so far. */
    var signals: nat
    /** The command line handed to the last accepted run(), which the worker launches. */
    var command: seq<string>
    const out: Channel

    constructor (out: Channel)
      ensures !threadAlive && !stopRequested && proc == NoProc && signals == 0 && this.out == out
      ensures command == []
    {
      command := [];
      threadAlive := false;
      stopRequested := false;
      proc := NoProc;
      signals := 0;
      this.out := out;
    }

    function State(): Snapshot
      reads this
    {
      Snapshot(threadAlive, stopRequested, proc, signals, command)
    }

    /** run(): refuses while a worker is alive; otherwise clears the stop flag and starts one. */
    method Run(command: seq<string>) returns (err: Option<string>)
      modifies this
      ensures State() == Started(old(State()), command)
      ensures old(threadAlive) ==> err == Some(InProcess.AlreadyRunning) && threadAlive &&
                                   stopRequested == old(stopRequested) && this.command == old(this.command)
      ensures !old(threadAlive) ==> err.None? && threadAlive && !stopRequested && this.command == command
      ensures proc == old(proc) && signals == old(signals)
    {
      if threadAlive {
        return Some(InProcess.AlreadyRunning);
      }
      this.command := command;
      stopRequested := false;
      threadAlive := true;
      return None;
    }

    /**
     * terminate(): raises the flag, and signals the child only when one was
     * started and poll() says it is still running (alive).
     */
    method Terminate(alive: bool)
      modifies this
      ensures stopRequested && threadAlive == old(threadAlive) && proc == old(proc) && command == old(command)
      ensures signals == old(signals) + (if old(proc).Running? && alive then 1 else 0)
    {
      stopRequested := true;
      if proc.Running? && alive {
        signals := signals + 1;
      }
    }

    /**
     * The `for line in stream` loop: before forwarding line k it lets the
     * racing terminate() land if interrupts[k], and stops at the first line
     * read while the flag is up.
     */
    method Pump(lines: seq<string>, interrupts: seq<bool>, aliveAtStop: bool)
      requires |interrupts| == |lines| && proc.Running?
      modifies this, out
      ensures out.events == old(out.events) + Lines(lines[..Forwarded(old(stopRequested), interrupts)])
      ensures stopRequested == StoppedAfter(old(stopRequested), interrupts)
      ensures signals == old(signals) + (if Interrupted(old(stopRequested), interrupts) && aliveAtStop then 1 else 0)
      ensures threadAlive == old(threadAlive) && proc == old(proc) && command == old(command)
    {
      ghost var n := Forwarded(stopRequested, interrupts);
      var k := 0;
      while k < |lines|
        invariant k <= n && stopRequested == old(stopRequested) && signals == old(signals)
        invariant threadAlive == old(threadAlive) && proc == old(proc) && command == old(command)
        invariant out.events == old(out.events) + Lines(lines[..k])
      {
        if interrupts[k] {
          Terminate(aliveAtStop);
        }
        if stopRequested {
          break;
        }
        out.Emit(lines[k]);
        LinesSnoc(lines, k);
        k := k + 1;
      }
    }

    /** _run_worker(): the body of the worker thread, launching the command run() stored. */
    method Worker(launch: Launch, lines: seq<string>, interrupts: seq<bool>,
                  aliveAtStop: bool, aliveAfterLoop: bool, exitCode: int)
      requires |interrupts| == |lines|
      modifies this, out
      ensures !threadAlive && command == old(command)
      ensures out.events == old(out.events) +
                WorkerEvents(command, launch, old(stopRequested), lines, interrupts, exitCode)
      ensures !launch.Launched? ==>
                proc == old(proc) && stopRequested == old(stopRequested) && signals == old(signals)
      ensures launch.Launched? ==>
                proc == Exited(exitCode) &&
                stopRequested == StoppedAfter(old(stopRequested), interrupts) &&
                signals == old(signals) + SignalsSent(old(stopRequested), interrupts, aliveAtStop, aliveAfterLoop)
    {
      out.Emit(CommandEcho(command));
      if !launch.Launched? {
        out.Emit(LaunchError(launch));
        out.Finish(1);
        threadAlive := false;
        return;
      }
      RunChild(lines, interrupts, aliveAtStop, aliveAfterLoop, exitCode);
      assert out.events == old(out.events) +
               ([Line(CommandEcho(command))] + Lines(lines[..Forwarded(old(stopRequested), interrupts)]) +
                [End(exitCode)]);
    }

    /** The started child: pump its lines, signal it once more if stopped, wait, report the code. */
    method RunChild(lines: seq<string>, interrupts: seq<bool>, aliveAtStop: bool, aliveAfterLoop: bool,
                    exitCode: int)
      requires |interrupts| == |lines|
      modifies this, out
      ensures !threadAlive && proc == Exited(exitCode) && command == old(command)
      ensures out.events == old(out.events) + Lines(lines[..Forwarded(old(stopRequested), interrupts)]) +
                            [End(exitCode)]
      ensures stopRequested == StoppedAfter(old(stopRequested), interrupts)
      ensures signals == old(signals) + SignalsSent(old(stopRequested), interrupts, aliveAtStop, aliveAfterLoop)
    {
      proc := Running;
      Pump(lines, interrupts, aliveAtStop);
      if stopRequested && aliveAfterLoop {
        signals := signals + 1;
      }
      proc := Exited(exitCode);
      out.Finish(exitCode);
      threadAlive := false;
    }
  }
}
