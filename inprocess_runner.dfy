/**
 * InProcessTgradishRunner: runs the tool's module inside the GUI process.
 * The worker swaps sys.argv, sys.stdout and sys.stderr for its own values
 * and two line-buffering streams, runs the module, maps how it ended to an
 * exit code, flushes both streams, puts the three values back and reports
 * completion once.
 *
 * The module's own behaviour is an input: the writes and flushes it makes on
 * its two streams, and how it ends.
 */
module InProcess {
  import opened Wrappers
  import opened Text
  import opened Events
  import opened LineStream

  const AlreadyRunning: string := "Уже запущен процесс. Остановите его перед новым запуском."
  const StopNotice: string := "Прерывание встроенного режима не поддерживается полностью. Ожидайте завершения...\n"
  const ModuleMissing: string := "Встроенный модуль tgradish недоступен.\n"
  const FaultPrefix: string := "Ошибка выполнения: "

  /**
   * The code carried by SystemExit: None, an int (bools included), or any
   * other value together with what int() makes of it (None when int() raises).
   */
  datatype ExitArg = NoneCode | IntCode(n: int) | OtherCode(asInt: Option<int>)

  /** How running the module ends: it returns, raises SystemExit, or raises another exception. */
  datatype Outcome = Normal | SysExit(arg: ExitArg) | Fault(message: string)

  /**
   * The exit code the worker reports: 0 on return, int(e.code) for
   * SystemExit, 1 when int() refuses the code or another exception escaped.
   */
  function ExitCode(o: Outcome): (code: int)
    ensures code == 0 <==> o == Normal || o == SysExit(IntCode(0)) || o == SysExit(OtherCode(Some(0)))
    ensures o.Fault? || o == SysExit(NoneCode) ==> code == 1
    ensures o.SysExit? && o.arg.IntCode? ==> code == o.arg.n
    ensures o.SysExit? && o.arg.OtherCode? ==> code == (if o.arg.asInt.Some? then o.arg.asInt.value else 1)
  {
    match o
    case Normal => 0
    case Fault(_) => 1
    case SysExit(NoneCode) => 1
    case SysExit(IntCode(n)) => n
    case SysExit(OtherCode(v)) => if v.Some? then v.value else 1
  }

  /**
   * The exit status the interpreter itself gives SystemExit: no code (None)
   * is success, an int is itself, anything else is 1.
   */
  function InterpreterStatus(o: Outcome): (code: int)
    ensures code == 0 <==> o == Normal || o == SysExit(NoneCode) || o == SysExit(IntCode(0))
    ensures o.SysExit? && o.arg.IntCode? ==> code == o.arg.n
  {
    match o
    case Normal => 0
    case Fault(_) => 1
    case SysExit(NoneCode) => 0
    case SysExit(IntCode(n)) => n
    case SysExit(OtherCode(_)) => 1
  }

  /** A tool that ends with sys.exit() (or sys.exit(None)) succeeded, yet the worker reports 1. */
  lemma BareExitReportedAsFailure()
    ensures InterpreterStatus(SysExit(NoneCode)) == 0
    ensures ExitCode(SysExit(NoneCode)) == 1
  {
  }

  /** Where a stream variable points: a stream outside this model, or one of the worker's adapters. */
  datatype Writer = Console(name: string) | Captured(stream: Stream)

  /** The interpreter-wide values the worker swaps: sys.argv, sys.stdout, sys.stderr. */
  class Runtime {
    var argv: seq<string>
    var stdout: Writer
    var stderr: Writer

    constructor (argv: seq<string>, stdout: Writer, stderr: Writer)
      ensures this.argv == argv && this.stdout == stdout && this.stderr == stderr
    {
      this.argv := argv;
      this.stdout := stdout;
      this.stderr := stderr;
    }
  }

  /** What the module does to its streams: write(text) or flush(), on stdout or on stderr. */
  datatype Action = Write(toStderr: bool, text: string) | Flush(toStderr: bool)

  /** The contents of the stdout and stderr adapters' buffers. */
  datatype Buffers = Buffers(out: string, err: string)

  /** Lines handed over so far, and the buffers now. */
  datatype Trace = Trace(emitted: seq<string>, bufs: Buffers)

  /** One action: the lines it hands over and the buffers after it. */
  function Step(b: Buffers, a: Action): Trace
  {
    match a
    case Write(false, t) => Trace(Pieces(b.out + t), b.(out := Rest(b.out + t)))
    case Write(true, t) => Trace(Pieces(b.err + t), b.(err := Rest(b.err + t)))
    case Flush(false) => Trace(if b.out == "" then [] else [b.out], b.(out := ""))
    case Flush(true) => Trace(if b.err == "" then [] else [b.err], b.(err := ""))
  }

  /** The actions in order, from two empty buffers. */
  function Replay(actions: seq<Action>): Trace
  {
    if actions == [] then Trace([], Buffers("", ""))
    else
      var prev := Replay(actions[..|actions| - 1]);
      var step := Step(prev.bufs, actions[|actions| - 1]);
      Trace(prev.emitted + step.emitted, step.bufs)
  }

  lemma ReplaySnoc(actions: seq<Action>, i: nat)
    requires i < |actions|
    ensures Replay(actions[..i + 1])
            == Trace(Replay(actions[..i]).emitted + Step(Replay(actions[..i]).bufs, actions[i]).emitted,
                     Step(Replay(actions[..i]).bufs, actions[i]).bufs)
  {
    assert actions[..i + 1][..i] == actions[..i];
  }

  /** The final flush of stdout, then of stderr. */
  function Drain(b: Buffers): seq<string>
  {
    (if b.out == "" then [] else [b.out]) + (if b.err == "" then [] else [b.err])
  }

  lemma DrainFlushed(b: Buffers)
    ensures Lines(Drain(b)) == Flushed(b.out) + Flushed(b.err)
  {
    LinesAppend(if b.out == "" then [] else [b.out], if b.err == "" then [] else [b.err]);
  }

  /** The diagnostic line the worker adds when the module raised something other than SystemExit. */
  function FaultLines(o: Outcome): seq<Event>
  {
    if o.Fault? then [Line(FaultPrefix + o.message + "\n")] else []
  }

  lemma RegroupEvents(p: seq<Event>, a: seq<Event>, b: seq<Event>, c: seq<Event>)
    ensures p + (a + b + c) == p + a + b + c
  {
  }

  lemma Regroup4(p: seq<Event>, a: seq<Event>, b: seq<Event>, c: seq<Event>, d: seq<Event>)
    ensures p + (a + b + (c + d)) == p + a + b + c + d
  {
  }

  /** The command echo: "$ tgradish " and the quoted arguments. */
  function Echo(args: seq<string>): string
  {
    "$ tgradish " + Join(QuoteAll(args), " ") + "\n"
  }

  /**
   * What the worker delivers while the module runs with captured streams:
   * the complete lines it writes, a diagnostic if it faulted, then what the
   * final flush of stdout and of stderr hands over.
   */
  function CapturedEvents(actions: seq<Action>, outcome: Outcome): seq<Event>
  {
    var r := Replay(actions);
    Lines(r.emitted) + FaultLines(outcome) + Lines(Drain(r.bufs))
  }

  /** Everything the worker delivers, in order. */
  function WorkerEvents(args: seq<string>, moduleAvailable: bool, actions: seq<Action>, outcome: Outcome): seq<Event>
  {
    if !moduleAvailable then [Line(Echo(args)), Line(ModuleMissing), End(1)]
    else
      [Line(Echo(args))] + CapturedEvents(actions, outcome) + [End(ExitCode(outcome))]
  }

  /**
   * The echo comes first, completion comes exactly once and last, and its
   * code is 1 when the module is missing and the mapped exit code otherwise.
   */
  lemma WorkerCompletesOnce(args: seq<string>, moduleAvailable: bool, actions: seq<Action>, outcome: Outcome)
    ensures var evs := WorkerEvents(args, moduleAvailable, actions, outcome);
            CompletesOnce(evs) && evs[0] == Line(Echo(args)) &&
            evs[|evs| - 1] == End(if moduleAvailable then ExitCode(outcome) else 1)
    ensures !moduleAvailable ==> |WorkerEvents(args, moduleAvailable, actions, outcome)| == 3
  {
    if moduleAvailable {
      var r := Replay(actions);
      var body := CapturedEvents(actions, outcome);
      assert forall k :: 0 <= k < |body| ==> body[k].Line?;
      assert WorkerEvents(args, moduleAvailable, actions, outcome) == [Line(Echo(args))] + body + [End(ExitCode(outcome))];
    }
  }

  /** Text written to stdout, in order. */
  function Written(actions: seq<Action>): string
  {
    if actions == [] then ""
    else
      var a := actions[|actions| - 1];
      Written(actions[..|actions| - 1]) + (if a.Write? && !a.toStderr then a.text else "")
  }

  predicate StdoutOnly(actions: seq<Action>)
  {
    forall k :: 0 <= k < |actions| ==> !actions[k].toStderr
  }

  lemma StepConserves(b: Buffers, a: Action)
    requires !a.toStderr && b.err == ""
    ensures Step(b, a).bufs.err == ""
    ensures Concat(Step(b, a).emitted) + Step(b, a).bufs.out == b.out + (if a.Write? then a.text else "")
  {
    if a.Write? {
      Conserves(b.out + a.text);
    } else if b.out != "" {
      assert Concat([b.out]) == b.out + "";
    }
  }

  /**
   * For a module that only uses stdout, the lines handed over so far
   * followed by what is still buffered spell exactly the text it wrote.
   */
  lemma {:induction false} ReplayConserves(actions: seq<Action>)
    requires StdoutOnly(actions)
    ensures Replay(actions).bufs.err == ""
    ensures Concat(Replay(actions).emitted) + Replay(actions).bufs.out == Written(actions)
  {
    if actions != [] {
      var init := actions[..|actions| - 1];
      var a := actions[|actions| - 1];
      assert StdoutOnly(init);
      ReplayConserves(init);
      var prev := Replay(init);
      StepConserves(prev.bufs, a);
      var step := Step(prev.bufs, a);
      ConcatAppend(prev.emitted, step.emitted);
      var w := if a.Write? then a.text else "";
      assert Replay(actions) == Trace(prev.emitted + step.emitted, step.bufs);
      assert Written(actions) == Written(init) + w;
      Regroup(Concat(prev.emitted), Concat(step.emitted), step.bufs.out, prev.bufs.out, w);
    }
  }

  /**
   * For a module that only uses stdout, the lines the worker delivers
   * between the echo and any fault line, followed by the final flush, are
   * exactly the text the module wrote.
   */
  lemma StdoutDelivered(actions: seq<Action>)
    requires StdoutOnly(actions)
    ensures Concat(Replay(actions).emitted + Drain(Replay(actions).bufs)) == Written(actions)
  {
    var r := Replay(actions);
    ReplayConserves(actions);
    ConcatAppend(r.emitted, Drain(r.bufs));
    if r.bufs.out != "" {
      assert Drain(r.bufs) == [r.bufs.out];
      assert Concat([r.bufs.out]) == r.bufs.out + "";
    } else {
      assert Drain(r.bufs) == [];
    }
  }

  lemma ReplayNext(actions: seq<Action>, i: nat, emitted: seq<string>, bufs: Buffers)
    requires i < |actions| && Trace(emitted, bufs) == Replay(actions[..i])
    ensures Replay(actions[..i + 1])
            == Trace(emitted + Step(bufs, actions[i]).emitted, Step(bufs, actions[i]).bufs)
  {
    ReplaySnoc(actions, i);
  }

  lemma EventsGrow(e0: seq<Event>, emitted: seq<string>, more: seq<string>)
    ensures e0 + Lines(emitted) + Lines(more) == e0 + Lines(emitted + more)
  {
    LinesAppend(emitted, more);
  }

  /** One action of the module, on the stdout adapter so or the stderr adapter se. */
  method Apply(so: Stream, se: Stream, a: Action, ghost b: Buffers)
    requires so != se && so.sink == se.sink && so.buf == b.out && se.buf == b.err
    modifies so, se, so.sink
    ensures so.buf == Step(b, a).bufs.out && se.buf == Step(b, a).bufs.err
    ensures so.sink.events == old(so.sink.events) + Lines(Step(b, a).emitted)
  {
    match a
    case Write(toStderr, text) =>
      if toStderr { se.Write(text); } else { so.Write(text); }
    case Flush(toStderr) =>
      if toStderr { se.Flush(); } else { so.Flush(); }
  }

  /**
   * The module's actions in order, on two adapters that share one callback,
   * while the runtime holds the installed argv and the two adapters.
   */
  method RunModule(rt: Runtime, args: seq<string>, so: Stream, se: Stream, actions: seq<Action>)
    requires rt.argv == ["tgradish"] + args && rt.stdout == Captured(so) && rt.stderr == Captured(se)
    requires so != se && so.sink == se.sink && so.buf == "" && se.buf == ""
    modifies so, se, so.sink
    ensures so.buf == Replay(actions).bufs.out && se.buf == Replay(actions).bufs.err
    ensures so.sink.events == old(so.sink.events) + Lines(Replay(actions).emitted)
  {
    var i := 0;
    ghost var emitted: seq<string> := [];
    ghost var bufs := Buffers("", "");
    while i < |actions|
      invariant 0 <= i <= |actions|
      invariant Trace(emitted, bufs) == Replay(actions[..i])
      invariant so.buf == bufs.out && se.buf == bufs.err
      invariant so.sink.events == old(so.sink.events) + Lines(emitted)
    {
      ghost var step := Step(bufs, actions[i]);
      Apply(so, se, actions[i], bufs);
      ReplayNext(actions, i, emitted, bufs);
      EventsGrow(old(so.sink.events), emitted, step.emitted);
      emitted, bufs := emitted + step.emitted, step.bufs;
      i := i + 1;
    }
    assert actions[..|actions|] == actions;
  }

  /**
   * The guarded part of the worker: save sys.argv, sys.stdout and
   * sys.stderr, install the arguments and two fresh adapters, run the module,
   * map how it ended to an exit code, flush both adapters and put the three
   * saved values back.
   */
  method RunCaptured(rt: Runtime, out: Channel, args: seq<string>, actions: seq<Action>, outcome: Outcome)
    returns (code: int)
    modifies rt, out
    ensures code == ExitCode(outcome)
    ensures rt.argv == old(rt.argv) && rt.stdout == old(rt.stdout) && rt.stderr == old(rt.stderr)
    ensures out.events == old(out.events) + CapturedEvents(actions, outcome)
  {
    var savedArgv, savedOut, savedErr := rt.argv, rt.stdout, rt.stderr;
    rt.argv := ["tgradish"] + args;
    var so := new Stream(out);
    var se := new Stream(out);
    rt.stdout := Captured(so);
    rt.stderr := Captured(se);
    code := RunAndFlush(rt, args, so, se, actions, outcome);
    rt.argv, rt.stdout, rt.stderr := savedArgv, savedOut, savedErr;
  }

  /** Runs the module on the two adapters, reports a fault, then flushes stdout and stderr. */
  method RunAndFlush(rt: Runtime, args: seq<string>, so: Stream, se: Stream, actions: seq<Action>,
                     outcome: Outcome) returns (code: int)
    requires rt.argv == ["tgradish"] + args && rt.stdout == Captured(so) && rt.stderr == Captured(se)
    requires so != se && so.sink == se.sink && so.buf == "" && se.buf == ""
    modifies so, se, so.sink
    ensures code == ExitCode(outcome)
    ensures so.sink.events == old(so.sink.events) + CapturedEvents(actions, outcome)
  {
    var out := so.sink;
    ghost var r := Replay(actions);
    RunModule(rt, args, so, se, actions);
    code := ExitCode(outcome);
    ghost var e1 := out.events;
    if outcome.Fault? {
      out.Emit(FaultPrefix + outcome.message + "\n");
    }
    assert out.events == e1 + FaultLines(outcome);
    ghost var e2 := out.events;
    so.Flush();
    se.Flush();
    assert out.events == e2 + Flushed(r.bufs.out) + Flushed(r.bufs.err);
    DrainFlushed(r.bufs);
    Regroup4(old(out.events), Lines(r.emitted), FaultLines(outcome), Flushed(r.bufs.out), Flushed(r.bufs.err));
  }

  /** What the runner holds: the worker's liveness, the stop flag and the stored arguments. */
  datatype Snapshot = Snapshot(threadAlive: bool, stopRequested: bool, args: seq<string>)

  /** What run(args) leaves: a live worker refuses and nothing changes, else a worker starts on args. */
  function Started(s: Snapshot, args: seq<string>): Snapshot
  {
    if s.threadAlive then s else s.(threadAlive := true, stopRequested := false, args := args)
  }

  /** The runner: its worker thread, its stop flag and its output callbacks. */
  class InProcessRunner {
    var threadAlive: bool
    var stopRequested: bool
    /** The arguments handed to the last accepted run(), which the worker passes to the module. */
    var args: seq<string>
    const out: Channel

    constructor (out: Channel)
      ensures !threadAlive && !stopRequested && this.out == out && args == []
    {
      args := [];
      threadAlive := false;
      stopRequested := false;
      this.out := out;
    }

    function State(): Snapshot
      reads this
    {
      Snapshot(threadAlive, stopRequested, args)
    }

    /** run(): refuses while a worker is alive; otherwise clears the stop flag and starts one. */
    method Run(args: seq<string>) returns (err: Option<string>)
      modifies this
      ensures State() == Started(old(State()), args)
      ensures old(threadAlive) ==> err == Some(AlreadyRunning) && threadAlive && stopRequested == old(stopRequested) &&
                                   this.args == old(this.args)
      ensures !old(threadAlive) ==> err.None? && threadAlive && !stopRequested && this.args == args
    {
      if threadAlive {
        return Some(AlreadyRunning);
      }
      this.args := args;
      stopRequested := false;
      threadAlive := true;
      return None;
    }

    /** terminate(): raises the stop flag, which the worker never reads, and says so. */
    method Terminate()
      modifies this, out
      ensures stopRequested && threadAlive == old(threadAlive) && args == old(args)
      ensures out.events == old(out.events) + [Line(StopNotice)]
    {
      stopRequested := true;
      out.Emit(StopNotice);
    }

    /** _worker(): the body of the worker thread, running the module on the arguments run() stored. */
    method Worker(rt: Runtime, moduleAvailable: bool, actions: seq<Action>, outcome: Outcome)
      modifies this, out, rt
      ensures !threadAlive && stopRequested == old(stopRequested) && args == old(args)
      ensures rt.argv == old(rt.argv) && rt.stdout == old(rt.stdout) && rt.stderr == old(rt.stderr)
      ensures out.events == old(out.events) + WorkerEvents(args, moduleAvailable, actions, outcome)
    {
      out.Emit(Echo(args));
      if !moduleAvailable {
        out.Emit(ModuleMissing);
        out.Finish(1);
        threadAlive := false;
        return;
      }
      var code := RunCaptured(rt, out, args, actions, outcome);
      out.Finish(code);
      threadAlive := false;
      RegroupEvents(old(out.events), [Line(Echo(args))], CapturedEvents(actions, outcome), [End(code)]);
    }
  }
}
