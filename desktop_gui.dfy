/**
 * The part of TgradishGUI that is not widgets: which operation runs, the
 * total duration read from the tool's output, the progress bar's value,
 * mode and animation, the percent label and the status line, and the
 * handlers that start a run, read output lines and report completion.
 *
 * The progress widgets become one Bar value (progress_var, lbl_percent's
 * text, the progress bar's mode and whether progress.start() is animating
 * it) and lbl_status's text is the status field. Dialogs show and change
 * nothing here; button enabling is left out.
 */
module DesktopGui {
  import opened Wrappers
  import opened Text
  import opened Markers
  import opened ProgressMath
  import opened Commands
  import opened Events
  import ExternalProcess
  import InProcess

  datatype Operation = Convert | Spoof

  datatype BarMode = Determinate | Indeterminate

  /** What the progress widgets show: progress_var, lbl_percent, the bar's mode, and its animation. */
  datatype Bar = Bar(percent: int, caption: string, mode: BarMode, animating: bool)

  const Ready: string := "Готов"
  const Preparing: string := "Подготовка..."
  const Executing: string := "Выполняется..."
  const Starting: string := "Запуск..."
  const Converting: string := "Конвертация..."
  const Done: string := "Готово"

  /** The percent label: f"{value}%" of the clamped value. */
  function Label(v: int): (s: string)
    ensures |s| >= 2 && s[|s| - 1] == '%'
    ensures AllDigits(s[..|s| - 1]) && DigitsValue(s[..|s| - 1]) == Clamp(v)
    ensures |s| == 2 || s[0] != '0'
  {
    var d := NatToString(Clamp(v));
    assert (d + "%")[..|d|] == d;
    d + "%"
  }

  lemma LabelEnds()
    ensures Label(0) == "0%" && Label(100) == "100%" && Label(50) == "50%"
  {
    assert NatToString(0) == "0";
    assert NatToString(10) == "10";
    assert NatToString(100) == "100";
    assert NatToString(5) == "5";
    assert NatToString(50) == "50";
  }

  /** The status after a failed run: "Ошибка (код N)". */
  function FailureStatus(code: int): string
  {
    "Ошибка (код " + IntToString(code) + ")"
  }

  /** A Duration marker whose total is above 0: the only kind the handler acts on. */
  predicate StartsTotal(text: string)
  {
    Positive(DurationMark(text))
  }

  /** Some line before index k carries a Duration marker above 0. */
  predicate AnyTotal(texts: seq<string>, k: int)
  {
    exists j :: 0 <= j < k && j < |texts| && StartsTotal(texts[j])
  }

  lemma AnyTotalStep(texts: seq<string>, k: nat)
    requires k < |texts|
    ensures AnyTotal(texts, k + 1) == (AnyTotal(texts, k) || StartsTotal(texts[k]))
  {
    if StartsTotal(texts[k]) {
      assert 0 <= k < k + 1;
    }
  }

  class Gui {
    var currentOperation: Option<Operation>
    var totalDuration: Option<real>
    var isIndeterminate: bool
    var bar: Bar
    var status: string
    const process: ExternalProcess.BackgroundRunner
    const inproc: InProcess.InProcessRunner

    constructor (process: ExternalProcess.BackgroundRunner, inproc: InProcess.InProcessRunner)
      ensures currentOperation.None? && totalDuration.None? && !isIndeterminate
      ensures bar == Bar(0, "0%", Determinate, false) && status == Ready
      ensures this.process == process && this.inproc == inproc
    {
      currentOperation := None;
      totalDuration := None;
      isIndeterminate := false;
      bar := Bar(0, "0%", Determinate, false);
      status := Ready;
      this.process := process;
      this.inproc := inproc;
    }

    /** _set_progress(): the bar and the label show the value clamped to 0..100. */
    method SetProgress(v: int)
      modifies this
      ensures bar == old(bar).(percent := Clamp(v), caption := Label(v))
      ensures 0 <= bar.percent <= 100
      ensures currentOperation == old(currentOperation) && totalDuration == old(totalDuration)
      ensures isIndeterminate == old(isIndeterminate) && status == old(status)
    {
      var value := Clamp(v);
      bar := bar.(percent := value, caption := NatToString(value) + "%");
    }

    /** _stop_indeterminate(): stops the animation, but only while the bar is in indeterminate mode. */
    method StopIndeterminate()
      modifies this
      ensures bar == old(bar).(animating := old(bar).animating && old(bar).mode != Indeterminate)
      ensures currentOperation == old(currentOperation) && totalDuration == old(totalDuration)
      ensures isIndeterminate == old(isIndeterminate) && status == old(status)
    {
      if bar.mode == Indeterminate {
        bar := bar.(animating := false);
      }
    }

    /**
     * _reset_progress(): forgets the total, then either a determinate bar at
     * 0% (the mode is switched before the stop check, so a running animation
     * is not stopped) or an animated indeterminate bar labelled "...".
     */
    method ResetProgress(determinate: bool)
      modifies this
      ensures totalDuration.None? && isIndeterminate == !determinate
      ensures determinate ==> bar == Bar(0, "0%", Determinate, old(bar).animating)
      ensures !determinate ==> bar == Bar(0, "...", Indeterminate, true)
      ensures currentOperation == old(currentOperation) && status == old(status)
    {
      totalDuration := None;
      isIndeterminate := !determinate;
      if determinate {
        bar := bar.(mode := Determinate);
        SetProgress(0);
        LabelEnds();
        StopIndeterminate();
      } else {
        bar := bar.(mode := Indeterminate);
        bar := bar.(percent := 0, caption := "...");
        bar := bar.(animating := true);
      }
    }

    /**
     * The Duration half of _process_output_line, as written, given the
     * line's Duration marker in seconds: a first marker above 0 is stored,
     * and the reset that follows clears it again.
     */
    method TakeDuration(mark: Option<real>)
      modifies this
      ensures old(totalDuration).None? && Positive(mark) ==>
                bar == Bar(0, "0%", Determinate, old(bar).animating) && status == Converting && !isIndeterminate
      ensures !(old(totalDuration).None? && Positive(mark)) ==>
                bar == old(bar) && status == old(status) && isIndeterminate == old(isIndeterminate)
      ensures totalDuration == old(totalDuration) && currentOperation == old(currentOperation)
    {
      if totalDuration.None? {
        if mark.Some? && mark.value > 0.0 {
          totalDuration := mark;
          ResetProgress(true);
          status := Converting;
        }
      }
    }

    /** The Duration half of _process_output_line, with the total stored after the reset. */
    method TakeDurationCorrected(mark: Option<real>)
      modifies this
      ensures old(totalDuration).None? && Positive(mark) ==>
                totalDuration == mark &&
                bar == Bar(0, "0%", Determinate, old(bar).animating) && status == Converting && !isIndeterminate
      ensures !(old(totalDuration).None? && Positive(mark)) ==>
                totalDuration == old(totalDuration) &&
                bar == old(bar) && status == old(status) && isIndeterminate == old(isIndeterminate)
      ensures currentOperation == old(currentOperation)
    {
      if totalDuration.None? {
        if mark.Some? && mark.value > 0.0 {
          ResetProgress(true);
          totalDuration := mark;
          status := Converting;
        }
      }
    }

    /** The time= half, given the line's time= marker: with a known total, the bar shows the clamped percent. */
    method TakeTime(mark: Option<real>)
      modifies this
      ensures Known(totalDuration) && mark.Some? ==>
                bar == old(bar).(percent := Percent(mark.value, totalDuration.value),
                                 caption := Label(Percent(mark.value, totalDuration.value)))
      ensures !(Known(totalDuration) && mark.Some?) ==> bar == old(bar)
      ensures currentOperation == old(currentOperation) && totalDuration == old(totalDuration)
      ensures isIndeterminate == old(isIndeterminate) && status == old(status)
    {
      if mark.Some? && Known(totalDuration) {
        SetProgress(Percent(mark.value, totalDuration.value));
      }
    }

    /**
     * _process_output_line(), as written. The total never survives the
     * call, so a time= marker moves the bar only if a total was already
     * known before, which no run reaches; spoof lines change nothing.
     */
    method ProcessOutputLine(text: string)
      modifies this
      ensures totalDuration == old(totalDuration) && currentOperation == old(currentOperation)
      ensures old(currentOperation) != Some(Convert) ==> Untouched(old(bar), old(status), old(isIndeterminate))
      ensures old(currentOperation) == Some(Convert) && old(totalDuration).None? && StartsTotal(text) ==>
                TotalShown(old(bar))
      ensures old(currentOperation) == Some(Convert) && old(totalDuration).None? && !StartsTotal(text) ==>
                Untouched(old(bar), old(status), old(isIndeterminate))
      ensures old(currentOperation) == Some(Convert) && old(totalDuration).Some? ==>
                status == old(status) && isIndeterminate == old(isIndeterminate) &&
                bar == if Known(old(totalDuration)) && TimeMark(text).Some? then
                         var p := Percent(TimeMark(text).value, old(totalDuration).value);
                         old(bar).(percent := p, caption := Label(p))
                       else old(bar)
    {
      if currentOperation == Some(Convert) {
        TakeDuration(DurationMark(text));
        TakeTime(TimeMark(text));
      }
    }

    /** _process_output_line() with the total kept: a time= marker after a Duration marker moves the bar. */
    method ProcessOutputLineCorrected(text: string)
      modifies this
      ensures currentOperation == old(currentOperation)
      ensures old(currentOperation) != Some(Convert) ==>
                totalDuration == old(totalDuration) && bar == old(bar) && status == old(status) &&
                isIndeterminate == old(isIndeterminate)
      ensures old(currentOperation) == Some(Convert) ==>
                totalDuration == (if old(totalDuration).None? && StartsTotal(text) then DurationMark(text)
                                  else old(totalDuration))
      ensures old(currentOperation) == Some(Convert) && old(totalDuration).None? && StartsTotal(text) ==>
                status == Converting && !isIndeterminate
      ensures old(currentOperation) == Some(Convert) && !(old(totalDuration).None? && StartsTotal(text)) ==>
                status == old(status) && isIndeterminate == old(isIndeterminate)
      ensures old(currentOperation) == Some(Convert) ==>
                var reset := if old(totalDuration).None? && StartsTotal(text) then
                               Bar(0, "0%", Determinate, old(bar).animating)
                             else old(bar);
                bar == if Known(totalDuration) && TimeMark(text).Some? then
                         var p := Percent(TimeMark(text).value, totalDuration.value);
                         reset.(percent := p, caption := Label(p))
                       else reset
    {
      if currentOperation == Some(Convert) {
        TakeDurationCorrected(DurationMark(text));
        TakeTime(TimeMark(text));
      }
    }

    /** _finish(): stop any indeterminate animation, then 100% and "Готово", or the failure status. */
    method Finish(exitCode: int)
      modifies this
      ensures bar.mode == old(bar).mode && bar.animating == (old(bar).animating && old(bar).mode != Indeterminate)
      ensures exitCode == 0 ==> bar.percent == 100 && bar.caption == "100%" && status == Done
      ensures exitCode != 0 ==>
                bar.percent == old(bar).percent && bar.caption == old(bar).caption && status == FailureStatus(exitCode)
      ensures currentOperation == old(currentOperation) && totalDuration == old(totalDuration)
      ensures isIndeterminate == old(isIndeterminate)
    {
      StopIndeterminate();
      if exitCode == 0 {
        SetProgress(100);
        LabelEnds();
        status := Done;
      } else {
        status := FailureStatus(exitCode);
      }
    }

    /** _start_process(): "Запуск...", then the chosen runner's run(); its refusal only shows a dialog. */
    method StartProcess(cmd: seq<string>, inprocess: bool) returns (err: Option<string>)
      modifies this, process, inproc
      ensures status == Starting
      ensures inprocess ==>
                (err.Some? <==> old(inproc.threadAlive)) &&
                inproc.State() == InProcess.Started(old(inproc.State()), cmd) &&
                process.State() == old(process.State())
      ensures !inprocess ==>
                (err.Some? <==> old(process.threadAlive)) &&
                process.State() == ExternalProcess.Started(old(process.State()), cmd) &&
                inproc.State() == old(inproc.State())
      ensures err.Some? ==> err == Some(InProcess.AlreadyRunning)
      ensures currentOperation == old(currentOperation) && totalDuration == old(totalDuration)
      ensures bar == old(bar) && isIndeterminate == old(isIndeterminate)
    {
      status := Starting;
      if inprocess {
        err := inproc.Run(cmd);
      } else {
        err := process.Run(cmd);
      }
    }

    /**
     * _run_tgradish_args(): remember the operation, reset the bar (determinate
     * for convert, animated for spoof), then hand the arguments to the
     * runner the environment allows.
     */
    method RunTgradishArgs(args: seq<string>, op: Operation, t: Tools) returns (err: Option<string>)
      modifies this, process, inproc
      ensures currentOperation == Some(op) && totalDuration.None?
      ensures op == Convert ==> bar == Bar(0, "0%", Determinate, old(bar).animating) && !isIndeterminate
      ensures op == Spoof ==> bar == Bar(0, "...", Indeterminate, true) && isIndeterminate
      ensures status == (if !TgradishAvailable(t) then (if op == Convert then Preparing else Executing)
                         else Starting)
      ensures t.hasCli ==>
                (err.Some? <==> old(process.threadAlive)) &&
                process.State() == ExternalProcess.Started(old(process.State()), ["tgradish"] + args) &&
                inproc.State() == old(inproc.State())
      ensures !t.hasCli && t.hasModule ==>
                (err.Some? <==> old(inproc.threadAlive)) &&
                inproc.State() == InProcess.Started(old(inproc.State()), args) &&
                process.State() == old(process.State())
      ensures !TgradishAvailable(t) ==>
                err.None? && process.State() == old(process.State()) && inproc.State() == old(inproc.State())
    {
      currentOperation := Some(op);
      if op == Convert {
        ResetProgress(true);
        status := Preparing;
      } else {
        ResetProgress(false);
        status := Executing;
      }
      match Dispatch(t, args)
      case External(cmd) =>
        err := StartProcess(cmd, false);
      case InProcessRun(a) =>
        err := StartProcess(a, true);
      case NoRunner =>
        err := None;
    }

    /** _on_convert(): a refused press changes nothing; an accepted one starts a convert run. */
    method OnConvert(t: Tools, proceedWithoutFfmpeg: bool, f: Fields, isFile: string -> bool,
                     split: string -> Result<seq<string>, string>) returns (r: Result<seq<string>, Refusal>)
      modifies this, process, inproc
      ensures r == ConvertArgs(t, proceedWithoutFfmpeg, f, isFile, split)
      ensures r.Failure? ==>
                currentOperation == old(currentOperation) && totalDuration == old(totalDuration) &&
                isIndeterminate == old(isIndeterminate) && bar == old(bar) && status == old(status) &&
                process.State() == old(process.State()) && inproc.State() == old(inproc.State())
      ensures r.Success? ==>
                currentOperation == Some(Convert) && totalDuration.None? && status == Starting &&
                bar == Bar(0, "0%", Determinate, old(bar).animating) && !isIndeterminate
      ensures r.Success? && t.hasCli ==>
                process.State() == ExternalProcess.Started(old(process.State()), ["tgradish"] + r.value) &&
                inproc.State() == old(inproc.State())
      ensures r.Success? && !t.hasCli ==>
                inproc.State() == InProcess.Started(old(inproc.State()), r.value) &&
                process.State() == old(process.State())
    {
      r := ConvertArgs(t, proceedWithoutFfmpeg, f, isFile, split);
      if r.Success? {
        var _ := RunTgradishArgs(r.value, Convert, t);
      }
    }

    /** _on_spoof(): a refused press changes nothing; an accepted one starts a spoof run. */
    method OnSpoof(t: Tools, f: Fields, isFile: string -> bool,
                   split: string -> Result<seq<string>, string>) returns (r: Result<seq<string>, Refusal>)
      modifies this, process, inproc
      ensures r == SpoofArgs(t, f, isFile, split)
      ensures r.Failure? ==>
                currentOperation == old(currentOperation) && totalDuration == old(totalDuration) &&
                isIndeterminate == old(isIndeterminate) && bar == old(bar) && status == old(status) &&
                process.State() == old(process.State()) && inproc.State() == old(inproc.State())
      ensures r.Success? ==>
                currentOperation == Some(Spoof) && totalDuration.None? && status == Starting &&
                bar == Bar(0, "...", Indeterminate, true) && isIndeterminate
      ensures r.Success? && t.hasCli ==>
                process.State() == ExternalProcess.Started(old(process.State()), ["tgradish"] + r.value) &&
                inproc.State() == old(inproc.State())
      ensures r.Success? && !t.hasCli ==>
                inproc.State() == InProcess.Started(old(inproc.State()), r.value) &&
                process.State() == old(process.State())
    {
      r := SpoofArgs(t, f, isFile, split);
      if r.Success? {
        var _ := RunTgradishArgs(r.value, Spoof, t);
      }
    }

    /** _on_stop(): always the external runner's terminate(), whichever runner is busy. */
    method OnStop(alive: bool)
      modifies process
      ensures process.stopRequested && process.proc == old(process.proc)
      ensures process.threadAlive == old(process.threadAlive) && process.command == old(process.command)
      ensures process.signals == old(process.signals) + (if old(process.proc).Running? && alive then 1 else 0)
    {
      process.Terminate(alive);
    }

    /**
     * Output lines of a convert run, as written: however many Duration and
     * time= markers they carry, the total stays unknown and the bar only
     * ever shows its old value or 0.
     */
    /** The bar, status and mode a first Duration marker leaves, starting from bar b0. */
    predicate TotalShown(b0: Bar)
      reads this
    {
      bar == Bar(0, "0%", Determinate, b0.animating) && status == Converting && !isIndeterminate
    }

    /** The bar, status and mode are still b0, s0 and i0. */
    predicate Untouched(b0: Bar, s0: string, i0: bool)
      reads this
    {
      bar == b0 && status == s0 && isIndeterminate == i0
    }

    /** Lines read while no total is stored: only the first Duration marker changes what is shown. */
    method ProcessOutputLines(texts: seq<string>)
      requires totalDuration.None?
      modifies this
      ensures totalDuration.None? && currentOperation == old(currentOperation)
      ensures old(currentOperation) == Some(Convert) && AnyTotal(texts, |texts|) ==> TotalShown(old(bar))
      ensures !(old(currentOperation) == Some(Convert) && AnyTotal(texts, |texts|)) ==>
                Untouched(old(bar), old(status), old(isIndeterminate))
    {
      ghost var b0, s0, i0 := bar, status, isIndeterminate;
      var k := 0;
      while k < |texts|
        invariant 0 <= k <= |texts|
        invariant totalDuration.None? && currentOperation == old(currentOperation)
        invariant currentOperation == Some(Convert) && AnyTotal(texts, k) ==> TotalShown(b0)
        invariant !(currentOperation == Some(Convert) && AnyTotal(texts, k)) ==> Untouched(b0, s0, i0)
      {
        AnyTotalStep(texts, k);
        ProcessOutputLine(texts[k]);
        k := k + 1;
      }
    }
  }

  /** An ffmpeg header line announcing 00:01:40.00, that is 100 seconds of input. */
  const DurationLine: string :=
    "  " + DurationKey + " " + (ClockText(Pad2(0), Pad2(1), Pad2(40) + "." + Pad2(0)) + ", start: 0.000000")

  /** An ffmpeg progress line at 00:00:50.00. */
  const ProgressLine: string :=
    "" + TimeKey + (ClockText(Pad2(0), Pad2(0), Pad2(50) + "." + Pad2(0)) + " bitrate=N/A")

  /** The groups of DurationLine's marker. */
  const DurationGroups: Groups := Groups(Pad2(0), Pad2(1), Pad2(40) + "." + Pad2(0))

  lemma DurationLineRead()
    ensures DurationMark(DurationLine) == Some(100.0)
  {
    DurationLineSearch();
    DurationGroupsSeconds();
  }

  lemma DurationLineSearch()
    ensures Search(Duration, DurationLine) == Some(DurationGroups)
  {
    DurationLineMatch();
    BlankStart(DurationLine);
    SearchIsLeftmost(Duration, DurationLine, 2);
  }

  lemma DurationGroupsSeconds()
    ensures Seconds(DurationGroups) == 100.0
  {
    PaddedSeconds(0, 1, 40, 0);
  }

  lemma DurationLineMatch()
    ensures MatchAt(Duration, DurationLine, 2) == Some(DurationGroups)
  {
    PaddedSeconds(0, 1, 40, 0);
    DurationRendered("  ", " ", Pad2(0), Pad2(1), Pad2(40) + "." + Pad2(0), ", start: 0.000000");
  }

  /** No Duration marker starts on a blank. */
  lemma BlankStart(s: string)
    requires |s| >= 2 && s[0] == ' ' && s[1] == ' '
    ensures forall j :: 0 <= j < 2 ==> MatchAt(Duration, s, j).None?
  {
    assert s[0..][0] != DurationKey[0];
    assert s[1..][0] != DurationKey[0];
  }

  lemma ProgressLineRead()
    ensures TimeMark(ProgressLine) == Some(50.0)
  {
    var sec := Pad2(50) + "." + Pad2(0);
    PaddedSeconds(0, 0, 50, 0);
    TimeRendered("", Pad2(0), Pad2(0), sec, " bitrate=N/A");
    SearchIsLeftmost(Time, ProgressLine, 0);
  }

  /**
   * As written: a convert run that reads "Duration: 00:01:40.00" and then
   * "time=00:00:50.00" recognises the duration, yet its bar still shows 0%.
   */
  method StalledBar() returns (p: int, total: Option<real>, s: string)
    ensures p == 0 && total.None? && s == Converting
  {
    var out := new Channel();
    var process := new ExternalProcess.BackgroundRunner(out);
    var inproc := new InProcess.InProcessRunner(out);
    var gui := new Gui(process, inproc);
    var _ := gui.RunTgradishArgs(["convert", "-i", "in.mp4"], Convert, Tools(true, false, true));
    DurationLineRead();
    gui.ProcessOutputLine(DurationLine);
    gui.ProcessOutputLine(ProgressLine);
    p, total, s := gui.bar.percent, gui.totalDuration, gui.status;
  }

  /** Corrected: the same two lines leave the total at 100 seconds and the bar at 50%. */
  method MovingBar() returns (p: int, total: Option<real>, shown: string)
    ensures p == 50 && total == Some(100.0) && shown == "50%"
  {
    var out := new Channel();
    var process := new ExternalProcess.BackgroundRunner(out);
    var inproc := new InProcess.InProcessRunner(out);
    var gui := new Gui(process, inproc);
    var _ := gui.RunTgradishArgs(["convert", "-i", "in.mp4"], Convert, Tools(true, false, true));
    DurationLineRead();
    ProgressLineRead();
    gui.ProcessOutputLineCorrected(DurationLine);
    gui.ProcessOutputLineCorrected(ProgressLine);
    assert Percent(50.0, 100.0) == 50;
    LabelEnds();
    p, total, shown := gui.bar.percent, gui.totalDuration, gui.bar.caption;
  }
}
