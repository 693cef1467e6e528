/**
 * The Android front end's Root widget, without its widgets: the ffmpeg
 * command line run_convert builds and hands to FFmpegKit.executeAsync, the
 * stored total duration, the progress bar's value and the status label,
 * and the three ffmpeg-kit callbacks (log lines, statistics, completion).
 *
 * Clock.schedule_once defers each widget update to the UI thread; here the
 * update happens when the callback runs. The text fields' contents, the
 * statistics time in milliseconds, the session's success and the text of
 * its return code are inputs.
 */
module AndroidApp {
  import opened Wrappers
  import opened Text
  import opened Markers
  import opened ProgressMath

  const Ready: string := "Готов"
  const Starting: string := "Запуск..."
  const Converting: string := "Конвертация..."
  const Done: string := "Готово"

  /** The video filter for Telegram video stickers: fit into 512x512, pad with black. */
  const Vf: string := "scale=512:-2:force_original_aspect_ratio=decrease,pad=512:512:(ow-iw)/2:(oh-ih)/2:color=black"

  /** Everything of the base command line before the quoted output. */
  function BaseFlags(i: string): string
  {
    "-y -i '" + i + "' -vf " + Vf
    + " -r 30 -an -c:v libvpx-vp9 -b:v 0 -crf 32 -pix_fmt yuv420p -deadline good -speed 4 "
  }

  /** The output path in single quotes, as the command line writes it. */
  function Quoted(o: string): (q: string)
    ensures |q| == |o| + 2
    ensures q[0] == '\'' && q[|q| - 1] == '\'' && q[1..|q| - 1] == o
  {
    "'" + o + "'"
  }

  /** The output field, or the input path with ".webm" appended when the field is blank. */
  function OutputPath(i: string, outputText: string): (o: string)
    ensures o != ""
    ensures Strip(outputText) != "" ==> o == Strip(outputText)
    ensures Strip(outputText) == "" ==> |o| == |i| + 5 && o[..|i|] == i && o[|i|..] == ".webm"
  {
    var typed := Strip(outputText);
    if typed != "" then typed
    else
      var o := i + ".webm";
      assert o[..|i|] == i && o[|i|..] == ".webm";
      o
  }

  /**
   * The command line: the base command, and with extras the quoted output
   * cut off its end and put back after them. The cut always removes
   * exactly the quoted output, so the extras land between the fixed flags
   * (which end in a space, hence the doubled space) and the output.
   */
  function CommandLine(i: string, o: string, extra: string): (r: string)
    ensures extra == "" ==> r == BaseFlags(i) + Quoted(o)
    ensures extra != "" ==> r == BaseFlags(i) + " " + extra + " " + Quoted(o)
  {
    var flags := BaseFlags(i);
    var base := flags + Quoted(o);
    Cut(flags, Quoted(o));
    if extra != "" then base[..|base| - |Quoted(o)|] + " " + extra + " " + Quoted(o)
    else base
  }

  /** Whatever the extras, the command line ends with the quoted output path. */
  lemma CommandEndsWithOutput(i: string, o: string, extra: string)
    ensures var r := CommandLine(i, o, extra);
            |r| >= |o| + 2 && r[|r| - (|o| + 2)..] == Quoted(o)
  {
    var front := if extra != "" then BaseFlags(i) + " " + extra + " " else BaseFlags(i);
    assert CommandLine(i, o, extra) == front + Quoted(o);
    Cut(front, Quoted(o));
  }

  /** The command line run_convert builds from the three text fields. */
  method BuildCommand(inputText: string, outputText: string, extraText: string) returns (c: string)
    ensures c == CommandLine(Strip(inputText), OutputPath(Strip(inputText), outputText), Strip(extraText))
  {
    var i := Strip(inputText);
    var o := OutputPath(i, outputText);
    var extra := Strip(extraText);
    c := CommandLine(i, o, extra);
  }

  /** Cutting |b| characters off the end of a + b leaves a, and the cut-off part is b. */
  lemma Cut(a: string, b: string)
    ensures (a + b)[..|a + b| - |b|] == a && (a + b)[|a + b| - |b|..] == b
  {
  }

  /** The Duration marker of each line, in seconds. */
  function DurationMarks(texts: seq<string>): (marks: seq<Option<real>>)
    ensures |marks| == |texts| && forall k :: 0 <= k < |texts| ==> marks[k] == DurationMark(texts[k])
  {
    seq(|texts|, k requires 0 <= k < |texts| => DurationMark(texts[k]))
  }

  /** The time= marker of each line, in seconds. */
  function TimeMarks(texts: seq<string>): (marks: seq<Option<real>>)
    ensures |marks| == |texts| && forall k :: 0 <= k < |texts| ==> marks[k] == TimeMark(texts[k])
  {
    seq(|texts|, k requires 0 <= k < |texts| => TimeMark(texts[k]))
  }

  /** The index of the last marker present at or after from and before upto, if any. */
  function LastTimeIn(marks: seq<Option<real>>, from: nat, upto: nat): (j: Option<nat>)
    requires upto <= |marks|
    ensures j.Some? ==>
              from <= j.value < upto && marks[j.value].Some? &&
              forall k :: j.value < k < upto ==> marks[k].None?
    ensures j.None? ==> forall k :: from <= k < upto ==> marks[k].None?
    decreases upto
  {
    if upto <= from then None
    else if marks[upto - 1].Some? then Some(upto - 1)
    else LastTimeIn(marks, from, upto - 1)
  }

  /** The index of the first line read with a total stored: 0 when one already was. */
  function KnownFrom(total: Option<real>, marks: seq<Option<real>>): nat
  {
    if total.Some? then 0 else FirstMarked(marks)
  }

  /**
   * The bar after the first k lines with these time= markers, when the
   * total final is stored from line n on and the bar showed bar before.
   */
  function BarShown(times: seq<Option<real>>, k: nat, n: nat, final: Option<real>, bar: int): int
    requires k <= |times|
  {
    var j := LastTimeIn(times, n, k);
    if j.Some? && Known(final) then Percent(times[j.value].value, final.value) else bar
  }

  /** The total stored after lines with these Duration markers: a stored one is never replaced. */
  function Latched(total: Option<real>, marks: seq<Option<real>>): Option<real>
    decreases |marks|
  {
    if total.Some? || marks == [] then total else Latched(marks[0], marks[1..])
  }

  /** The index of the first marker present, or |marks| when there is none. */
  function FirstMarked(marks: seq<Option<real>>): (n: nat)
    ensures n <= |marks|
    ensures forall k :: 0 <= k < n ==> marks[k].None?
    ensures n < |marks| ==> marks[n].Some?
  {
    if marks == [] || marks[0].Some? then 0 else 1 + FirstMarked(marks[1..])
  }

  /**
   * Starting without a total, the stored total is the first Duration
   * marker of the lines (even a Duration of 0), and stays unknown only when
   * no line has one.
   */
  lemma {:induction false} LatchedIsFirst(marks: seq<Option<real>>)
    ensures var n := FirstMarked(marks);
            Latched(None, marks) == if n < |marks| then marks[n] else None
  {
    if marks != [] && marks[0].None? {
      LatchedIsFirst(marks[1..]);
      var n := FirstMarked(marks[1..]);
      assert FirstMarked(marks) == n + 1;
      if n < |marks[1..]| {
        assert marks[1..][n] == marks[n + 1];
      }
    }
  }

  /** The total before line k is the old one up to the line that latches it, the final one after. */
  lemma LatchStep(total: Option<real>, marks: seq<Option<real>>, k: nat)
    requires k < |marks|
    ensures var n := KnownFrom(total, marks);
            var final := Latched(total, marks);
            var before := if k <= n then total else final;
            (if before.None? then marks[k] else before) == if k + 1 <= n then total else final
  {
    if total.None? {
      LatchedIsFirst(marks);
    }
  }

  /** After every line, the total is the old one or, from the latching line on, the final one. */
  /** Reading line k stores a total exactly when none was given and k is the first line with a Duration marker. */
  lemma LatchFirst(total: Option<real>, marks: seq<Option<real>>, k: nat)
    requires k < |marks|
    ensures var n := KnownFrom(total, marks);
            var before := if k <= n then total else Latched(total, marks);
            (before.None? && marks[k].Some?) <==> (total.None? && k == n)
  {
    if total.None? {
      LatchedIsFirst(marks);
    }
  }

  lemma LatchEnd(total: Option<real>, marks: seq<Option<real>>)
    ensures (if |marks| <= KnownFrom(total, marks) then total else Latched(total, marks)) == Latched(total, marks)
  {
    if total.None? {
      LatchedIsFirst(marks);
    }
  }

  class Root {
    /** self._thread: None, or a thread and whether it is alive. */
    var thread: Option<bool>
    var total: Option<real>
    var barValue: int
    var status: string

    /** The bar's value stays within the 0..100 range of the progress bar. */
    predicate Valid()
      reads this
    {
      0 <= barValue <= 100
    }

    constructor ()
      ensures thread.None? && total.None? && barValue == 0 && status == Ready
      ensures Valid()
    {
      thread := None;
      total := None;
      barValue := 0;
      status := Ready;
    }

    /**
     * run_convert(): with a live thread nothing happens; otherwise the
     * status shows "Запуск...", the bar 0, the total is forgotten, and the
     * command line is handed to ffmpeg-kit.
     */
    method RunConvert(inputText: string, outputText: string, extraText: string) returns (command: Option<string>)
      modifies this
      ensures old(thread) == Some(true) ==>
                command.None? && total == old(total) && barValue == old(barValue) && status == old(status)
      ensures old(thread) != Some(true) ==>
                command == Some(CommandLine(Strip(inputText), OutputPath(Strip(inputText), outputText),
                                            Strip(extraText))) &&
                status == Starting && barValue == 0 && total.None?
      ensures thread == old(thread)
    {
      if thread.Some? && thread.value {
        return None;
      }
      var c := BuildCommand(inputText, outputText, extraText);
      Announce();
      command := Some(c);
    }

    /** The widget updates of an accepted run_convert: "Запуск...", an empty bar, no total. */
    method Announce()
      modifies this
      ensures status == Starting && barValue == 0 && total.None? && thread == old(thread)
    {
      status := Starting;
      barValue := 0;
      total := None;
    }

    /** The Duration half of _handle_log_progress, given the line's Duration marker: only the first is stored. */
    method TakeDuration(mark: Option<real>)
      modifies this
      ensures total == (if old(total).None? then mark else old(total))
      ensures status == (if old(total).None? && mark.Some? then Converting else old(status))
      ensures barValue == old(barValue) && thread == old(thread)
    {
      if total.None? {
        if mark.Some? {
          total := mark;
          status := Converting;
        }
      }
    }

    /** The time= half, given the line's time= marker: with a total other than 0 the bar shows the clamped percent. */
    method TakeTime(mark: Option<real>)
      modifies this
      ensures Known(total) && mark.Some? ==> barValue == Percent(mark.value, total.value)
      ensures !(Known(total) && mark.Some?) ==> barValue == old(barValue)
      ensures total == old(total) && status == old(status) && thread == old(thread)
    {
      if mark.Some? && Known(total) {
        barValue := Percent(mark.value, total.value);
      }
    }

    /**
     * _handle_log_progress(): the Duration marker is read first, so a line
     * carrying both markers already measures its time= against the total
     * it has just stored.
     */
    method HandleLogProgress(text: string)
      modifies this
      ensures total == (if old(total).None? then DurationMark(text) else old(total))
      ensures status == (if old(total).None? && DurationMark(text).Some? then Converting else old(status))
      ensures Known(total) && TimeMark(text).Some? ==> barValue == Percent(TimeMark(text).value, total.value)
      ensures !(Known(total) && TimeMark(text).Some?) ==> barValue == old(barValue)
      ensures thread == old(thread)
    {
      ReadMarks(DurationMark(text), TimeMark(text));
    }

    /** The two steps of _handle_log_progress on the markers a line carries. */
    method ReadMarks(duration: Option<real>, time: Option<real>)
      modifies this
      ensures total == (if old(total).None? then duration else old(total))
      ensures status == (if old(total).None? && duration.Some? then Converting else old(status))
      ensures Known(total) && time.Some? ==> barValue == Percent(time.value, total.value)
      ensures !(Known(total) && time.Some?) ==> barValue == old(barValue)
      ensures thread == old(thread)
    {
      TakeDuration(duration);
      TakeTime(time);
    }

    /**
     * A run of log lines: the first Duration is latched, and the bar shows
     * the percent of the last time= marker read once that total was stored
     * (when it is not 0), or keeps its old value when there is none.
     */
    method HandleLogLines(texts: seq<string>)
      requires Valid()
      modifies this
      ensures total == Latched(old(total), DurationMarks(texts))
      ensures status == if old(total).None? && FirstMarked(DurationMarks(texts)) < |texts| then Converting
                        else old(status)
      ensures var j := LastTimeIn(TimeMarks(texts), KnownFrom(old(total), DurationMarks(texts)), |texts|);
              barValue == if j.Some? && Known(total) then Percent(TimeMarks(texts)[j.value].value, total.value)
                          else old(barValue)
      ensures Valid() && thread == old(thread)
    {
      ReadLines(DurationMarks(texts), TimeMarks(texts));
    }

    /** The log callback on lines carrying these Duration and time= markers, one line at a time. */
    method ReadLines(marks: seq<Option<real>>, times: seq<Option<real>>)
      requires |marks| == |times| && Valid()
      modifies this
      ensures total == Latched(old(total), marks)
      ensures status == if old(total).None? && FirstMarked(marks) < |marks| then Converting else old(status)
      ensures var j := LastTimeIn(times, KnownFrom(old(total), marks), |times|);
              barValue == if j.Some? && Known(total) then Percent(times[j.value].value, total.value)
                          else old(barValue)
      ensures Valid() && thread == old(thread)
    {
      ghost var total0, bar0, status0 := total, barValue, status;
      ghost var final, n := Latched(total0, marks), KnownFrom(total0, marks);
      var k := 0;
      while k < |marks|
        invariant 0 <= k <= |marks|
        invariant total == if k <= n then total0 else final
        invariant status == if total0.None? && n < k then Converting else status0
        invariant barValue == BarShown(times, k, n, final, bar0)
        invariant Valid() && thread == old(thread)
      {
        LatchStep(total0, marks, k);
        LatchFirst(total0, marks, k);
        ReadMarks(marks[k], times[k]);
        k := k + 1;
      }
      LatchEnd(total0, marks);
    }

    /** on_stats(): with a total other than 0, the bar shows the clamped percent of the elapsed milliseconds. */
    method OnStats(tms: int)
      modifies this
      ensures total == old(total) && status == old(status) && thread == old(thread)
      ensures Known(total) ==> barValue == Percent(tms as real / 1000.0, total.value)
      ensures !Known(total) ==> barValue == old(barValue)
    {
      if Known(total) {
        barValue := Percent(tms as real / 1000.0, total.value);
      }
    }

    /** on_complete(): 100 and "Готово" on success, else 0 and the return code in parentheses. */
    method OnComplete(ok: bool, rcText: string)
      modifies this
      ensures ok ==> barValue == 100 && status == Done
      ensures !ok ==> barValue == 0 && status == "Ошибка (" + rcText + ")"
      ensures total == old(total) && thread == old(thread)
    {
      barValue := if ok then 100 else 0;
      status := if ok then Done else "Ошибка (" + rcText + ")";
    }
  }

  /** The clock fields hours, minutes, seconds and hundredths. */
  datatype Hms = Hms(h: nat, m: nat, w: nat, c: nat)

  predicate ValidClock(k: Hms)
  {
    k.h < 100 && k.m < 60 && k.w < 60 && k.c < 100
  }

  /** The progress line ffmpeg prints at clock k, "time=HH:MM:SS.CC bitrate=N/A". */
  function ClockLine(k: Hms): string
    requires ValidClock(k)
  {
    TimeKey + (ClockText(Pad2(k.h), Pad2(k.m), Pad2(k.w) + "." + Pad2(k.c)) + " bitrate=N/A")
  }

  /** The milliseconds of output clock k shows. */
  function ClockMillis(k: Hms): nat
  {
    ((k.h * 60 + k.m) * 60 + k.w) * 1000 + k.c * 10
  }

  /** The clock ffmpeg shows at tms milliseconds of output (below 100 hours), cut to hundredths. */
  function StatsClock(tms: nat): (k: Hms)
    requires tms < 360000000
    ensures ValidClock(k)
  {
    var q := tms / 10;
    var mm := q / 100 / 60;
    Hms(mm / 60, mm % 60, q / 100 % 60, q % 100)
  }

  /** Every whole number of hundredths below 100 hours is shown by exactly one clock. */
  lemma StatsClockRoundTrip(tms: nat, k: Hms)
    requires tms < 360000000 && ValidClock(k)
    ensures tms % 10 == 0 ==> ClockMillis(StatsClock(tms)) == tms
    ensures StatsClock(ClockMillis(k)) == k
  {
    var q := tms / 10;
    var mm := q / 100 / 60;
    assert ClockMillis(StatsClock(tms)) == (q / 100) * 1000 + q % 100 * 10;
    var n := ClockMillis(k);
    assert n / 10 == ((k.h * 60 + k.m) * 60 + k.w) * 100 + k.c;
    assert n / 10 / 100 == (k.h * 60 + k.m) * 60 + k.w;
    assert n / 10 / 100 / 60 == k.h * 60 + k.m;
  }

  /** The seconds clock k shows, as the log handler computes them. */
  function ClockSeconds(k: Hms): real
  {
    (k.h * 3600 + k.m * 60 + k.w) as real + k.c as real / 100.0
  }

  /** The time= marker of a progress line is found at its start, with the clock's three fields. */
  lemma ClockLineSearch(k: Hms)
    requires ValidClock(k)
    ensures Search(Time, ClockLine(k)) == Some(Groups(Pad2(k.h), Pad2(k.m), Pad2(k.w) + "." + Pad2(k.c)))
  {
    var sec := Pad2(k.w) + "." + Pad2(k.c);
    var line := ClockLine(k);
    DottedParts(Pad2(k.w), Pad2(k.c));
    TimeRendered("", Pad2(k.h), Pad2(k.m), sec, " bitrate=N/A");
    assert "" + TimeKey + (ClockText(Pad2(k.h), Pad2(k.m), sec) + " bitrate=N/A") == line;
    SearchIsLeftmost(Time, line, 0);
  }

  /** A progress line reads back as h * 3600 + m * 60 + w + c / 100 seconds. */
  lemma ClockLineRead(k: Hms)
    requires ValidClock(k)
    ensures TimeMark(ClockLine(k)) == Some(ClockSeconds(k))
  {
    var g := Groups(Pad2(k.h), Pad2(k.m), Pad2(k.w) + "." + Pad2(k.c));
    ClockLineSearch(k);
    PaddedSeconds(k.h, k.m, k.w, k.c);
    MarkOf(ClockLine(k), g, ClockSeconds(k));
  }

  /** A line whose leftmost time= match has groups g reads back as the seconds of g. */
  lemma MarkOf(line: string, g: Groups, v: real)
    requires Search(Time, line) == Some(g) && WellFormed(g) && Seconds(g) == v
    ensures TimeMark(line) == Some(v)
  {
  }

  lemma ClockMillisSeconds(k: Hms)
    ensures ClockSeconds(k) == ClockMillis(k) as real / 1000.0
  {
  }

  /** The bar after the progress line for clock k, with a total of seconds stored. */
  method LogBarAt(k: Hms, seconds: real) returns (bar: int)
    requires ValidClock(k) && seconds != 0.0
    ensures bar == Percent(ClockSeconds(k), seconds)
  {
    ClockLineRead(k);
    var r := new Root();
    r.TakeDuration(Some(seconds));
    r.HandleLogProgress(ClockLine(k));
    bar := r.barValue;
  }

  /** The bar after on_stats(tms), with a total of seconds stored. */
  method StatsBarAt(tms: nat, seconds: real) returns (bar: int)
    requires seconds != 0.0
    ensures bar == Percent(tms as real / 1000.0, seconds)
  {
    var r := new Root();
    r.TakeDuration(Some(seconds));
    r.OnStats(tms);
    bar := r.barValue;
  }

  /**
   * The statistics callback and the log callback agree: with a total
   * stored, the progress line ffmpeg prints at clock k and on_stats with
   * the milliseconds k shows leave the bar at the same value.
   */
  method StatsMatchLog(k: Hms, seconds: real) returns (viaLog: int, viaStats: int)
    requires ValidClock(k) && seconds != 0.0
    ensures viaLog == viaStats == Percent(ClockMillis(k) as real / 1000.0, seconds)
  {
    viaLog := LogBarAt(k, seconds);
    viaStats := StatsBarAt(ClockMillis(k), seconds);
    ClockMillisSeconds(k);
  }
}
