# tgradish front ends, modelled in Dafny

tgradish turns videos into Telegram video stickers (VP9 `.webm`, 512x512)
and "spoofs" existing stickers. This project models the logic of its two
front ends. Widgets, threads and the operating system are left out.

- **Desktop GUI** (`gui_tgradish.py`):
  - It checks the tool environment and builds tgradish argument lists
    from the Convert and Spoof tabs.
  - It runs tgradish either as an external process (`BackgroundProcessRunner`)
    or as a module inside its own interpreter (`InProcessTgradishRunner`,
    with its line-buffering `_Stream` adapters).
  - It reads ffmpeg's `Duration:` and `time=` markers from the output to
    drive a progress bar and a status line.
  - At start-up it tries to put a bundled ffmpeg directory on `PATH`.
- **Android app** (`android/main.py`):
  - It builds an ffmpeg command line for ffmpeg-kit.
  - It keeps the total duration read from the log.
  - It moves its progress bar from log lines and statistics.
  - It reports completion.

Modules:

| module | file | what it holds |
|---|---|---|
| `Wrappers` | `wrappers.dfy` | `Option` and `Result` |
| `Text` | `text.dfy` | `str.strip`, `str()` of integers, `' '.join`, `in` on strings, `shlex.quote` and how a POSIX shell reads a quoted word back |
| `Markers` | `markers.dfy` | the two regular expressions, found leftmost as `re.search` finds them, and the seconds value `int(h)*3600 + int(m)*60 + float(s)` |
| `ProgressMath` | `progress_math.dfy` | `max(0, min(100, int(cur / total * 100)))` |
| `Events` | `events.dfy` | the two callbacks a runner reports to, as an ordered event log |
| `LineStream` | `line_stream.dfy` | the `_Stream` class |
| `InProcess` | `inprocess_runner.dfy` | `InProcessTgradishRunner` |
| `ExternalProcess` | `process_runner.dfy` | `BackgroundProcessRunner` |
| `Commands` | `commands.dfy` | `DependencyChecker`, the argument lists of `_on_convert` and `_on_spoof`, and the runner choice |
| `DesktopGui` | `desktop_gui.dfy` | the `TgradishGUI` state and handlers |
| `FfmpegPath` | `ffmpeg_path.dfy` | `_inject_embedded_ffmpeg_into_path` and `os.environ` |
| `AndroidApp` | `android.dfy` | the Kivy `Root` widget's state and callbacks |

Everything the environment answers is a parameter:
- `shutil.which`, `importlib.util.find_spec`, `os.path.isfile`/`isdir`, `os.path.join`;
- the yes/no dialog answer, `shlex.split`;
- the child's lines and exit code, and the tool module's writes and outcome;
- `poll()` results, and the timing of a racing `terminate()`;
- the ffmpeg-kit callbacks' arguments.

## Model

| member | source | states |
|---|---|---|
| Text.Strip | gui_tgradish.py:416 | `str.strip` gives a text that sits in the input with only whitespace before and after it, and that neither starts nor ends with whitespace |
| Text.TrimStart | gui_tgradish.py:416 | what `lstrip` leaves is a suffix of the input, everything removed is whitespace, and the result does not start with whitespace |
| Text.TrimEnd | gui_tgradish.py:416 | what `rstrip` leaves is a prefix of the input, everything removed is whitespace, and the result does not end with whitespace |
| Text.NatToString | gui_tgradish.py:587 | `str()` of a natural is a non-empty digit string without a leading zero that reads back as the number |
| Text.IntToString | gui_tgradish.py:558 | `str()` of an integer starts with '-' exactly for negative values, and the rest is a digit string without a leading zero that reads back as the absolute value |
| Text.FirstIndexOf | gui_tgradish.py:160 | the index found holds the character and no earlier index does; None exactly when it does not occur |
| Text.ContainsAt | gui_tgradish.py:690 | the string `in` test holds exactly when the needle occurs at some offset |
| Text.EchoReadsBack | gui_tgradish.py:83 | a POSIX shell reading the echoed `' '.join(shlex.quote(c) for c in command)` line splits it into exactly the original arguments, in order |
| Text.Quote | gui_tgradish.py:83 | `shlex.quote` never yields the empty word |
| Text.QuoteRoundTrip | gui_tgradish.py:83 | a POSIX shell reading a `shlex.quote`d word gets back exactly the original argument, quotes and empty string included |
| Markers.DigitRun | gui_tgradish.py:517 | `\d+` takes exactly the maximal run of digits at the offset |
| Markers.SpaceRun | gui_tgradish.py:517 | `\s*` takes exactly the maximal run of whitespace after `Duration:` |
| Markers.SecondsPrefix | gui_tgradish.py:517 | `\d+\.?\d*` captures a prefix of the text, which is non-empty exactly when the text starts with a digit |
| Markers.Clock | gui_tgradish.py:517 | a clock match yields three well-formed groups |
| Markers.FindFrom | gui_tgradish.py:517 | the offset found is the first one at or after the start where the pattern matches; None means no offset matches |
| Markers.Search | gui_tgradish.py:517 | `re.search` finds nothing exactly when no offset matches, and its groups are well formed |
| Markers.SearchIsLeftmost | gui_tgradish.py:530 | `re.search` reports the match at the first matching offset |
| Markers.SecondsValue | gui_tgradish.py:521 | `float()` of the seconds group is never negative |
| Markers.Seconds | gui_tgradish.py:521 | the value computed from a marker's groups is never negative |
| Markers.ClockRendered | gui_tgradish.py:517 | clock text `h:m:s` written by ffmpeg is read back as exactly its three parts |
| Markers.DurationRendered | gui_tgradish.py:517 | a `Duration:` marker written anywhere in a line, after any whitespace, is matched at its own offset with its three groups |
| Markers.TimeRendered | gui_tgradish.py:530 | a `time=` marker written anywhere in a line is matched at its own offset with its three groups |
| Markers.SecondsRendered | gui_tgradish.py:521 | `H:M:W.F` is worth `H*3600 + M*60 + W + F/10^len(F)` seconds |
| ProgressMath.Trunc | gui_tgradish.py:535 | Python's `int()` on a number truncates toward zero |
| ProgressMath.Clamp | gui_tgradish.py:585 | `max(0, min(100, v))` lies in 0..100: v itself inside that range, 0 below it, 100 above it |
| ProgressMath.Percent | gui_tgradish.py:535 | the bar value lies in 0..100 |
| ProgressMath.PercentIsFloor | gui_tgradish.py:535 | inside the run, the bar value is the floor of `100 * cur / total` |
| ProgressMath.PercentMonotone | gui_tgradish.py:535 | a later timestamp never gives a smaller bar value |
| ProgressMath.PercentEnds | gui_tgradish.py:535 | the bar reads 0 at or before the start and 100 once the position reaches the total |
| Events.LinesAppend | gui_tgradish.py:106 | lines delivered in two batches are the lines of both, in order |
| Events.Channel.Emit | gui_tgradish.py:60 | `on_output_line` appends one output line to what the window has received |
| Events.Channel.Finish | gui_tgradish.py:61 | `on_process_end` appends one completion with its code |
| LineStream.PiecesAreLines | gui_tgradish.py:159-161 | every piece `write` hands over ends in its only newline |
| LineStream.RestHasNoNewline | gui_tgradish.py:159 | what stays buffered holds no newline |
| LineStream.Conserves | gui_tgradish.py:157-161 | the pieces handed over, followed by the buffer, spell exactly the text written: nothing lost, duplicated or reordered |
| LineStream.Unique | gui_tgradish.py:157-161 | there is only one way to cut a text into complete lines plus a remainder without a newline |
| LineStream.Chunked | gui_tgradish.py:157-161 | two writes hand over the same lines and keep the same remainder as one write of both texts |
| LineStream.Stream.constructor | gui_tgradish.py:153-155 | a new stream has an empty buffer and the given callback |
| LineStream.Stream.Write | gui_tgradish.py:157-161 | `write` hands over every complete line of buffer plus text, in order, and keeps the rest |
| LineStream.Stream.Flush | gui_tgradish.py:163-166 | `flush` hands over a non-empty buffer once and empties it |
| InProcess.ExitCode | gui_tgradish.py:171-181 | `SystemExit` with an int code reports that code; a code that `int()` accepts gives its value, one it rejects gives 1; an exception or `sys.exit(None)` gives 1; 0 exactly for a normal return or a zero code |
| InProcess.InterpreterStatus | gui_tgradish.py:174-176 | the status Python itself gives `SystemExit`: None and 0 are success, an int is itself |
| InProcess.BareExitReportedAsFailure | gui_tgradish.py:176 | `sys.exit()` is success for the interpreter but the worker reports 1 |
| InProcess.Runtime.constructor | gui_tgradish.py:148-150 | the interpreter's argv, stdout and stderr as given |
| InProcess.ReplaySnoc | gui_tgradish.py:157-166 | replaying one more action extends the lines and updates the buffers by that action alone |
| InProcess.DrainFlushed | gui_tgradish.py:184-185 | the final flushes hand over stdout's remainder, then stderr's |
| InProcess.WorkerCompletesOnce | gui_tgradish.py:140-192 | the echo comes first and completion exactly once and last; its code is 1 when the module is missing, else the mapped exit code |
| InProcess.StepConserves | gui_tgradish.py:157-166 | on stdout alone, one write or flush keeps "handed over + buffered = written" |
| InProcess.ReplayConserves | gui_tgradish.py:157-166 | for a module that only prints, the lines handed over so far plus the buffer spell what it printed |
| InProcess.StdoutDelivered | gui_tgradish.py:168-185 | for a module that only prints, the delivered lines plus the final flush are exactly the text it printed |
| InProcess.Apply | gui_tgradish.py:157-166 | one write or flush on one adapter delivers the lines the specification of that step gives |
| InProcess.RunModule | gui_tgradish.py:169-173 | run with argv `['tgradish'] + args` and the two adapters installed as stdout and stderr, the module delivers the replayed lines and leaves the replayed buffers |
| InProcess.RunCaptured | gui_tgradish.py:148-190 | argv, stdout and stderr are swapped in and restored; the delivered events are the module's lines, a fault line, then the flushed remainders; the code is the mapped exit code |
| InProcess.RunAndFlush | gui_tgradish.py:171-187 | with argv and the two adapters swapped in, the module runs, a fault is reported, both adapters are flushed, and the code is the mapped exit code |
| InProcess.InProcessRunner.constructor | gui_tgradish.py:122-126 | no worker and no stop request |
| InProcess.InProcessRunner.Run | gui_tgradish.py:128-133 | a live worker refuses with the "already running" message and keeps its arguments; otherwise the stop flag clears and a worker starts on exactly these arguments |
| InProcess.InProcessRunner.Terminate | gui_tgradish.py:135-138 | stop only raises the flag and prints the notice; the worker and its arguments are untouched |
| InProcess.InProcessRunner.Worker | gui_tgradish.py:140-192 | the worker echoes and runs the arguments `run()` stored, delivers exactly the specified events, restores the interpreter's values and ends the thread |
| ExternalProcess.FirstInterrupt | gui_tgradish.py:103-105 | the first line at which a racing `terminate()` lands, every earlier one passing |
| ExternalProcess.WorkerCompletesOnce | gui_tgradish.py:81-116 | the echo comes first and completion exactly once and last; a failed launch adds one diagnostic and reports 1, a started one reports what `wait()` returned |
| ExternalProcess.ForwardedLines | gui_tgradish.py:102-106 | the forwarded lines are a prefix of the child's output, cut short exactly when a stop was requested |
| ExternalProcess.LinesSnoc | gui_tgradish.py:106 | forwarding one more line appends it |
| ExternalProcess.BackgroundRunner.constructor | gui_tgradish.py:59-64 | no thread, no child, no stop request |
| ExternalProcess.BackgroundRunner.Run | gui_tgradish.py:66-71 | a live worker refuses with the "already running" message and keeps its command; otherwise the stop flag clears and a worker starts on exactly this command |
| ExternalProcess.BackgroundRunner.Terminate | gui_tgradish.py:73-79 | stop raises the flag and signals the child only when it was started and is still running |
| ExternalProcess.BackgroundRunner.Pump | gui_tgradish.py:102-106 | the loop forwards the lines before the first one read with the flag up, unchanged and in order |
| ExternalProcess.BackgroundRunner.Worker | gui_tgradish.py:81-116 | the worker launches the command `run()` stored and delivers exactly the specified events; after a launch it records the exit code and the signals sent |
| ExternalProcess.BackgroundRunner.RunChild | gui_tgradish.py:101-116 | a started child: its lines, a second SIGTERM if stopped and still alive, then its exit code |
| Commands.ConvertArgs | gui_tgradish.py:409-437 | a convert press is accepted exactly when the tool exists, ffmpeg exists or the user goes on, the input is a file and the extras parse; each refusal (tool missing, ffmpeg declined, empty input, input not a file with its path, extras that do not parse with the parser's message) is the one the handler reports, in the handler's order |
| Commands.SpoofArgs | gui_tgradish.py:439-462 | a spoof press is accepted exactly when the tool exists, both paths are given, the input is a file and the extras parse; each refusal (tool missing, missing paths, input not a file, extras that do not parse) is the one the handler reports, in the handler's order |
| Commands.ConvertShape | gui_tgradish.py:426-435 | convert arguments: `convert -i input`, then `-o output` only when one was typed, then the extra words unchanged |
| Commands.BaseShape | gui_tgradish.py:426-428 | the fixed head of the convert arguments, with `-o` only for a typed output |
| Commands.SpoofShape | gui_tgradish.py:453-460 | spoof arguments: `spoof input output`, then the extra words unchanged |
| Commands.Dispatch | gui_tgradish.py:480-486 | the script when it is on PATH, the module only without it, nothing only when neither exists |
| Commands.DispatchPassesArgs | gui_tgradish.py:481-484 | the external command is `tgradish` followed by the arguments; the module gets the arguments themselves |
| Commands.AcceptedFindsRunner | gui_tgradish.py:480-486 | a press the handler accepts always finds a runner |
| DesktopGui.Label | gui_tgradish.py:587 | the percent label is the decimal value of the clamped number, written without a leading zero, followed by '%' |
| DesktopGui.LabelEnds | gui_tgradish.py:587 | the labels of 0, 50 and 100 are "0%", "50%" and "100%" |
| DesktopGui.Gui.constructor | gui_tgradish.py:198-258 | no operation, no total, bar at 0% in determinate mode, status "Готов" |
| DesktopGui.Gui.SetProgress | gui_tgradish.py:584-587 | bar and label show the clamped value; nothing else changes |
| DesktopGui.Gui.StopIndeterminate | gui_tgradish.py:589-594 | the animation stops only in indeterminate mode |
| DesktopGui.Gui.ResetProgress | gui_tgradish.py:562-582 | the total is forgotten; determinate gives 0% without stopping an animation, indeterminate gives an animated "..." bar |
| DesktopGui.Gui.TakeDuration | gui_tgradish.py:516-526 | a first Duration marker above 0 resets the bar and shows "Конвертация...", and the reset forgets the total again |
| DesktopGui.Gui.TakeTime | gui_tgradish.py:530-538 | with a total other than 0, a `time=` marker sets the bar to the clamped percent; otherwise nothing changes |
| DesktopGui.Gui.ProcessOutputLine | gui_tgradish.py:513-541 | as written: lines outside convert change nothing; a first positive Duration resets the bar to 0% determinate, shows "Конвертация..." and clears the indeterminate flag, but the total never survives; the bar moves, with its label, only if a total was already known; status and the flag change only on that first Duration |
| DesktopGui.Gui.ProcessOutputLines | gui_tgradish.py:513-541 | as written: over any run of lines the total stays unknown; in a convert run with some positive Duration the bar ends at 0% determinate with "Конвертация..." and the flag cleared, otherwise bar, status and flag are unchanged |
| DesktopGui.Gui.Finish | gui_tgradish.py:543-560 | the animation keeps running only if it ran and the bar was determinate; exit 0 shows 100% and "Готово", any other code keeps the bar and shows "Ошибка (код N)" |
| DesktopGui.Gui.StartProcess | gui_tgradish.py:488-507 | shows "Запуск..." and hands the command to the chosen runner, which refuses exactly when its worker is alive and otherwise starts a worker with the stop flag cleared and that command; the other runner's whole state is untouched |
| DesktopGui.Gui.RunTgradishArgs | gui_tgradish.py:470-486 | records the operation, resets the bar (0% determinate for convert, animated "..." for spoof); with the script on PATH the external runner starts `tgradish` plus the arguments and the module runner is untouched, else the module runner starts the arguments and the external one is untouched, else neither runner changes |
| DesktopGui.Gui.OnConvert | gui_tgradish.py:409-437 | the press is judged as the convert checks say; a refused press changes no field and neither runner; an accepted one resets the bar to 0% determinate and starts `tgradish` plus the arguments on the external runner when the script is on PATH, else the arguments on the module runner, leaving the other runner untouched |
| DesktopGui.Gui.OnSpoof | gui_tgradish.py:439-462 | the press is judged as the spoof checks say; a refused press changes no field and neither runner; an accepted one sets the animated indeterminate bar and starts `tgradish` plus the arguments on the external runner when the script is on PATH, else the arguments on the module runner, leaving the other runner untouched |
| DesktopGui.Gui.OnStop | gui_tgradish.py:464-465 | Stop always goes to the external runner, whichever runner is busy: its flag goes up and one SIGTERM is sent exactly when its child was started and is alive |
| Markers.Pad2 | gui_tgradish.py:517 | two-digit clock fields read back as their value |
| Markers.PaddedSeconds | gui_tgradish.py:517-521 | `HH:MM:SS.CC` is well formed and worth `HH*3600 + MM*60 + SS + CC/100` seconds |
| DesktopGui.DurationLineRead | gui_tgradish.py:517-521 | ffmpeg's header line "Duration: 00:01:40.00, …" gives a 100-second total |
| DesktopGui.ProgressLineRead | gui_tgradish.py:530-534 | the progress line "time=00:00:50.00 …" gives 50 seconds |
| DesktopGui.StalledBar | gui_tgradish.py:523-525 | as written: after those two lines of a convert run the bar still shows 0% |
| DesktopGui.MovingBar | gui_tgradish.py:513-538 | corrected: the same two lines give a 100-second total and 50% |
| DesktopGui.Gui.TakeDurationCorrected | gui_tgradish.py:516-526 | corrected: a first Duration marker above 0 is stored after the reset and survives |
| DesktopGui.Gui.ProcessOutputLineCorrected | gui_tgradish.py:513-541 | corrected: outside convert nothing changes; the first positive Duration is kept, resets the bar to 0%, shows "Конвертация..." and clears the flag; a later `time=` marker sets the bar and its label to the percent of the kept total; otherwise bar, status and flag stay |
| FfmpegPath.Candidates | gui_tgradish.py:656-671 | three bundle directories first when there is a bundle, then three base directories |
| FfmpegPath.FirstQualifyingIsFirst | gui_tgradish.py:673-688 | the selected directory qualifies and every earlier candidate fails; none is selected only when none qualifies |
| FfmpegPath.FindDir | gui_tgradish.py:673-688 | the nested search loops select exactly the first qualifying candidate |
| FfmpegPath.PrependIfAbsent | gui_tgradish.py:690-691 | afterwards PATH mentions the directory; it is unchanged when it already did, else the directory and the separator come first |
| FfmpegPath.PrependIdempotent | gui_tgradish.py:690-691 | the guard applied twice is the guard applied once |
| FfmpegPath.Entries | gui_tgradish.py:690 | splitting PATH at the separator gives at least one entry |
| FfmpegPath.EntriesAfter | gui_tgradish.py:691 | a prepended directory becomes PATH's first entry |
| FfmpegPath.PrependIfNotEntryMakesEntry | gui_tgradish.py:690-691 | corrected guard: the directory ends up an entry of PATH, and applying it again changes nothing |
| FfmpegPath.SubstringGuardSkipsDir | gui_tgradish.py:690 | as written: `/opt/ffmpeg_bin` is not added to a PATH of `/opt/ffmpeg_bin2`, although it is not one of its entries |
| FfmpegPath.Environ.constructor | gui_tgradish.py:690-691 | the environment as given |
| FfmpegPath.Environ.Inject | gui_tgradish.py:645-691 | nothing changes when ffmpeg is found, no candidate qualifies or PATH mentions the directory; otherwise the directory goes in front of PATH; other variables never change |
| FfmpegPath.Environ.InjectCorrected | gui_tgradish.py:645-691 | corrected: the first qualifying directory is prepended unless it already is a PATH entry |
| FfmpegPath.InjectTwice | gui_tgradish.py:645-691 | a second run leaves the environment as the first left it, and PATH then mentions the selected directory |
| FfmpegPath.Script.RunMain | gui_tgradish.py:604-609 | the bootstrap call runs the PATH injection once the name is bound; before that the NameError is swallowed by `except Exception` and the environment is unchanged |
| FfmpegPath.Script.DefineBootstrap | gui_tgradish.py:645 | executing the def binds the bootstrap's name |
| FfmpegPath.Script.RunAsWritten | gui_tgradish.py:641-645 | as written: the main block runs before the def, so the environment is unchanged whether or not the module is the main one |
| FfmpegPath.Script.RunCorrected | gui_tgradish.py:604-645 | corrected: with the def above the main block, running the script injects as the bootstrap says, and a selected bundled directory is mentioned by PATH |
| FfmpegPath.BundleSelected | gui_tgradish.py:673-688 | with only `/app/ffmpeg/ffmpeg` present, the search from `/app` selects `/app/ffmpeg` |
| FfmpegPath.BundledFfmpegIgnored | gui_tgradish.py:604-645 | for that application, PATH stays empty as written and becomes "/app/ffmpeg:" when corrected |
| AndroidApp.Quoted | android/main.py:125 | the quoted output is the path between two single quotes, unescaped |
| AndroidApp.OutputPath | android/main.py:120 | the typed output when there is one, else the input with ".webm" appended; never empty |
| AndroidApp.CommandLine | android/main.py:124-128 | without extras: the fixed flags and the quoted output; with extras: the fixed flags, then the extras between single spaces, then the quoted output |
| AndroidApp.CommandEndsWithOutput | android/main.py:125-128 | whatever the extras, the command line ends with the quoted output path |
| AndroidApp.Cut | android/main.py:128 | cutting the quoted output's length off the end removes exactly the quoted output |
| AndroidApp.LastTimeIn | android/main.py:166-172 | the last line in the range whose `time=` marker is present, every later one without; none only when no line in the range has one |
| AndroidApp.FirstMarked | android/main.py:158 | the index of the first line with a Duration marker, every earlier one without |
| AndroidApp.LatchedIsFirst | android/main.py:158-163 | starting without a total, the stored total is the first line's Duration marker, even a zero one, and none only when no line has one |
| AndroidApp.Root.constructor | android/main.py:108-114 | no thread, no total, bar at 0, status "Готов" |
| AndroidApp.Root.RunConvert | android/main.py:116-152 | a live thread makes the press do nothing; otherwise the bar goes to 0, the total is forgotten, "Запуск..." shows and the built command line is handed to ffmpeg-kit |
| AndroidApp.Root.Announce | android/main.py:130-132 | "Запуск...", an empty bar and no total |
| AndroidApp.Root.TakeDuration | android/main.py:158-163 | only the first Duration marker is stored, zero included, and it shows "Конвертация..." |
| AndroidApp.Root.TakeTime | android/main.py:166-172 | with a total other than 0, a `time=` marker sets the bar to the clamped percent; otherwise nothing changes |
| AndroidApp.Root.HandleLogProgress | android/main.py:157-175 | a line's Duration is read before its `time=`, so a line with both measures its time against the total it has just stored |
| AndroidApp.Root.HandleLogLines | android/main.py:142-175 | over any run of log lines, the stored total is the first Duration seen, the status becomes "Конвертация..." exactly when a total is first stored, and the bar shows the percent of the last `time=` marker read once a total other than 0 was stored, or keeps its old value; the bar stays within 0..100 |
| AndroidApp.Root.ReadMarks | android/main.py:158-172 | on one line's markers: a missing total takes the Duration, and a `time=` then moves the bar to the percent of the stored total when it is not 0 |
| AndroidApp.Root.ReadLines | android/main.py:142-175 | the loop over the lines' markers keeps the first Duration, sets the status when it stores it, and shows the percent of the last `time=` marker read with a total other than 0 |
| AndroidApp.Root.OnStats | android/main.py:146-150 | with a total other than 0, the bar shows the clamped percent of the elapsed seconds; the total and status never change |
| AndroidApp.Root.OnComplete | android/main.py:134-140 | success gives 100 and "Готово"; failure gives 0 and "Ошибка (rc)" |
| AndroidApp.StatsClockRoundTrip | android/main.py:146-172 | every clock is shown for exactly its own milliseconds, and every whole number of hundredths is shown by a clock worth it |
| AndroidApp.ClockLineSearch | android/main.py:167 | the `time=` search finds a progress line's marker at its start, with the clock's three fields |
| AndroidApp.ClockLineRead | android/main.py:167-170 | a progress line `time=HH:MM:SS.CC` reads back as `HH*3600 + MM*60 + SS + CC/100` seconds |
| AndroidApp.LogBarAt | android/main.py:157-175 | with a total stored, the progress line for a clock sets the bar to the percent of the clock's seconds |
| AndroidApp.StatsBarAt | android/main.py:146-150 | with a total stored, `on_stats(tms)` sets the bar to the percent of `tms / 1000` seconds |
| AndroidApp.StatsMatchLog | android/main.py:146-172 | for every clock ffmpeg can print, the progress line with that `time=` and `on_stats` with the milliseconds it shows leave the bar at the same value |

## Left out

- Widgets, layouts, dialogs, file choosers, Explorer/`xdg-open`, button enabling and disabling, fonts and themes (`gui_tgradish.py` lines 195-408 and 604-639; the Android layout). A dialog changes no modelled state, so a refusal is a `Refusal` value.
- `_install_tgradish`, `_set_status` and `_update_dependency_labels`: they show a dialog, set one label, or do nothing.
- Threads and scheduling. `root.after` and `Clock.schedule_once` are taken as direct, in-order delivery, and a runner's worker runs when `Worker` is called. Interleavings other than a `terminate()` landing between lines are not modelled.
- Floating point. Durations and positions are exact reals, so IEEE rounding of `cur / total * 100` is not modelled.
- Python's `\d` and `\s`: `\d` is taken as ASCII digits and `\s` as ASCII whitespace. Other Unicode digits and spaces are not modelled.
- `shlex.split`: it is a parameter that returns words or a `ValueError` message. Its tokenizer and the `posix=(os.name != "nt")` switch are not modelled.
- `subprocess.Popen`, `runpy.run_module` and ffmpeg-kit: the child's output lines, its exit code, whether it is still running, and the module's writes and outcome are inputs. The `cwd` argument is always `None` here and is not modelled.
- ExternalProcess.BackgroundRunner.Pump: a `terminate()` that lands after the last line is read is not modelled. A repeated `terminate()` counts one more SIGTERM, though a real child may already be dying.
- Exceptions from `self._proc.terminate()`, from the `sys.stdout.flush()` calls of the in-process worker, and from the `os.path` calls of the PATH bootstrap: they are swallowed in the source and cannot happen here.
- FfmpegPath.EntriesAfter and FfmpegPath.PrependIfNotEntryMakesEntry require that the separator does not occur in the directory name. A directory containing `os.pathsep` cannot be a single PATH entry anyway.
- FfmpegPath: `sys.frozen`, `sys.executable` and `__file__` only choose the base directory, which is a parameter.
- AndroidApp.Root: `self._thread` is never assigned in the source, so the guard of `run_convert` never fires. It is modelled as a field that no method changes.
- `_spoof_unavailable` only opens a popup.
- InProcess.InProcessRunner.Worker: a `BaseException` that is not an `Exception` (`KeyboardInterrupt`, `GeneratorExit`) escapes `except Exception`; the `finally` block still restores argv, stdout and stderr, but the thread dies without a fault line, a flush of the adapters or `_on_process_end`. The outcomes modelled are a normal return, `SystemExit` and an `Exception`.
- FfmpegPath.Script.RunMain: the rest of `main()` (building the Tk root and the window, `mainloop`) is widgets and is not modelled.
- The Android `on_log` wrapper only forwards to `_handle_log_progress`.
- The `_ExecCb`, `_LogCb` and `_StatsCb` Java bridges, the Kivy/pyjnius imports and the build scripts (`build_android.py`, `build_local.py`, `build_win.py`) are not part of this model.
- DesktopGui.Gui.ResetProgress: the ttk progress bar's own state is modelled only as the mode and whether it animates; `progress.start(10)`'s interval is left out.

## Findings

| source | as written | input that shows it | evidently intended | confidence | as-written member | corrected member |
|---|---|---|---|---|---|---|
| gui_tgradish.py:523-525 | the total is stored, then `_reset_progress(determinate=True)` sets it back to `None` | a convert run printing "Duration: 00:01:40.00" and then "time=00:00:50.00" | the bar shows 50% | high, not executed | DesktopGui.StalledBar, DesktopGui.Gui.ProcessOutputLine | DesktopGui.MovingBar, DesktopGui.Gui.ProcessOutputLineCorrected |
| gui_tgradish.py:176 | `int(getattr(e, "code", 1))` raises `TypeError` for `SystemExit(None)`, so the worker reports 1 | the tool module ending with `sys.exit()` | success, code 0, as the interpreter itself treats it | high, not executed | InProcess.BareExitReportedAsFailure, InProcess.ExitCode | InProcess.InterpreterStatus |
| gui_tgradish.py:690 | the guard `selected_dir not in os.environ.get("PATH", "")` is a substring test | bundled `/opt/ffmpeg_bin` with PATH `/opt/ffmpeg_bin2` | the directory is added unless it already is a PATH entry | medium, not executed | FfmpegPath.SubstringGuardSkipsDir, FfmpegPath.Environ.Inject | FfmpegPath.PrependIfNotEntryMakesEntry, FfmpegPath.Environ.InjectCorrected |
| gui_tgradish.py:607 | `_inject_embedded_ffmpeg_into_path` is defined after the `if __name__ == "__main__": main()` block, so the call raises `NameError`, which is swallowed | running the script or the frozen app with ffmpeg only in `/app/ffmpeg` | the bundled ffmpeg directory is put on PATH at start-up | high, not executed | FfmpegPath.Script.RunAsWritten, FfmpegPath.BundledFfmpegIgnored | FfmpegPath.Script.RunCorrected |
