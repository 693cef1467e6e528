/**
 * The argument lists the desktop front end hands to tgradish, the checks
 * that stop it from starting anything, and the choice of runner: the
 * tgradish command-line script as an external process when it is on PATH,
 * else the tgradish module run inside the GUI's own interpreter, else
 * nothing.
 *
 * What the environment reports is an input: shutil.which("tgradish"),
 * importlib.util.find_spec("tgradish"), shutil.which("ffmpeg"),
 * os.path.isfile, the yes/no answer to the missing-ffmpeg question, and
 * shlex.split (a function that either gives the words or raises
 * ValueError with a message).
 */
module Commands {
  import opened Wrappers
  import opened Text

  /** What the environment reports about the tools. */
  datatype Tools = Tools(hasCli: bool, hasModule: bool, hasFfmpeg: bool)

  /** Why a button press started nothing; each case is one dialog of the GUI. */
  datatype Refusal =
    | ToolUnavailable
    | FfmpegDeclined
    | MissingInput
    | MissingPaths
    | FileMissing(path: string)
    | BadExtras(message: string)

  /** The three text fields of a tab, as typed. */
  datatype Fields = Fields(input: string, output: string, extra: string)

  /** The runner that gets the arguments. */
  datatype Runner = External(command: seq<string>) | InProcessRun(args: seq<string>) | NoRunner

  /** is_tgradish_available(): the script or the module. */
  predicate TgradishAvailable(t: Tools)
  {
    t.hasCli || t.hasModule
  }

  /** tgradish_command(): the script's name when it is on PATH, otherwise no prefix at all. */
  function TgradishCommand(hasCli: bool): (r: seq<string>)
    ensures hasCli ==> r == ["tgradish"]
    ensures !hasCli ==> r == []
  {
    if hasCli then ["tgradish"] else []
  }

  /** The words of the stripped extras field: none when it is empty, else what shlex.split gives. */
  function Extras(extra: string, split: string -> Result<seq<string>, string>): Result<seq<string>, Refusal>
  {
    if extra == "" then Success([])
    else
      match split(extra)
      case Success(parts) => Success(parts)
      case Failure(e) => Failure(BadExtras(e))
  }

  /** _on_convert(): the checks in the order the handler makes them, then the argument list. */
  function ConvertArgs(t: Tools, proceedWithoutFfmpeg: bool, f: Fields, isFile: string -> bool,
                       split: string -> Result<seq<string>, string>): (r: Result<seq<string>, Refusal>)
    ensures r.Success? <==>
              TgradishAvailable(t) && (t.hasFfmpeg || proceedWithoutFfmpeg) &&
              Strip(f.input) != "" && isFile(Strip(f.input)) && Extras(Strip(f.extra), split).Success?
    ensures r.Failure? && !TgradishAvailable(t) ==> r.error == ToolUnavailable
    ensures r.Failure? && TgradishAvailable(t) && !t.hasFfmpeg && !proceedWithoutFfmpeg ==>
              r.error == FfmpegDeclined
    ensures TgradishAvailable(t) && (t.hasFfmpeg || proceedWithoutFfmpeg) ==>
              var input, extra := Strip(f.input), Strip(f.extra);
              (input == "" ==> r == Failure(MissingInput)) &&
              (input != "" && !isFile(input) ==> r == Failure(FileMissing(input))) &&
              (input != "" && isFile(input) && extra != "" && split(extra).Failure? ==>
                 r == Failure(BadExtras(split(extra).error)))
  {
    if !TgradishAvailable(t) then Failure(ToolUnavailable)
    else if !t.hasFfmpeg && !proceedWithoutFfmpeg then Failure(FfmpegDeclined)
    else
      var input := Strip(f.input);
      if input == "" then Failure(MissingInput)
      else if !isFile(input) then Failure(FileMissing(input))
      else
        match Extras(Strip(f.extra), split)
        case Failure(e) => Failure(e)
        case Success(parts) => Success(ConvertBase(input, Strip(f.output)) + parts)
  }

  /** ["convert", "-i", input], then ["-o", output] when an output was typed. */
  function ConvertBase(input: string, output: string): seq<string>
  {
    ["convert", "-i", input] + (if output != "" then ["-o", output] else [])
  }

  /** _on_spoof(): the checks in the order the handler makes them, then the argument list. */
  function SpoofArgs(t: Tools, f: Fields, isFile: string -> bool,
                     split: string -> Result<seq<string>, string>): (r: Result<seq<string>, Refusal>)
    ensures r.Success? <==>
              TgradishAvailable(t) && Strip(f.input) != "" && Strip(f.output) != "" &&
              isFile(Strip(f.input)) && Extras(Strip(f.extra), split).Success?
    ensures r.Failure? && !TgradishAvailable(t) ==> r.error == ToolUnavailable
    ensures r.Failure? && TgradishAvailable(t) && (Strip(f.input) == "" || Strip(f.output) == "") ==>
              r.error == MissingPaths
    ensures TgradishAvailable(t) && Strip(f.input) != "" && Strip(f.output) != "" ==>
              var input, extra := Strip(f.input), Strip(f.extra);
              (!isFile(input) ==> r == Failure(FileMissing(input))) &&
              (isFile(input) && extra != "" && split(extra).Failure? ==>
                 r == Failure(BadExtras(split(extra).error)))
  {
    if !TgradishAvailable(t) then Failure(ToolUnavailable)
    else
      var input, output := Strip(f.input), Strip(f.output);
      if input == "" || output == "" then Failure(MissingPaths)
      else if !isFile(input) then Failure(FileMissing(input))
      else
        match Extras(Strip(f.extra), split)
        case Failure(e) => Failure(e)
        case Success(parts) => Success(["spoof", input, output] + parts)
  }

  /**
   * A convert argument list is the subcommand, the input after -i, the
   * output after -o only when one was typed, and then the extra words
   * unchanged and in order.
   */
  lemma ConvertShape(t: Tools, proceedWithoutFfmpeg: bool, f: Fields, isFile: string -> bool,
                     split: string -> Result<seq<string>, string>)
    requires ConvertArgs(t, proceedWithoutFfmpeg, f, isFile, split).Success?
    ensures var args := ConvertArgs(t, proceedWithoutFfmpeg, f, isFile, split).value;
            var parts := Extras(Strip(f.extra), split).value;
            var head := if Strip(f.output) == "" then 3 else 5;
            |args| == head + |parts| &&
            args[..3] == ["convert", "-i", Strip(f.input)] &&
            (head == 5 ==> args[3] == "-o" && args[4] == Strip(f.output)) &&
            args[head..] == parts
  {
    var parts := Extras(Strip(f.extra), split).value;
    assert ConvertArgs(t, proceedWithoutFfmpeg, f, isFile, split).value
           == ConvertBase(Strip(f.input), Strip(f.output)) + parts;
    BaseShape(Strip(f.input), Strip(f.output), parts);
  }

  lemma BaseShape(input: string, output: string, parts: seq<string>)
    ensures var args := ConvertBase(input, output) + parts;
            var head := if output == "" then 3 else 5;
            |args| == head + |parts| &&
            args[..3] == ["convert", "-i", input] &&
            (head == 5 ==> args[3] == "-o" && args[4] == output) &&
            args[head..] == parts
  {
    var base := ConvertBase(input, output);
    Prefixed(base, parts);
    assert base[..3] == ["convert", "-i", input];
  }

  lemma Prefixed(base: seq<string>, parts: seq<string>)
    ensures (base + parts)[..|base|] == base && (base + parts)[|base|..] == parts
  {
  }

  /** A spoof argument list is the subcommand, the input, the output, then the extra words. */
  lemma SpoofShape(t: Tools, f: Fields, isFile: string -> bool, split: string -> Result<seq<string>, string>)
    requires SpoofArgs(t, f, isFile, split).Success?
    ensures var args := SpoofArgs(t, f, isFile, split).value;
            var parts := Extras(Strip(f.extra), split).value;
            |args| == 3 + |parts| && args[..3] == ["spoof", Strip(f.input), Strip(f.output)] &&
            args[3..] == parts
  {
    var args := SpoofArgs(t, f, isFile, split).value;
    var parts := Extras(Strip(f.extra), split).value;
    assert args == ["spoof", Strip(f.input), Strip(f.output)] + parts;
    Prefixed(["spoof", Strip(f.input), Strip(f.output)], parts);
  }

  /** The runner choice of _run_tgradish_args. */
  function Dispatch(t: Tools, args: seq<string>): (r: Runner)
    ensures r.External? <==> t.hasCli
    ensures r.InProcessRun? <==> !t.hasCli && t.hasModule
    ensures r.NoRunner? <==> !TgradishAvailable(t)
  {
    if t.hasCli then External(TgradishCommand(true) + args)
    else if t.hasModule then InProcessRun(args)
    else NoRunner
  }

  /**
   * The external command is the script's name followed by the arguments,
   * and the in-process runner gets the arguments themselves.
   */
  lemma DispatchPassesArgs(t: Tools, args: seq<string>)
    ensures Dispatch(t, args).External? ==>
              Dispatch(t, args).command[0] == "tgradish" && Dispatch(t, args).command[1..] == args
    ensures Dispatch(t, args).InProcessRun? ==> Dispatch(t, args).args == args
  {
    if t.hasCli {
      var c := Dispatch(t, args).command;
      assert c == ["tgradish"] + args;
      assert c[1..] == args;
    }
  }

  /**
   * With the environment unchanged between the handler's check and the
   * dispatch, an accepted button press always finds a runner: the
   * "unavailable as CLI and as module" branch is reached by nothing.
   */
  lemma AcceptedFindsRunner(t: Tools, proceedWithoutFfmpeg: bool, f: Fields, isFile: string -> bool,
                            split: string -> Result<seq<string>, string>)
    ensures ConvertArgs(t, proceedWithoutFfmpeg, f, isFile, split).Success? ==>
              !Dispatch(t, ConvertArgs(t, proceedWithoutFfmpeg, f, isFile, split).value).NoRunner?
    ensures SpoofArgs(t, f, isFile, split).Success? ==>
              !Dispatch(t, SpoofArgs(t, f, isFile, split).value).NoRunner?
  {
  }
}
