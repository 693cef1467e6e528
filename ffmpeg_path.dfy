/**
 * The start-up step that makes an ffmpeg shipped next to the application
 * visible on PATH: unless ffmpeg is already found, it lists candidate
 * directories (inside the PyInstaller bundle first, then next to the
 * executable or script), picks the first existing directory holding
 * ffmpeg.exe or ffmpeg, and puts it in front of PATH unless PATH already
 * mentions it.
 *
 * The file system and the interpreter are inputs: shutil.which("ffmpeg"),
 * sys._MEIPASS, the base directory, os.path.join, os.path.isdir,
 * os.path.isfile and os.pathsep. os.environ is the Environ object.
 */
module FfmpegPath {
  import opened Wrappers
  import opened Text

  const Names: seq<string> := ["ffmpeg.exe", "ffmpeg"]

  /** The directories searched, in order: three in the bundle when there is one, then three at the base. */
  function Candidates(meipass: Option<string>, baseDir: string, join: (string, string) -> string): (r: seq<string>)
    ensures |r| == if meipass.Some? && meipass.value != "" then 6 else 3
    ensures meipass.Some? && meipass.value != "" ==>
              r[..3] == [join(meipass.value, "ffmpeg"), join(meipass.value, "ffmpeg_bin"), meipass.value]
    ensures r[|r| - 3..] == [join(baseDir, "ffmpeg"), join(baseDir, "ffmpeg_bin"), baseDir]
  {
    var bundled := if meipass.Some? && meipass.value != "" then
                     [join(meipass.value, "ffmpeg"), join(meipass.value, "ffmpeg_bin"), meipass.value]
                   else [];
    bundled + [join(baseDir, "ffmpeg"), join(baseDir, "ffmpeg_bin"), baseDir]
  }

  /** A directory the search accepts: non-empty, existing, and holding ffmpeg.exe or ffmpeg. */
  predicate Qualifies(d: string, join: (string, string) -> string, isDir: string -> bool, isFile: string -> bool)
  {
    d != "" && isDir(d) && (isFile(join(d, Names[0])) || isFile(join(d, Names[1])))
  }

  /** The first qualifying candidate, or None. */
  function FirstQualifying(ds: seq<string>, join: (string, string) -> string, isDir: string -> bool,
                           isFile: string -> bool): Option<string>
  {
    if ds == [] then None
    else if Qualifies(ds[0], join, isDir, isFile) then Some(ds[0])
    else FirstQualifying(ds[1..], join, isDir, isFile)
  }

  /** FirstQualifying picks a qualifying candidate every earlier one of which fails, and None only when all fail. */
  lemma {:induction false} FirstQualifyingIsFirst(ds: seq<string>, join: (string, string) -> string,
                                                  isDir: string -> bool, isFile: string -> bool)
    ensures var r := FirstQualifying(ds, join, isDir, isFile);
            (r.None? <==> forall k :: 0 <= k < |ds| ==> !Qualifies(ds[k], join, isDir, isFile)) &&
            (r.Some? ==> exists i :: 0 <= i < |ds| && ds[i] == r.value && Qualifies(ds[i], join, isDir, isFile) &&
                                     forall k :: 0 <= k < i ==> !Qualifies(ds[k], join, isDir, isFile))
  {
    if ds != [] && !Qualifies(ds[0], join, isDir, isFile) {
      FirstQualifyingIsFirst(ds[1..], join, isDir, isFile);
      var r := FirstQualifying(ds, join, isDir, isFile);
      if r.Some? {
        var i :| 0 <= i < |ds[1..]| && ds[1..][i] == r.value && Qualifies(ds[1..][i], join, isDir, isFile) &&
                 forall k :: 0 <= k < i ==> !Qualifies(ds[1..][k], join, isDir, isFile);
        assert ds[i + 1] == r.value;
        forall k | 0 <= k < i + 1
          ensures !Qualifies(ds[k], join, isDir, isFile)
        {
          if k > 0 { assert ds[k] == ds[1..][k - 1]; }
        }
      } else {
        forall k | 0 <= k < |ds|
          ensures !Qualifies(ds[k], join, isDir, isFile)
        {
          if k > 0 { assert ds[k] == ds[1..][k - 1]; }
        }
      }
    } else if ds != [] {
      assert ds[0] == FirstQualifying(ds, join, isDir, isFile).value;
    }
  }

  /** The nested search loops: over candidates, and for each over the two executable names. */
  method FindDir(candidates: seq<string>, join: (string, string) -> string, isDir: string -> bool,
                 isFile: string -> bool) returns (selected: Option<string>)
    ensures selected == FirstQualifying(candidates, join, isDir, isFile)
  {
    selected := None;
    var i := 0;
    while i < |candidates|
      invariant 0 <= i <= |candidates| && selected.None?
      invariant FirstQualifying(candidates, join, isDir, isFile) == FirstQualifying(candidates[i..], join, isDir, isFile)
    {
      var d := candidates[i];
      assert candidates[i..][0] == d && candidates[i..][1..] == candidates[i + 1..];
      if d == "" || !isDir(d) {
        i := i + 1;
        continue;
      }
      var j := 0;
      while j < |Names|
        invariant 0 <= j <= |Names| && selected.None?
        invariant forall q :: 0 <= q < j ==> !isFile(join(d, Names[q]))
      {
        if isFile(join(d, Names[j])) {
          selected := Some(d);
          break;
        }
        j := j + 1;
      }
      if selected.Some? {
        assert Qualifies(d, join, isDir, isFile);
        return;
      }
      assert !Qualifies(d, join, isDir, isFile);
      i := i + 1;
    }
  }

  /** os.environ.get("PATH", ""). */
  function PathOf(vars: map<string, string>): string
  {
    if "PATH" in vars then vars["PATH"] else ""
  }

  /** The guard as written: prepend dir and the separator unless dir occurs anywhere in PATH. */
  function PrependIfAbsent(path: string, dir: string, sep: char): (r: string)
    ensures Contains(r, dir)
    ensures Contains(path, dir) ==> r == path
    ensures !Contains(path, dir) ==> r == dir + [sep] + path && r[|dir| + 1..] == path
  {
    if Contains(path, dir) then path
    else
      var r := dir + [sep] + path;
      assert dir <= r;
      assert r[|dir| + 1..] == path;
      r
  }

  /** A second application changes nothing. */
  lemma PrependIdempotent(path: string, dir: string, sep: char)
    ensures PrependIfAbsent(PrependIfAbsent(path, dir, sep), dir, sep) == PrependIfAbsent(path, dir, sep)
  {
  }

  /** The entries of a PATH value, split at the separator. */
  function Entries(path: string, sep: char): (r: seq<string>)
    ensures r != []
    decreases |path|
  {
    match FirstIndexOf(path, sep)
    case None => [path]
    case Some(k) => [path[..k]] + Entries(path[k + 1..], sep)
  }

  /** The guard the bootstrap means: prepend dir unless it already is one of the entries. */
  function PrependIfNotEntry(path: string, dir: string, sep: char): string
  {
    if dir in Entries(path, sep) then path else dir + [sep] + path
  }

  lemma EntriesAfter(dir: string, sep: char, path: string)
    requires sep !in dir
    ensures Entries(dir + [sep] + path, sep) == [dir] + Entries(path, sep)
  {
    var s := dir + [sep] + path;
    assert s[|dir|] == sep && s[..|dir|] == dir && s[|dir| + 1..] == path;
    assert FirstIndexOf(s, sep) == Some(|dir|);
  }

  /** With the corrected guard, dir is afterwards an entry of PATH, and a second application changes nothing. */
  lemma PrependIfNotEntryMakesEntry(path: string, dir: string, sep: char)
    requires sep !in dir
    ensures dir in Entries(PrependIfNotEntry(path, dir, sep), sep)
    ensures PrependIfNotEntry(PrependIfNotEntry(path, dir, sep), dir, sep) == PrependIfNotEntry(path, dir, sep)
  {
    if dir !in Entries(path, sep) {
      EntriesAfter(dir, sep, path);
      assert Entries(PrependIfNotEntry(path, dir, sep), sep)[0] == dir;
    }
  }

  /**
   * As written: a bundled /opt/ffmpeg_bin is not added to a PATH that holds
   * only /opt/ffmpeg_bin2, because the one name is a substring of the other,
   * although it is not an entry of it.
   */
  lemma SubstringGuardSkipsDir()
    ensures var dir := "/opt/ffmpeg_bin";
            var path := dir + "2";
            PrependIfAbsent(path, dir, ':') == path && Entries(path, ':') == [path] && dir !in Entries(path, ':')
  {
    var dir := "/opt/ffmpeg_bin";
    var path := dir + "2";
    assert dir <= path;
    assert ':' !in path by {
      forall k | 0 <= k < |path|
        ensures path[k] != ':'
      {
      }
    }
    assert FirstIndexOf(path, ':').None?;
    assert dir != path by { assert |dir| != |path|; }
  }

  /** os.environ. */
  class Environ {
    var vars: map<string, string>

    constructor (vars: map<string, string>)
      ensures this.vars == vars
    {
      this.vars := vars;
    }

    /**
     * _inject_embedded_ffmpeg_into_path(): nothing when ffmpeg is already
     * found; otherwise the first qualifying candidate is put in front of
     * PATH unless PATH already mentions it. Nothing but PATH changes.
     */
    method Inject(ffmpegFound: bool, meipass: Option<string>, baseDir: string, join: (string, string) -> string,
                  isDir: string -> bool, isFile: string -> bool, sep: char)
      modifies this
      ensures var d := FirstQualifying(Candidates(meipass, baseDir, join), join, isDir, isFile);
              if ffmpegFound || d.None? || Contains(PathOf(old(vars)), d.value) then vars == old(vars)
              else vars == old(vars)["PATH" := PrependIfAbsent(PathOf(old(vars)), d.value, sep)]
      ensures forall k :: k in old(vars) && k != "PATH" ==> k in vars && vars[k] == old(vars)[k]
    {
      if ffmpegFound {
        return;
      }
      var candidates := Candidates(meipass, baseDir, join);
      var selected := FindDir(candidates, join, isDir, isFile);
      if selected.Some? && !Contains(PathOf(vars), selected.value) {
        vars := vars["PATH" := selected.value + [sep] + PathOf(vars)];
      }
    }

    /** The same step with the corrected guard: the selected directory ends up an entry of PATH. */
    method InjectCorrected(ffmpegFound: bool, meipass: Option<string>, baseDir: string,
                           join: (string, string) -> string, isDir: string -> bool, isFile: string -> bool, sep: char)
      modifies this
      ensures var d := FirstQualifying(Candidates(meipass, baseDir, join), join, isDir, isFile);
              if ffmpegFound || d.None? then vars == old(vars)
              else vars == old(vars)["PATH" := PrependIfNotEntry(PathOf(old(vars)), d.value, sep)]
    {
      if ffmpegFound {
        return;
      }
      var candidates := Candidates(meipass, baseDir, join);
      var selected := FindDir(candidates, join, isDir, isFile);
      if selected.Some? {
        var path := PathOf(vars);
        if selected.value !in Entries(path, sep) {
          vars := vars["PATH" := selected.value + [sep] + path];
        } else {
          vars := vars["PATH" := path];
        }
      }
    }
  }

  /** Running the bootstrap a second time leaves the environment as the first run left it. */
  method InjectTwice(env: Environ, meipass: Option<string>, baseDir: string, join: (string, string) -> string,
                     isDir: string -> bool, isFile: string -> bool, sep: char)
    modifies env
    ensures var d := FirstQualifying(Candidates(meipass, baseDir, join), join, isDir, isFile);
            env.vars == (if d.None? || Contains(PathOf(old(env.vars)), d.value) then old(env.vars)
                         else old(env.vars)["PATH" := PrependIfAbsent(PathOf(old(env.vars)), d.value, sep)])
    ensures var d := FirstQualifying(Candidates(meipass, baseDir, join), join, isDir, isFile);
            d.Some? ==> Contains(PathOf(env.vars), d.value)
  {
    env.Inject(false, meipass, baseDir, join, isDir, isFile, sep);
    ghost var once := env.vars;
    env.Inject(false, meipass, baseDir, join, isDir, isFile, sep);
    assert env.vars == once;
  }

  /** The environment after the bootstrap runs on vars. */
  function Injected(vars: map<string, string>, ffmpegFound: bool, meipass: Option<string>, baseDir: string,
                    join: (string, string) -> string, isDir: string -> bool, isFile: string -> bool,
                    sep: char): map<string, string>
  {
    var d := FirstQualifying(Candidates(meipass, baseDir, join), join, isDir, isFile);
    if ffmpegFound || d.None? || Contains(PathOf(vars), d.value) then vars
    else vars["PATH" := PrependIfAbsent(PathOf(vars), d.value, sep)]
  }

  /**
   * The script's module namespace as it is executed top to bottom: whether
   * the bootstrap function has been bound yet, and the process environment
   * main() changes.
   */
  class Script {
    var bootstrapDefined: bool
    const env: Environ

    constructor (env: Environ)
      ensures !bootstrapDefined && this.env == env
    {
      bootstrapDefined := false;
      this.env := env;
    }

    /**
     * main()'s first step: call the bootstrap inside try/except Exception.
     * Before the def has run the name lookup raises NameError, which the
     * except swallows, so the environment is left as it was.
     */
    method RunMain(ffmpegFound: bool, meipass: Option<string>, baseDir: string, join: (string, string) -> string,
                isDir: string -> bool, isFile: string -> bool, sep: char)
      modifies env
      ensures bootstrapDefined ==> env.vars == Injected(old(env.vars), ffmpegFound, meipass, baseDir, join, isDir, isFile, sep)
      ensures !bootstrapDefined ==> env.vars == old(env.vars)
    {
      if bootstrapDefined {
        env.Inject(ffmpegFound, meipass, baseDir, join, isDir, isFile, sep);
      }
    }

    /** Executing the def statement binds the name. */
    method DefineBootstrap()
      modifies this
      ensures bootstrapDefined
    {
      bootstrapDefined := true;
    }

    /**
     * The module as written: the `if __name__ == "__main__": main()` block
     * comes before the def, so main() never reaches the bootstrap and PATH
     * is never changed.
     */
    method RunAsWritten(isMain: bool, ffmpegFound: bool, meipass: Option<string>, baseDir: string,
                        join: (string, string) -> string, isDir: string -> bool, isFile: string -> bool, sep: char)
      requires !bootstrapDefined
      modifies this, env
      ensures bootstrapDefined && env.vars == old(env.vars)
    {
      if isMain {
        RunMain(ffmpegFound, meipass, baseDir, join, isDir, isFile, sep);
      }
      DefineBootstrap();
    }

    /** The module with the def moved above the main block: a bundled ffmpeg ends up mentioned by PATH. */
    method RunCorrected(isMain: bool, ffmpegFound: bool, meipass: Option<string>, baseDir: string,
                        join: (string, string) -> string, isDir: string -> bool, isFile: string -> bool, sep: char)
      modifies this, env
      ensures bootstrapDefined
      ensures isMain ==> env.vars == Injected(old(env.vars), ffmpegFound, meipass, baseDir, join, isDir, isFile, sep)
      ensures !isMain ==> env.vars == old(env.vars)
      ensures var d := FirstQualifying(Candidates(meipass, baseDir, join), join, isDir, isFile);
              isMain && !ffmpegFound && d.Some? ==> Contains(PathOf(env.vars), d.value)
    {
      DefineBootstrap();
      if isMain {
        RunMain(ffmpegFound, meipass, baseDir, join, isDir, isFile, sep);
      }
    }
  }

  /** os.path.join on a POSIX system, for the scenario below. */
  function AppJoin(a: string, b: string): string
  {
    a + "/" + b
  }

  /** A file system holding only the directory /app/ffmpeg and the file /app/ffmpeg/ffmpeg. */
  predicate BundleDir(d: string)
  {
    d == "/app/ffmpeg"
  }

  predicate BundleFile(f: string)
  {
    f == "/app/ffmpeg/ffmpeg"
  }

  /** In that file system the search, started from /app without a bundle, selects /app/ffmpeg. */
  lemma BundleSelected()
    ensures FirstQualifying(Candidates(None, "/app", AppJoin), AppJoin, BundleDir, BundleFile) == Some("/app/ffmpeg")
  {
    var c := Candidates(None, "/app", AppJoin);
    assert c[0] == "/app/ffmpeg";
    assert AppJoin("/app/ffmpeg", Names[1]) == "/app/ffmpeg/ffmpeg";
    assert Qualifies(c[0], AppJoin, BundleDir, BundleFile);
  }

  /**
   * An application directory /app holding ffmpeg/ffmpeg, no ffmpeg on PATH
   * and no PATH at all: as written PATH stays empty, corrected it becomes
   * "/app/ffmpeg:".
   */
  method BundledFfmpegIgnored() returns (written: string, corrected: string)
    ensures written == "" && corrected == "/app/ffmpeg:"
  {
    var before := new Environ(map[]);
    var script := new Script(before);
    script.RunAsWritten(true, false, None, "/app", AppJoin, BundleDir, BundleFile, ':');
    written := PathOf(before.vars);
    var after := new Environ(map[]);
    var fixed := new Script(after);
    BundleSelected();
    assert !Contains("", "/app/ffmpeg");
    fixed.RunCorrected(true, false, None, "/app", AppJoin, BundleDir, BundleFile, ':');
    corrected := PathOf(after.vars);
  }
}
