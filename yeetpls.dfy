/** The yeetpls installer (yeetpls/install.py), a top-level script run once:
    handle `-h`/`-default`/`-scripts`, work out the scripts directory for the
    operating system, ask for confirmation, fetch `filelist.txt` and write
    every file it lists into the directory.

    The host is given as parameters: the command line `argv`, the name
    `platform.system()` reports, the values of the `APPDATA` and `$HOME`
    environment variables (None when unset), the lines typed on stdin, and
    `fetch`, the decoded text served at each URL. The run is observed through
    its outcome and the log of directories made, URLs fetched and files
    written. */
module YeetplsInstaller {
  import opened Runtime
  import opened Strings

  const BASE_URL := "https://raw.githubusercontent.com/RivenSkaye/mpv-scripts/master/yeetpls/"
  const FILE_LIST := "filelist.txt"
  const HELP_FLAGS: seq<string> := ["-h", "-help", "--h", "--help"]
  const WINDOWS_DEFAULT := "%APPDATA%/mpv/scripts/"
  const POSIX_DEFAULT := "~/.config/mpv/scripts/"
  const SUBFOLDER := "yeetpls/"

  /** The value held by `opts['scripts']`: None, a string, or the integer 666
      that `argv[2] or 666` yields for an empty argument. */
  datatype Scripts = Unset | Text(path: string) | Sentinel

  /** Python truthiness of that value. */
  predicate Truthy(v: Scripts) {
    match v
    case Unset => false
    case Text(p) => p != ""
    case Sentinel => true
  }

  /** `opts['scripts']` and the `default` flag after option handling. */
  datatype Options = Options(scripts: Scripts, useDefault: bool)

  /** Help is shown when any argument is a help flag or there is no argument. */
  predicate HelpRequested(argv: seq<string>) {
    (exists i :: 0 <= i < |argv| && argv[i] in HELP_FLAGS) || |argv| <= 1
  }

  /** Option handling (yeetpls/install.py:45-56), with the unread rest of stdin.
      `-scripts` always sets the default flag, as `True if 666` is always True. */
  function ParseOptions(argv: seq<string>, stdin: seq<string>): Result<(Options, seq<string>), PyError>
    requires |argv| >= 2
  {
    if "-default" in argv then Ok((Options(Unset, true), stdin))
    else if argv[1] == "-scripts" then
      if |argv| < 3 then Err(IndexError)
      else Ok((Options(if argv[2] == "" then Sentinel else Text(argv[2]), true), stdin))
    else if |stdin| == 0 then Err(EOFError)
    else
      var given := Or(stdin[0], "default");
      if Lower(given) == "default" then Ok((Options(Unset, true), stdin[1..]))
      else Ok((Options(Text(given), false), stdin[1..]))
  }

  predicate IsWindows(system: string) {
    Lower(system) == "windows"
  }

  /** The OS default path, used when the default flag is set and no path was
      given (yeetpls/install.py:61-65). */
  function ApplyDefault(opts: Options, windows: bool): Scripts {
    if opts.useDefault && !Truthy(opts.scripts) then
      Text(if windows then WINDOWS_DEFAULT else POSIX_DEFAULT)
    else opts.scripts
  }

  /** A trailing `/` if missing, then the `yeetpls/` subfolder
      (yeetpls/install.py:67-69). */
  function Normalise(path: string): string {
    (if EndsWith(path, "/") then path else path + "/") + SUBFOLDER
  }

  /** Placeholder expansion (yeetpls/install.py:71-78). A missing variable
      makes `str.replace` raise TypeError. */
  function Expand(path: string, windows: bool, appdata: Option<string>, home: Option<string>)
    : Result<string, PyError>
  {
    if windows then
      if appdata.None? then Err(TypeError)
      else Ok(Replace(Replace(path, "%APPDATA%", appdata.value), "/", "\\"))
    else if home.None? then Err(TypeError)
    else Ok(Replace(path, "~", home.value))
  }

  /** The target directory and the unread rest of stdin
      (yeetpls/install.py:38-78). Calling `endswith` on None or 666 raises
      AttributeError. */
  function ResolvePath(argv: seq<string>, system: string, appdata: Option<string>,
                       home: Option<string>, stdin: seq<string>)
    : Result<(string, seq<string>), PyError>
    requires |argv| >= 2
  {
    match ParseOptions(argv, stdin)
    case Err(e) => Err(e)
    case Ok((opts, rest)) =>
      match ApplyDefault(opts, IsWindows(system))
      case Text(p) =>
        (match Expand(Normalise(p), IsWindows(system), appdata, home)
         case Err(e) => Err(e)
         case Ok(target) => Ok((target, rest)))
      case _ => Err(AttributeError)
  }

  /** The yes/no gate: an empty answer counts as "y". */
  predicate Confirmed(answer: string) {
    Lower(Or(answer, "y")) == "y"
  }

  function CrlfToLf(text: string): string {
    Replace(text, "\r\n", "\n")
  }

  /** The lines of the fetched file list (yeetpls/install.py:95). */
  function ManifestLines(text: string): seq<string> {
    Split(CrlfToLf(text), '\n')
  }

  /** The lines that reach `continule` (yeetpls/install.py:98). */
  predicate Skipped(line: string) {
    |line| < 1 || StartsWith(line, "#")
  }

  /** Fetching and writing one listed file (yeetpls/install.py:102-110). The
      Windows-only `replace` result is discarded, so on every OS the str
      passed to `write` is the fetched text with CRLF turned into LF. */
  function LineActions(target: string, line: string, fetch: string -> string): seq<Action> {
    var url := BASE_URL + line;
    [Fetch(url), Write(target + line, CrlfToLf(fetch(url)))]
  }

  /** The loop over the file list (yeetpls/install.py:96-110): lines are
      installed in order until the first skipped line, where the undefined
      name `continule` raises NameError. */
  function InstallLines(lines: seq<string>, target: string, fetch: string -> string)
    : (Option<PyError>, seq<Action>)
    decreases |lines|
  {
    if |lines| == 0 then (None, [])
    else if Skipped(lines[0]) then (Some(NameError), [])
    else
      var rest := InstallLines(lines[1..], target, fetch);
      (rest.0, LineActions(target, lines[0], fetch) + rest.1)
  }

  /** A whole run of the script (yeetpls/install.py:22-115). */
  function Run(argv: seq<string>, system: string, appdata: Option<string>, home: Option<string>,
               stdin: seq<string>, fetch: string -> string): (Outcome, seq<Action>)
  {
    if HelpRequested(argv) then (Exited(0), [])
    else
      match ResolvePath(argv, system, appdata, home, stdin)
      case Err(e) => (Raised(e), [])
      case Ok((target, rest)) =>
        if |rest| == 0 then (Raised(EOFError), [])
        else if !Confirmed(rest[0]) then (Exited(1), [])
        else
          var listUrl := BASE_URL + FILE_LIST;
          var installed := InstallLines(ManifestLines(fetch(listUrl)), target, fetch);
          var log := [MakeDirs(target), Fetch(listUrl)] + installed.1;
          if installed.0.Some? then (Raised(installed.0.value), log) else (Exited(0), log)
  }

  // ---------------------------------------------------------------------
  // The script itself, step by step.

  /** The script: help, then the target directory, the confirmation and the
      file loop. */
  method Install(argv: seq<string>, system: string, appdata: Option<string>, home: Option<string>,
                 stdin: seq<string>, fetch: string -> string)
    returns (outcome: Outcome, log: seq<Action>)
    ensures HelpRequested(argv) ==> outcome == Exited(0) && log == []
    ensures (outcome, log) == Run(argv, system, appdata, home, stdin, fetch)
  {
    log := [];
    if HelpRequested(argv) {
      return Exited(0), log;
    }
    var resolved, windows := ResolveTarget(argv, system, appdata, home, stdin);
    if resolved.Err? {
      return Raised(resolved.error), log;
    }
    var target, input := resolved.value.0, resolved.value.1;

    if |input| == 0 {
      return Raised(EOFError), log;
    }
    var confirmation := Or(input[0], "y");
    input := input[1..];
    if Lower(confirmation) != "y" {
      return Exited(1), log;
    }

    log := log + [MakeDirs(target)];
    var listUrl := BASE_URL + FILE_LIST;
    log := log + [Fetch(listUrl)];
    var filelist := Split(Replace(fetch(listUrl), "\r\n", "\n"), '\n');
    var err, written := InstallFiles(filelist, target, windows, fetch);
    assert filelist == ManifestLines(fetch(listUrl));
    ghost var installed := InstallLines(filelist, target, fetch);
    assert err == installed.0 && written == installed.1;
    log := log + written;
    assert log == [MakeDirs(target), Fetch(listUrl)] + installed.1;
    if err.Some? {
      assert Run(argv, system, appdata, home, stdin, fetch)
        == (Raised(installed.0.value), [MakeDirs(target), Fetch(listUrl)] + installed.1);
      return Raised(err.value), log;
    }
    return Exited(0), log;
  }

  /** Lines 38-78 of the script, updating `opts['scripts']`, `default` and
      `windows` in the order the source does; returns the target directory
      with the unread rest of stdin, and the `windows` flag. */
  method ResolveTarget(argv: seq<string>, system: string, appdata: Option<string>,
                       home: Option<string>, stdin: seq<string>)
    returns (resolved: Result<(string, seq<string>), PyError>, windows: bool)
    requires |argv| >= 2
    ensures resolved == ResolvePath(argv, system, appdata, home, stdin)
    ensures windows == IsWindows(system)
  {
    var input := stdin;
    var scripts := Unset;
    var useDefault := false;
    windows := false;

    if "-default" in argv {
      useDefault := true;
    } else if argv[1] == "-scripts" {
      if |argv| < 3 {
        return Err(IndexError), IsWindows(system);
      }
      scripts := if argv[2] != "" then Text(argv[2]) else Sentinel;
      useDefault := true;
    } else {
      if |input| == 0 {
        return Err(EOFError), IsWindows(system);
      }
      var given := Or(input[0], "default");
      input := input[1..];
      if Lower(given) == "default" {
        useDefault := true;
      } else {
        scripts := Text(given);
      }
    }
    assert ParseOptions(argv, stdin) == Ok((Options(scripts, useDefault), input));

    if Lower(system) == "windows" {
      windows := true;
    }
    ghost var parsed := Options(scripts, useDefault);
    if useDefault && !Truthy(scripts) {
      scripts := Text(if windows then WINDOWS_DEFAULT else POSIX_DEFAULT);
    }
    assert scripts == ApplyDefault(parsed, windows);

    if !scripts.Text? {
      return Err(AttributeError), windows;
    }
    var target := scripts.path;
    if !EndsWith(target, "/") {
      target := target + "/";
    }
    target := target + SUBFOLDER;

    if windows {
      if appdata.None? {
        return Err(TypeError), windows;
      }
      target := Replace(target, "%APPDATA%", appdata.value);
      target := Replace(target, "/", "\\");
    } else {
      if home.None? {
        return Err(TypeError), windows;
      }
      target := Replace(target, "~", home.value);
    }
    return Ok((target, input)), windows;
  }

  /** The `for line in filelist` loop (yeetpls/install.py:96-110). */
  method InstallFiles(filelist: seq<string>, target: string, windows: bool, fetch: string -> string)
    returns (err: Option<PyError>, log: seq<Action>)
    ensures (err, log) == InstallLines(filelist, target, fetch)
  {
    log := [];
    for i := 0 to |filelist|
      invariant InstallLines(filelist, target, fetch).0 == InstallLines(filelist[i..], target, fetch).0
      invariant InstallLines(filelist, target, fetch).1 == log + InstallLines(filelist[i..], target, fetch).1
    {
      var line := filelist[i];
      InstallLinesAt(filelist, i, target, fetch);
      if |line| < 1 || StartsWith(line, "#") {
        // `continule` names nothing: NameError
        assert log + [] == log;
        return Some(NameError), log;
      }
      var written := InstallLine(target, line, windows, fetch);
      log := log + written;
    }
    assert filelist[|filelist|..] == [];
    assert log + [] == log;
    return None, log;
  }

  /** The body of the file loop for a line that is not skipped
      (yeetpls/install.py:102-110). */
  method InstallLine(target: string, line: string, windows: bool, fetch: string -> string)
    returns (log: seq<Action>)
    ensures log == LineActions(target, line, fetch)
  {
    var url := BASE_URL + line;
    log := [Fetch(url)];
    var content := Replace(fetch(url), "\r\n", "\n");
    if windows {
      // the result of this replace is thrown away
      var discarded := Replace(content, "\n", "\r\n");
    }
    log := log + [Write(target + line, content)];
  }

  /** One step of the file loop, at index i. */
  lemma InstallLinesAt(lines: seq<string>, i: nat, target: string, fetch: string -> string)
    requires i < |lines|
    ensures Skipped(lines[i]) ==> InstallLines(lines[i..], target, fetch) == (Some(NameError), [])
    ensures !Skipped(lines[i]) ==>
      InstallLines(lines[i..], target, fetch) ==
        (InstallLines(lines[i + 1..], target, fetch).0,
         LineActions(target, lines[i], fetch) + InstallLines(lines[i + 1..], target, fetch).1)
  {
    assert lines[i..][0] == lines[i] && lines[i..][1..] == lines[i + 1..];
  }

  // ---------------------------------------------------------------------
  // Properties.

  /** `-scripts` as first argument: a missing value raises IndexError, an
      empty one becomes 666 and raises AttributeError at `endswith`, and a
      non-empty one is used as the path with no prompt, even though the
      default flag is set alongside it. */
  lemma ScriptsFlag(argv: seq<string>, system: string, appdata: Option<string>,
                    home: Option<string>, stdin: seq<string>)
    requires |argv| >= 2 && "-default" !in argv && argv[1] == "-scripts"
    ensures |argv| == 2 ==> ResolvePath(argv, system, appdata, home, stdin) == Err(IndexError)
    ensures |argv| > 2 ==> ParseOptions(argv, stdin).Ok? && ParseOptions(argv, stdin).value.0.useDefault
    ensures |argv| > 2 && argv[2] == "" ==>
      ResolvePath(argv, system, appdata, home, stdin) == Err(AttributeError)
    ensures |argv| > 2 && argv[2] != "" ==>
      match Expand(Normalise(argv[2]), IsWindows(system), appdata, home)
      case Ok(target) => ResolvePath(argv, system, appdata, home, stdin) == Ok((target, stdin))
      case Err(e) => ResolvePath(argv, system, appdata, home, stdin) == Err(e)
  {
  }

  /** The default flag ends up set with no path in two ways: `-default`
      anywhere in argv, which reads nothing from stdin, or, with neither
      `-default` nor `-scripts` first, a prompt answer that is empty or some
      casing of "default", which consumes that line. */
  lemma DefaultRequested(argv: seq<string>, stdin: seq<string>)
    requires |argv| >= 2
    ensures "-default" in argv ==> ParseOptions(argv, stdin) == Ok((Options(Unset, true), stdin))
    ensures "-default" !in argv && argv[1] != "-scripts" && |stdin| > 0 &&
            Lower(Or(stdin[0], "default")) == "default" ==>
      ParseOptions(argv, stdin) == Ok((Options(Unset, true), stdin[1..]))
    ensures "-default" !in argv && argv[1] != "-scripts" && |stdin| > 0 && stdin[0] == "" ==>
      ParseOptions(argv, stdin) == Ok((Options(Unset, true), stdin[1..]))
  {
    assert Lower("default") == "default";
  }

  /** With the default flag set and no path on Windows, the target is the
      APPDATA value followed by `\mpv\scripts\yeetpls\`, with every `/`
      of the whole path turned into `\`. */
  lemma DefaultTargetWindows(argv: seq<string>, system: string, appdata: string,
                             home: Option<string>, stdin: seq<string>, rest: seq<string>)
    requires |argv| >= 2 && ParseOptions(argv, stdin) == Ok((Options(Unset, true), rest)) && IsWindows(system)
    ensures ResolvePath(argv, system, Some(appdata), home, stdin)
      == Ok((Translate(appdata, '/', '\\') + "\\mpv\\scripts\\yeetpls\\", rest))
  {
    var tail := "/mpv/scripts/yeetpls/";
    DefaultResolves(argv, system, Some(appdata), home, stdin, rest);
    WindowsDefaultShape();
    DefaultTails(tail, "/.config/mpv/scripts/yeetpls/");
    ExpandLeadingAppdata(tail, appdata, home);
  }

  /** Elsewhere it is the `$HOME` value followed by
      `/.config/mpv/scripts/yeetpls/`. */
  lemma DefaultTargetPosix(argv: seq<string>, system: string, appdata: Option<string>,
                           home: string, stdin: seq<string>, rest: seq<string>)
    requires |argv| >= 2 && ParseOptions(argv, stdin) == Ok((Options(Unset, true), rest)) && !IsWindows(system)
    ensures ResolvePath(argv, system, appdata, Some(home), stdin)
      == Ok((home + "/.config/mpv/scripts/yeetpls/", rest))
  {
    var tail := "/.config/mpv/scripts/yeetpls/";
    DefaultResolves(argv, system, appdata, Some(home), stdin, rest);
    PosixDefaultShape();
    DefaultTails("/mpv/scripts/yeetpls/", tail);
    ExpandLeadingHome(tail, appdata, home);
  }

  /** With the default flag set and no path, by either route, the target is
      the OS default path, normalised and expanded. */
  lemma DefaultResolves(argv: seq<string>, system: string, appdata: Option<string>,
                        home: Option<string>, stdin: seq<string>, rest: seq<string>)
    requires |argv| >= 2 && ParseOptions(argv, stdin) == Ok((Options(Unset, true), rest))
    ensures ResolvePath(argv, system, appdata, home, stdin) ==
      match Expand(Normalise(if IsWindows(system) then WINDOWS_DEFAULT else POSIX_DEFAULT), IsWindows(system), appdata, home)
      case Err(e) => Err(e)
      case Ok(target) => Ok((target, rest))
  {
  }

  lemma ExpandLeadingAppdata(tail: string, appdata: string, home: Option<string>)
    requires '%' !in tail
    ensures Expand("%APPDATA%" + tail, true, Some(appdata), home)
      == Ok(Translate(appdata, '/', '\\') + Translate(tail, '/', '\\'))
  {
    ReplaceLeading("%APPDATA%", tail, appdata);
    ReplaceAbsent(tail, "%APPDATA%", appdata);
    ReplaceCharIsTranslate(appdata + tail, '/', '\\');
    TranslateConcat(appdata, tail, '/', '\\');
  }

  lemma ExpandLeadingHome(tail: string, appdata: Option<string>, home: string)
    requires '~' !in tail
    ensures Expand("~" + tail, false, appdata, Some(home)) == Ok(home + tail)
  {
    ReplaceLeading("~", tail, home);
    ReplaceAbsent(tail, "~", home);
  }

  lemma WindowsDefaultShape()
    ensures Normalise(WINDOWS_DEFAULT) == "%APPDATA%" + "/mpv/scripts/yeetpls/"
  {
    assert WINDOWS_DEFAULT[|WINDOWS_DEFAULT| - 1..] == "/";
  }

  lemma PosixDefaultShape()
    ensures Normalise(POSIX_DEFAULT) == "~" + "/.config/mpv/scripts/yeetpls/"
  {
    assert POSIX_DEFAULT[|POSIX_DEFAULT| - 1..] == "/";
  }

  lemma DefaultTails(windowsTail: string, posixTail: string)
    requires windowsTail == "/mpv/scripts/yeetpls/"
    requires posixTail == "/.config/mpv/scripts/yeetpls/"
    ensures '%' !in windowsTail && '~' !in posixTail
    ensures Translate(windowsTail, '/', '\\') == "\\mpv\\scripts\\yeetpls\\"
  {
  }

  /** The normalised path ends in `/yeetpls/`, extends the given path, and
      gained a `/` only when the path did not already end in one. */
  lemma NormaliseShape(path: string)
    ensures EndsWith(Normalise(path), "/yeetpls/")
    ensures StartsWith(Normalise(path), path)
    ensures |Normalise(path)| == |path| + |SUBFOLDER| + (if EndsWith(path, "/") then 0 else 1)
  {
    var r := Normalise(path);
    if EndsWith(path, "/") {
      assert r[|r| - 9..] == path[|path| - 1..] + SUBFOLDER;
    } else {
      assert r == path + ("/" + SUBFOLDER);
    }
    assert r[..|path|] == path;
  }

  /** Typing the trailing `/` yourself gives the same target as leaving it
      off: the separator is never doubled. */
  lemma NormaliseTrailingSlashOnce(path: string)
    requires !EndsWith(path, "/")
    ensures Normalise(path + "/") == Normalise(path)
  {
    var p := path + "/";
    assert p[|p| - 1..] == "/";
  }

  /** On Windows every `/` of the path is turned into `\`; with the variable
      set, the expanded path holds no `/`, and a path without `%` is only
      translated. */
  lemma ExpandWindows(path: string, appdata: string, home: Option<string>)
    ensures Expand(path, true, Some(appdata), home).Ok?
    ensures '/' !in Expand(path, true, Some(appdata), home).value
    ensures '%' !in path ==> Expand(path, true, Some(appdata), home) == Ok(Translate(path, '/', '\\'))
  {
    var expanded := Replace(path, "%APPDATA%", appdata);
    ReplaceRemovesChar(expanded, '/', "\\");
    if '%' !in path {
      ReplaceAbsent(path, "%APPDATA%", appdata);
      ReplaceCharIsTranslate(path, '/', '\\');
    }
  }

  /** Elsewhere `~` is replaced by the home value; when that value holds no
      `~`, none is left. A missing variable makes `replace` raise TypeError
      on either OS. */
  lemma ExpandPosix(path: string, appdata: Option<string>, home: Option<string>)
    ensures home.None? <==> Expand(path, false, appdata, home) == Err(TypeError)
    ensures appdata.None? ==> Expand(path, true, appdata, home) == Err(TypeError)
    ensures home.Some? && '~' !in home.value ==>
      Expand(path, false, appdata, home).Ok? && '~' !in Expand(path, false, appdata, home).value
  {
    if home.Some? && '~' !in home.value {
      ReplaceRemovesChar(path, '~', home.value);
    }
  }

  /** The confirmation proceeds exactly on an empty answer or some casing of
      "y". */
  lemma ConfirmedAnswers(answer: string)
    ensures Confirmed(answer) <==> answer == "" || answer == "y" || answer == "Y"
  {
    LowerIsY(Or(answer, "y"));
  }

  /** A run exits with code 1 exactly when the confirmation is declined, and
      then it has made no directory and fetched nothing. */
  lemma DeclineExitsOne(argv: seq<string>, system: string, appdata: Option<string>,
                        home: Option<string>, stdin: seq<string>, fetch: string -> string)
    ensures Run(argv, system, appdata, home, stdin, fetch).0 == Exited(1) <==>
      !HelpRequested(argv)
      && ResolvePath(argv, system, appdata, home, stdin).Ok?
      && |ResolvePath(argv, system, appdata, home, stdin).value.1| > 0
      && !Confirmed(ResolvePath(argv, system, appdata, home, stdin).value.1[0])
    ensures Run(argv, system, appdata, home, stdin, fetch).0 == Exited(1) ==>
      Run(argv, system, appdata, home, stdin, fetch).1 == []
  {
  }

  /** Text without `\r` passes through unchanged, and joining `\r`-free
      lines with CRLF gives the same lines joined with LF; a lone `\r` just
      before a CRLF is kept, so "\r\r\n" becomes "\r\n". */
  lemma CrlfToLfLaws(text: string, line: string, more: string)
    requires '\r' !in line
    ensures '\r' !in text ==> CrlfToLf(text) == text
    ensures CrlfToLf(line + "\r\n" + more) == line + "\n" + CrlfToLf(more)
    ensures CrlfToLf("\r\r\n") == "\r\n"
  {
    if '\r' !in text {
      ReplaceAbsent(text, "\r\n", "\n");
    }
    CrlfAfterPlain(line, more);
    assert "\r\r\n" == "\r" + "\r\n";
    assert "\r\n" == "\r\n" + "";
  }

  lemma {:induction false} CrlfAfterPlain(line: string, more: string)
    requires '\r' !in line
    ensures CrlfToLf(line + "\r\n" + more) == line + "\n" + CrlfToLf(more)
    decreases |line|
  {
    if |line| == 0 {
      assert line + "\r\n" + more == "\r\n" + more;
      ReplaceLeading("\r\n", more, "\n");
    } else {
      var s := line + "\r\n" + more;
      assert s[..2][0] == line[0] != '\r';
      assert s[1..] == line[1..] + "\r\n" + more;
      CrlfAfterPlain(line[1..], more);
      assert s[0] == line[0];
    }
  }

  /** The manifest lines hold no newline, and joining them with `\n` gives
      back the CRLF-normalised text. */
  lemma ManifestLinesRoundTrip(text: string)
    ensures Join(ManifestLines(text), '\n') == CrlfToLf(text)
    ensures forall i :: 0 <= i < |ManifestLines(text)| ==> '\n' !in ManifestLines(text)[i]
  {
    JoinSplit(CrlfToLf(text), '\n');
    SplitPiecesLackSeparator(CrlfToLf(text), '\n');
  }

  /** The index of the first line that reaches `continule`, or the number of
      lines when there is none. */
  function FirstSkipped(lines: seq<string>): (k: nat)
    ensures k <= |lines|
    ensures forall j :: 0 <= j < k ==> !Skipped(lines[j])
    ensures k < |lines| ==> Skipped(lines[k])
    decreases |lines|
  {
    if |lines| == 0 || Skipped(lines[0]) then 0 else 1 + FirstSkipped(lines[1..])
  }

  /** The loop fetches `BASE_URL + line` and writes `target + line` with the
      CRLF-normalised text for each line before the first skipped one, in
      order, and for no other line; it raises NameError exactly when some
      line is skipped. */
  lemma {:induction false} InstallLinesShape(lines: seq<string>, target: string, fetch: string -> string)
    ensures InstallLines(lines, target, fetch).0 == (if FirstSkipped(lines) < |lines| then Some(NameError) else None)
    ensures |InstallLines(lines, target, fetch).1| == 2 * FirstSkipped(lines)
    ensures forall j :: 0 <= j < FirstSkipped(lines) ==>
      InstallLines(lines, target, fetch).1[2 * j] == Fetch(BASE_URL + lines[j]) &&
      InstallLines(lines, target, fetch).1[2 * j + 1]
        == Write(target + lines[j], CrlfToLf(fetch(BASE_URL + lines[j])))
    decreases |lines|
  {
    if |lines| > 0 && !Skipped(lines[0]) {
      InstallLinesShape(lines[1..], target, fetch);
      var log := InstallLines(lines, target, fetch).1;
      var rest := InstallLines(lines[1..], target, fetch).1;
      assert log == LineActions(target, lines[0], fetch) + rest;
      forall j | 1 <= j < FirstSkipped(lines)
        ensures log[2 * j] == Fetch(BASE_URL + lines[j])
        ensures log[2 * j + 1] == Write(target + lines[j], CrlfToLf(fetch(BASE_URL + lines[j])))
      {
        assert log[2 * j] == rest[2 * (j - 1)];
        assert log[2 * j + 1] == rest[2 * (j - 1) + 1];
        assert lines[1..][j - 1] == lines[j];
      }
    }
  }

  /** The flat manifest "a.lua\n#comment\n\nb.lua\n": after `a.lua` is
      written the comment line reaches `continule`, so `b.lua` is never
      fetched. */
  lemma FlatManifestScenario(text: string, target: string, fetch: string -> string)
    requires text == "a.lua\n#comment\n\nb.lua\n"
    ensures ManifestLines(text) == ["a.lua", "#comment", "", "b.lua", ""]
    ensures InstallLines(ManifestLines(text), target, fetch)
      == (Some(NameError), [Fetch(BASE_URL + "a.lua"), Write(target + "a.lua", CrlfToLf(fetch(BASE_URL + "a.lua")))])
  {
    var parts := ["a.lua", "#comment", "", "b.lua", ""];
    ScenarioLines(text, parts);
    assert parts[0][..1] != "#";
    assert !Skipped(parts[0]);
    assert parts[1..][0] == "#comment";
    assert Skipped(parts[1..][0]);
    assert InstallLines(parts[1..], target, fetch) == (Some(NameError), []);
    assert LineActions(target, "a.lua", fetch) + [] == LineActions(target, "a.lua", fetch);
  }

  lemma ScenarioLines(text: string, parts: seq<string>)
    requires text == "a.lua\n#comment\n\nb.lua\n"
    requires parts == ["a.lua", "#comment", "", "b.lua", ""]
    ensures ManifestLines(text) == parts
  {
    ScenarioJoin(text, parts);
    ScenarioNoNewline(parts);
    ScenarioNoReturn(text);
    ReplaceAbsent(text, "\r\n", "\n");
    SplitJoin(parts, '\n');
  }

  lemma ScenarioJoin(text: string, parts: seq<string>)
    requires text == "a.lua\n#comment\n\nb.lua\n"
    requires parts == ["a.lua", "#comment", "", "b.lua", ""]
    ensures Join(parts, '\n') == text
  {
    JoinCons(parts[3], parts[4..], '\n');
    JoinCons(parts[2], parts[3..], '\n');
    JoinCons(parts[1], parts[2..], '\n');
    JoinCons(parts[0], parts[1..], '\n');
  }

  lemma ScenarioNoNewline(parts: seq<string>)
    requires parts == ["a.lua", "#comment", "", "b.lua", ""]
    ensures forall i :: 0 <= i < |parts| ==> '\n' !in parts[i]
  {
  }

  lemma ScenarioNoReturn(text: string)
    requires text == "a.lua\n#comment\n\nb.lua\n"
    ensures '\r' !in text
  {
  }
}
