/** The interactive installer (install.py): work out the OS defaults, then
    offer a numbered menu over the units of `scripts.json` until the user
    stops, installing one unit, or all of them, per answer.

    The fetched manifest is given as its key order and its records; stdin is
    the list of lines the user types; `fetch` gives the decoded text served at
    each URL. `select_script` and `install_script` are methods of a class
    whose fields are the module's mutable state: the `filelist` dict (key
    order and records), what is left on stdin, and the log of effects. Each
    method is proved equal to a function on a `State` value, and the lemmas
    below state the properties of those functions. */
module ScriptInstaller {
  import opened Runtime
  import opened Strings
  import opened Decimal

  /** One record of `scripts.json`. */
  datatype Unit = Unit(baseUrl: string, required: seq<string>, optional: seq<string>, multifile: bool)

  /** `windows`, `def_path` and `sep` (install.py:26-38). */
  datatype Host = Host(windows: bool, defPath: string, sep: string)

  /** The mutable state of a run: the key order and records of `filelist`,
      the unread stdin lines, and the effects so far. */
  datatype State = State(keys: seq<string>, units: map<string, Unit>, stdin: seq<string>, log: seq<Action>)

  /** What a run of `install_script` leaves: the exception it raised, if any,
      the unread stdin lines, and the effects so far. */
  datatype UnitRun = UnitRun(error: Option<PyError>, stdin: seq<string>, log: seq<Action>)

  const ALL_CHOICE := "[0] Default: Intstall all scripts"
  const STOP_CHOICE := "[-1] Stop selecting scripts and exit"

  predicate Distinct(keys: seq<string>) {
    forall i, j :: 0 <= i < j < |keys| ==> keys[i] != keys[j]
  }

  /** A dict: its keys in insertion order, each once, and a record per key. */
  ghost predicate WellFormed(keys: seq<string>, units: map<string, Unit>) {
    Distinct(keys) && forall k :: k in keys <==> k in units
  }

  /** `f"{os.getenv(...)}"`: an unset variable prints as "None". */
  function EnvText(v: Option<string>): string {
    match v
    case None => "None"
    case Some(s) => s
  }

  /** The OS settings: Windows when "windows" occurs in the lower-cased
      system name; the default path is the variable's text followed by the
      mpv scripts folder, and ends with the separator. */
  function DetectHost(system: string, appdata: Option<string>, home: Option<string>): (h: Host)
    ensures h.windows <==> Contains(Lower(system), "windows")
    ensures h.sep == (if h.windows then "\\" else "/")
    ensures StartsWith(h.defPath, EnvText(if h.windows then appdata else home))
    ensures EndsWith(h.defPath, h.sep)
  {
    if Contains(Lower(system), "windows") then
      Host(true, EnvText(appdata) + "\\mpv\\scripts\\", "\\")
    else
      Host(false, EnvText(home) + "/.config/mpv/scripts/", "/")
  }

  // ---------------------------------------------------------------------
  // The menu of select_script.

  function MenuLine(n: nat, key: string): string {
    "[" + NatToString(n) + "] Install " + key
  }

  /** `int(input(...) or 0)`: an empty answer is 0. */
  function Reply(answer: string): Option<int> {
    if answer == "" then Some(0) else ParseInt(answer)
  }

  /** The menu lines and the key list of select_script (install.py:49-56):
      "all" first, then entry `[i]` for the i-th key in insertion order,
      then "stop". */
  method BuildMenu(filelist: seq<string>) returns (choices: seq<string>, keys: seq<string>)
    ensures keys == filelist
    ensures |choices| == |filelist| + 2
    ensures choices[0] == ALL_CHOICE && choices[|filelist| + 1] == STOP_CHOICE
    ensures forall i :: 1 <= i <= |filelist| ==> choices[i] == MenuLine(i, filelist[i - 1])
  {
    choices := [ALL_CHOICE];
    keys := [];
    var curnum := 1;
    for j := 0 to |filelist|
      invariant curnum == j + 1
      invariant keys == filelist[..j]
      invariant |choices| == j + 1 && choices[0] == ALL_CHOICE
      invariant forall i :: 1 <= i <= j ==> choices[i] == MenuLine(i, filelist[i - 1])
    {
      var key := filelist[j];
      choices := choices + [MenuLine(curnum, key)];
      keys := keys + [key];
      curnum := curnum + 1;
    }
    choices := choices + [STOP_CHOICE];
  }

  /** Typing the number a menu line shows selects that line: `i` for entry
      `[i]`, "-1" for stop, and "0" or nothing for all. */
  lemma ReplyReadsMenuNumbers(i: nat)
    ensures Reply(NatToString(i)) == Some(i)
    ensures Reply("-" + NatToString(1)) == Some(-1)
    ensures Reply(NatToString(0)) == Some(0) && Reply("") == Some(0)
  {
    ParseIntShown(i);
    ParseIntShown(1);
    ParseIntShown(0);
  }

  // ---------------------------------------------------------------------
  // install_script.

  /** `opts.lower().startswith('y')`. */
  predicate AcceptsOptional(answer: string) {
    StartsWith(Lower(answer), "y")
  }

  /** The optional files are taken exactly when the answer is empty or
      starts with "y" or "Y". */
  lemma AcceptsOptionalAnswers(answer: string)
    ensures AcceptsOptional(Or(answer, "y")) <==> answer == "" || answer[0] == 'y' || answer[0] == 'Y'
  {
    var a := Or(answer, "y");
    assert |Lower(a)| == |a| > 0;
    assert Lower(a)[..1] == [LowerChar(a[0])];
  }

  /** The files to install (install.py:76). */
  function Targets(u: Unit, answer: string): seq<string> {
    if AcceptsOptional(answer) then u.required + u.optional else u.required
  }

  /** The output directory (install.py:77-81). */
  function OutPath(given: string, host: Host, u: Unit, name: string): string {
    var p := Or(given, host.defPath);
    var dir := if EndsWith(p, host.sep) then p else p + host.sep;
    if u.multifile then dir + name + host.sep else dir
  }

  /** The output directory extends the typed path (or the default when
      nothing was typed) and ends with the separator, which was added only
      when missing; a multi-file unit adds its own name and a separator. */
  lemma OutPathShape(given: string, host: Host, u: Unit, name: string)
    ensures StartsWith(OutPath(given, host, u, name), Or(given, host.defPath))
    ensures EndsWith(OutPath(given, host, u, name), host.sep)
    ensures !u.multifile && EndsWith(Or(given, host.defPath), host.sep) ==>
      OutPath(given, host, u, name) == Or(given, host.defPath)
    ensures !u.multifile && !EndsWith(Or(given, host.defPath), host.sep) ==>
      OutPath(given, host, u, name) == Or(given, host.defPath) + host.sep
    ensures u.multifile ==>
      OutPath(given, host, u, name) == OutPath(given, host, u.(multifile := false), name) + name + host.sep
  {
    var p := Or(given, host.defPath);
    var dir := if EndsWith(p, host.sep) then p else p + host.sep;
    var r := OutPath(given, host, u, name);
    if EndsWith(p, host.sep) {
      assert dir[|dir| - |host.sep|..] == host.sep;
    } else {
      assert dir[|dir| - |host.sep|..] == host.sep;
      assert dir[..|p|] == p;
    }
    if u.multifile {
      assert r == dir + (name + host.sep);
      assert r[|r| - |host.sep|..] == host.sep;
      assert r[..|p|] == dir[..|p|];
    }
  }

  /** Typing the trailing separator yourself gives the same directory as
      leaving it off: the separator is never doubled. */
  lemma OutPathSeparatorOnce(given: string, host: Host, u: Unit, name: string)
    requires given != "" && !EndsWith(given, host.sep)
    ensures OutPath(given + host.sep, host, u, name) == OutPath(given, host, u, name)
  {
    assert (given + host.sep)[|given + host.sep| - |host.sep|..] == host.sep;
  }

  /** What lines 86 and 89 write: `'\n'.join(text.replace("\r", "").split('\n'))`. */
  function Cleaned(text: string): string {
    Join(Split(Replace(text, "\r", ""), '\n'), '\n')
  }

  /** The written text is the fetched text with every `\r` removed: split and
      join cancel out, no `\r` is left, and text without `\r` is unchanged. */
  lemma CleanedDropsCarriageReturns(text: string)
    ensures Cleaned(text) == Replace(text, "\r", "")
    ensures '\r' !in Cleaned(text)
    ensures '\r' !in text ==> Cleaned(text) == text
  {
    JoinSplit(Replace(text, "\r", ""), '\n');
    ReplaceRemovesChar(text, '\r', "");
    if '\r' !in text {
      ReplaceAbsent(text, "\r", "");
    }
  }

  /** Fetching and writing one target (install.py:84-89). */
  function FileActions(url: string, dir: string, t: string, fetch: string -> string): seq<Action> {
    [Fetch(url + t), Write(dir + t, Cleaned(fetch(url + t)))]
  }

  /** The loop over the targets (install.py:83-89). */
  function WriteAll(url: string, dir: string, targets: seq<string>, fetch: string -> string): seq<Action>
    decreases |targets|
  {
    if |targets| == 0 then []
    else WriteAll(url, dir, targets[..|targets| - 1], fetch) + FileActions(url, dir, targets[|targets| - 1], fetch)
  }

  /** Each target, in order, is fetched from `url + t` and written to
      `dir + t`, with content free of `\r`. */
  lemma {:induction false} WriteAllShape(url: string, dir: string, targets: seq<string>, fetch: string -> string)
    ensures |WriteAll(url, dir, targets, fetch)| == 2 * |targets|
    ensures forall j :: 0 <= j < |targets| ==>
      WriteAll(url, dir, targets, fetch)[2 * j] == Fetch(url + targets[j]) &&
      WriteAll(url, dir, targets, fetch)[2 * j + 1] == Write(dir + targets[j], Cleaned(fetch(url + targets[j]))) &&
      '\r' !in WriteAll(url, dir, targets, fetch)[2 * j + 1].content
    decreases |targets|
  {
    if |targets| > 0 {
      var n := |targets| - 1;
      WriteAllShape(url, dir, targets[..n], fetch);
      var log := WriteAll(url, dir, targets, fetch);
      forall j | 0 <= j < |targets|
        ensures log[2 * j] == Fetch(url + targets[j])
        ensures log[2 * j + 1] == Write(dir + targets[j], Cleaned(fetch(url + targets[j])))
        ensures '\r' !in log[2 * j + 1].content
      {
        CleanedDropsCarriageReturns(fetch(url + targets[j]));
        if j < n {
          assert targets[..n][j] == targets[j];
        }
      }
    }
  }

  /** `install_script(data, name)` (install.py:71-90). With no optional file
      the name `opts` is never bound and reading it raises
      UnboundLocalError. */
  function InstallUnit(host: Host, fetch: string -> string, name: string, u: Unit,
                       stdin: seq<string>, log: seq<Action>): UnitRun
  {
    if |u.optional| == 0 then UnitRun(Some(UnboundLocalError), stdin, log)
    else if |stdin| == 0 then UnitRun(Some(EOFError), stdin, log)
    else
      var targets := Targets(u, Or(stdin[0], "y"));
      var rest := stdin[1..];
      if |rest| == 0 then UnitRun(Some(EOFError), rest, log)
      else
        var dir := OutPath(rest[0], host, u, name);
        UnitRun(None, rest[1..], log + [MakeDirs(dir)] + WriteAll(u.baseUrl, dir, targets, fetch))
  }

  predicate Extends(before: seq<Action>, after: seq<Action>) {
    |before| <= |after| && after[..|before|] == before
  }

  /** A unit without optional files fails before asking anything, fetching
      anything or writing anything; otherwise, once both answers are read,
      the directory is made and nothing logged before is undone. */
  lemma InstallUnitEffects(host: Host, fetch: string -> string, name: string, u: Unit,
                           stdin: seq<string>, log: seq<Action>)
    ensures |u.optional| == 0 ==>
      InstallUnit(host, fetch, name, u, stdin, log) == UnitRun(Some(UnboundLocalError), stdin, log)
    ensures Extends(log, InstallUnit(host, fetch, name, u, stdin, log).log)
    ensures |u.optional| > 0 && |stdin| >= 2 ==>
      var r := InstallUnit(host, fetch, name, u, stdin, log);
      r.error.None? && r.stdin == stdin[2..] &&
      r.log[|log|] == MakeDirs(OutPath(stdin[1], host, u, name)) &&
      r.log[|log| + 1..] == WriteAll(u.baseUrl, OutPath(stdin[1], host, u, name), Targets(u, Or(stdin[0], "y")), fetch)
  {
    var r := InstallUnit(host, fetch, name, u, stdin, log);
    if |u.optional| > 0 && |stdin| >= 2 {
      var dir := OutPath(stdin[1], host, u, name);
      assert stdin[1..][0] == stdin[1] && stdin[1..][1..] == stdin[2..];
      assert r.log == log + [MakeDirs(dir)] + WriteAll(u.baseUrl, dir, Targets(u, Or(stdin[0], "y")), fetch);
    }
  }

  /** The for loop over all keys of the "install all" branch
      (install.py:66-67); the first exception stops it. */
  function InstallAll(host: Host, fetch: string -> string, keys: seq<string>, units: map<string, Unit>,
                      stdin: seq<string>, log: seq<Action>): UnitRun
    requires forall i :: 0 <= i < |keys| ==> keys[i] in units
    decreases |keys|
  {
    if |keys| == 0 then UnitRun(None, stdin, log)
    else
      var prev := InstallAll(host, fetch, keys[..|keys| - 1], units, stdin, log);
      if prev.error.Some? then prev
      else
        var key := keys[|keys| - 1];
        InstallUnit(host, fetch, key, units[key], prev.stdin, prev.log)
  }

  /** One step of the "install all" loop, at index i. */
  lemma InstallAllAt(host: Host, fetch: string -> string, keys: seq<string>, units: map<string, Unit>,
                     stdin: seq<string>, log: seq<Action>, i: nat)
    requires forall j :: 0 <= j < |keys| ==> keys[j] in units
    requires i < |keys|
    ensures
      var prev := InstallAll(host, fetch, keys[..i], units, stdin, log);
      InstallAll(host, fetch, keys[..i + 1], units, stdin, log) ==
        if prev.error.Some? then prev else InstallUnit(host, fetch, keys[i], units[keys[i]], prev.stdin, prev.log)
  {
    assert keys[..i + 1][..i] == keys[..i];
  }

  /** Once one unit of the loop has raised, the loop ends with that result. */
  lemma {:induction false} InstallAllStops(host: Host, fetch: string -> string, keys: seq<string>,
                                           units: map<string, Unit>, stdin: seq<string>,
                                           log: seq<Action>, j: nat)
    requires forall i :: 0 <= i < |keys| ==> keys[i] in units
    requires j <= |keys|
    requires InstallAll(host, fetch, keys[..j], units, stdin, log).error.Some?
    ensures InstallAll(host, fetch, keys, units, stdin, log) == InstallAll(host, fetch, keys[..j], units, stdin, log)
    decreases |keys|
  {
    if j < |keys| {
      var init := keys[..|keys| - 1];
      assert init[..j] == keys[..j];
      InstallAllStops(host, fetch, init, units, stdin, log, j);
    } else {
      assert keys[..j] == keys;
    }
  }

  /** The loop only appends to the log. */
  lemma {:induction false} InstallAllExtends(host: Host, fetch: string -> string, keys: seq<string>,
                                             units: map<string, Unit>, stdin: seq<string>, log: seq<Action>)
    requires forall i :: 0 <= i < |keys| ==> keys[i] in units
    ensures Extends(log, InstallAll(host, fetch, keys, units, stdin, log).log)
    decreases |keys|
  {
    if |keys| > 0 {
      var init := keys[..|keys| - 1];
      InstallAllExtends(host, fetch, init, units, stdin, log);
      var prev := InstallAll(host, fetch, init, units, stdin, log);
      var key := keys[|keys| - 1];
      InstallUnitEffects(host, fetch, key, units[key], prev.stdin, prev.log);
    }
  }

  /** The number of directories a log makes: one per installed unit. */
  function DirsMade(log: seq<Action>): nat
    decreases |log|
  {
    if |log| == 0 then 0
    else DirsMade(log[..|log| - 1]) + (if log[|log| - 1].MakeDirs? then 1 else 0)
  }

  lemma {:induction false} DirsMadeConcat(a: seq<Action>, b: seq<Action>)
    ensures DirsMade(a + b) == DirsMade(a) + DirsMade(b)
    decreases |b|
  {
    if |b| == 0 {
      assert a + b == a;
    } else {
      DirsMadeConcat(a, b[..|b| - 1]);
      assert (a + b)[..|a + b| - 1] == a + b[..|b| - 1];
    }
  }

  lemma {:induction false} WriteAllMakesNoDir(url: string, dir: string, targets: seq<string>, fetch: string -> string)
    ensures DirsMade(WriteAll(url, dir, targets, fetch)) == 0
    decreases |targets|
  {
    if |targets| > 0 {
      var n := |targets| - 1;
      WriteAllMakesNoDir(url, dir, targets[..n], fetch);
      var acts := FileActions(url, dir, targets[n], fetch);
      DirsMadeConcat(WriteAll(url, dir, targets[..n], fetch), acts);
      assert acts[..1] == [acts[0]] && [acts[0]][..0] == [];
      assert DirsMade([acts[0]]) == 0;
    }
  }

  /** When "install all" raises nothing, it has installed every key exactly
      once: the log gains one directory per key. */
  lemma {:induction false} InstallAllOncePerKey(host: Host, fetch: string -> string, keys: seq<string>,
                                                units: map<string, Unit>, stdin: seq<string>, log: seq<Action>)
    requires forall i :: 0 <= i < |keys| ==> keys[i] in units
    requires InstallAll(host, fetch, keys, units, stdin, log).error.None?
    ensures DirsMade(InstallAll(host, fetch, keys, units, stdin, log).log) == DirsMade(log) + |keys|
    decreases |keys|
  {
    if |keys| > 0 {
      var init := keys[..|keys| - 1];
      var prev := InstallAll(host, fetch, init, units, stdin, log);
      InstallAllOncePerKey(host, fetch, init, units, stdin, log);
      var key := keys[|keys| - 1];
      var u := units[key];
      var rest := prev.stdin[1..];
      var dir := OutPath(rest[0], host, u, key);
      var writes := WriteAll(u.baseUrl, dir, Targets(u, Or(prev.stdin[0], "y")), fetch);
      DirsMadeConcat(prev.log, [MakeDirs(dir)]);
      DirsMadeConcat(prev.log + [MakeDirs(dir)], writes);
      WriteAllMakesNoDir(u.baseUrl, dir, Targets(u, Or(prev.stdin[0], "y")), fetch);
      assert DirsMade([MakeDirs(dir)]) == 1;
    }
  }

  // ---------------------------------------------------------------------
  // select_script and the driver loop.

  /** `del filelist[key]` on the key order. */
  function Delete(keys: seq<string>, key: string): seq<string>
    decreases |keys|
  {
    if |keys| == 0 then []
    else if keys[0] == key then Delete(keys[1..], key)
    else [keys[0]] + Delete(keys[1..], key)
  }

  lemma {:induction false} DeleteAbsent(keys: seq<string>, key: string)
    requires key !in keys
    ensures Delete(keys, key) == keys
    decreases |keys|
  {
    if |keys| > 0 {
      DeleteAbsent(keys[1..], key);
      assert keys == [keys[0]] + keys[1..];
    }
  }

  /** Deleting the key at index i of a duplicate-free order removes exactly
      that position and keeps the other keys in their order. */
  lemma {:induction false} DeleteAt(keys: seq<string>, i: nat)
    requires Distinct(keys) && i < |keys|
    ensures Delete(keys, keys[i]) == keys[..i] + keys[i + 1..]
    decreases |keys|
  {
    if i == 0 {
      assert keys[0] !in keys[1..] by {
        forall j | 0 <= j < |keys[1..]| ensures keys[1..][j] != keys[0] {
          assert keys[1..][j] == keys[j + 1];
        }
      }
      DeleteAbsent(keys[1..], keys[0]);
    } else {
      var tail := keys[1..];
      assert Distinct(tail) by {
        forall a, b | 0 <= a < b < |tail| ensures tail[a] != tail[b] {
          assert tail[a] == keys[a + 1] && tail[b] == keys[b + 1];
        }
      }
      assert tail[i - 1] == keys[i];
      DeleteAt(tail, i - 1);
      assert keys[..i] == [keys[0]] + tail[..i - 1];
      assert keys[i + 1..] == tail[i..];
    }
  }

  /** Removing position i keeps the dict well formed, with one key fewer. */
  lemma RemoveKeepsWellFormed(keys: seq<string>, units: map<string, Unit>, i: nat)
    requires WellFormed(keys, units) && i < |keys|
    ensures WellFormed(keys[..i] + keys[i + 1..], units - {keys[i]})
    ensures |keys[..i] + keys[i + 1..]| == |keys| - 1
  {
    var rest := keys[..i] + keys[i + 1..];
    forall a | 0 <= a < |rest| ensures rest[a] == keys[if a < i then a else a + 1] {
    }
    assert Distinct(rest) by {
      forall a, b | 0 <= a < b < |rest| ensures rest[a] != rest[b] {
        assert rest[a] == keys[if a < i then a else a + 1];
        assert rest[b] == keys[if b < i then b else b + 1];
      }
    }
    forall k ensures k in rest <==> k in units - {keys[i]} {
      if k in rest {
        var a :| 0 <= a < |rest| && rest[a] == k;
        assert k == keys[if a < i then a else a + 1];
      }
      if k in units - {keys[i]} {
        var b :| 0 <= b < |keys| && keys[b] == k;
        assert b != i;
        assert rest[if b < i then b else b - 1] == k;
      }
    }
  }

  /** The single-key branch of select_script (install.py:60-62): install
      the key at index i, then delete it and return False; an exception
      leaves the dict as it was. */
  function Chosen(host: Host, fetch: string -> string, s: State, i: nat): (r: (Result<bool, PyError>, State))
    requires WellFormed(s.keys, s.units) && i < |s.keys|
    ensures WellFormed(r.1.keys, r.1.units)
    ensures r.0 == Ok(false) ==> |r.1.keys| == |s.keys| - 1 && r.1.keys == s.keys[..i] + s.keys[i + 1..]
    ensures r.0 != Ok(false) ==> r.0.Err? && r.1.keys == s.keys && r.1.units == s.units
    ensures Extends(s.log, r.1.log)
  {
    var key := s.keys[i];
    var run := InstallUnit(host, fetch, key, s.units[key], s.stdin, s.log);
    InstallUnitEffects(host, fetch, key, s.units[key], s.stdin, s.log);
    if run.error.Some? then (Err(run.error.value), s.(stdin := run.stdin, log := run.log))
    else
      DeleteAt(s.keys, i);
      RemoveKeepsWellFormed(s.keys, s.units, i);
      (Ok(false), State(Delete(s.keys, key), s.units - {key}, run.stdin, run.log))
  }

  /** The "install all" branch of select_script (install.py:65-68): every
      key in order, then True; the dict is left as it was. */
  function Everything(host: Host, fetch: string -> string, s: State): (r: (Result<bool, PyError>, State))
    requires WellFormed(s.keys, s.units)
    ensures r.0 != Ok(false) && r.1.keys == s.keys && r.1.units == s.units
    ensures Extends(s.log, r.1.log)
  {
    var run := InstallAll(host, fetch, s.keys, s.units, s.stdin, s.log);
    InstallAllExtends(host, fetch, s.keys, s.units, s.stdin, s.log);
    if run.error.Some? then (Err(run.error.value), s.(stdin := run.stdin, log := run.log))
    else (Ok(true), s.(stdin := run.stdin, log := run.log))
  }

  /** `select_script(filelist)` (install.py:46-68). */
  function Select(host: Host, fetch: string -> string, s: State): (r: (Result<bool, PyError>, State))
    requires WellFormed(s.keys, s.units)
    ensures WellFormed(r.1.keys, r.1.units)
    ensures r.0 == Ok(false) ==> |r.1.keys| == |s.keys| - 1
    ensures r.0 != Ok(false) ==> r.1.keys == s.keys && r.1.units == s.units
    ensures Extends(s.log, r.1.log)
  {
    if |s.keys| < 1 then (Ok(true), s)
    else if |s.stdin| == 0 then (Err(EOFError), s)
    else
      var rest := s.stdin[1..];
      match Reply(s.stdin[0])
      case None => (Err(ValueError), s.(stdin := rest))
      case Some(n) =>
        if n > 0 then
          if n > |s.keys| then (Err(IndexError), s.(stdin := rest))
          else Chosen(host, fetch, s.(stdin := rest), n - 1)
        else if n < 0 then (Ok(true), s.(stdin := rest))
        else Everything(host, fetch, s.(stdin := rest))
  }

  /** `while not select_script(filelist): pass` (install.py:92): the
      result is the exception that ended the run, if any, and the final
      state. */
  function Drive(host: Host, fetch: string -> string, s: State): (r: (Option<PyError>, State))
    requires WellFormed(s.keys, s.units)
    ensures WellFormed(r.1.keys, r.1.units)
    ensures |r.1.keys| <= |s.keys|
    ensures Extends(s.log, r.1.log)
    decreases |s.keys|
  {
    var step := Select(host, fetch, s);
    match step.0
    case Err(e) => (Some(e), step.1)
    case Ok(done) => if done then (None, step.1) else Drive(host, fetch, step.1)
  }

  /** How the script ends (install.py:92-97): `exit(0)` after the loop, or
      the exception that escaped it. */
  function Finish(d: (Option<PyError>, State)): Outcome {
    if d.0.Some? then Raised(d.0.value) else Exited(0)
  }

  /** select_script on an empty mapping returns True and does nothing. */
  lemma SelectEmpty(host: Host, fetch: string -> string, s: State)
    requires WellFormed(s.keys, s.units) && |s.keys| == 0
    ensures Select(host, fetch, s) == (Ok(true), s)
    ensures Drive(host, fetch, s) == (None, s)
  {
  }

  /** A reply i with 1 <= i <= N installs exactly the i-th key and then
      removes exactly that key, keeping the others in their order, and
      returns False; if the install raises, the mapping is unchanged. */
  lemma SelectOne(host: Host, fetch: string -> string, s: State)
    requires WellFormed(s.keys, s.units) && |s.stdin| > 0
    requires Reply(s.stdin[0]).Some? && 1 <= Reply(s.stdin[0]).value <= |s.keys|
    ensures
      var n := Reply(s.stdin[0]).value;
      var key := s.keys[n - 1];
      var run := InstallUnit(host, fetch, key, s.units[key], s.stdin[1..], s.log);
      Select(host, fetch, s) ==
        if run.error.Some? then (Err(run.error.value), State(s.keys, s.units, run.stdin, run.log))
        else (Ok(false), State(s.keys[..n - 1] + s.keys[n..], s.units - {key}, run.stdin, run.log))
  {
    var n := Reply(s.stdin[0]).value;
    DeleteAt(s.keys, n - 1);
  }

  /** A reply greater than N raises IndexError before anything is
      installed; a negative reply returns True with nothing installed; the
      mapping is unchanged in both cases. */
  lemma SelectOutOfRangeOrStop(host: Host, fetch: string -> string, s: State)
    requires WellFormed(s.keys, s.units) && |s.keys| > 0 && |s.stdin| > 0
    requires Reply(s.stdin[0]).Some?
    ensures Reply(s.stdin[0]).value > |s.keys| ==>
      Select(host, fetch, s) == (Err(IndexError), s.(stdin := s.stdin[1..]))
    ensures Reply(s.stdin[0]).value < 0 ==>
      Select(host, fetch, s) == (Ok(true), s.(stdin := s.stdin[1..]))
  {
  }

  /** A reply of 0, or no reply, runs install_script for every key in
      insertion order and returns True unless one raises; the mapping is
      not emptied. */
  lemma SelectAll(host: Host, fetch: string -> string, s: State)
    requires WellFormed(s.keys, s.units) && |s.keys| > 0 && |s.stdin| > 0
    requires s.stdin[0] == "" || Reply(s.stdin[0]) == Some(0)
    ensures
      var run := InstallAll(host, fetch, s.keys, s.units, s.stdin[1..], s.log);
      Select(host, fetch, s) ==
        (if run.error.Some? then Err(run.error.value) else Ok(true), State(s.keys, s.units, run.stdin, run.log))
  {
  }

  /** Structured manifest `{"foo": {"base_url": "X/", "required":
      ["foo.lua"], "optional": [], "multifile": false}}` with reply "1":
      `opts` is never bound, so nothing is fetched or written and the
      mapping keeps "foo". */
  lemma NoOptionalScenario(host: Host, fetch: string -> string, stdin: seq<string>)
    requires |stdin| > 0 && stdin[0] == "1"
    ensures
      var s := State(["foo"], map["foo" := Unit("X/", ["foo.lua"], [], false)], stdin, []);
      Select(host, fetch, s) == (Err(UnboundLocalError), s.(stdin := stdin[1..]))
  {
    ParseIntShown(1);
  }

  /** The same unit with an optional file, reply "1", the optional files
      declined with "n" and the default directory accepted: `foo.lua` alone
      is fetched from `X/foo.lua` and written into the default directory,
      and "foo" leaves the mapping. */
  lemma OneUnitScenario(host: Host, fetch: string -> string, stdin: seq<string>)
    requires EndsWith(host.defPath, host.sep)
    requires |stdin| >= 3 && stdin[0] == "1" && stdin[1] == "n" && stdin[2] == ""
    ensures
      var s := State(["foo"], map["foo" := Unit("X/", ["foo.lua"], ["extra.lua"], false)], stdin, []);
      Select(host, fetch, s) == (Ok(false), State([], map[], stdin[3..],
        [MakeDirs(host.defPath), Fetch("X/foo.lua"), Write(host.defPath + "foo.lua", Cleaned(fetch("X/foo.lua")))]))
  {
    ParseIntShown(1);
    var u := Unit("X/", ["foo.lua"], ["extra.lua"], false);
    assert !AcceptsOptional("n") by {
      assert Lower("n")[..1] == [LowerChar('n')];
    }
    assert Targets(u, "n") == ["foo.lua"];
    assert OutPath("", host, u, "foo") == host.defPath;
    assert ["foo.lua"][..0] == [];
    assert "X/" + "foo.lua" == "X/foo.lua";
    assert WriteAll("X/", host.defPath, ["foo.lua"], fetch)
      == [Fetch("X/foo.lua"), Write(host.defPath + "foo.lua", Cleaned(fetch("X/foo.lua")))];
    assert stdin[1..][1..] == stdin[2..] && stdin[2..][1..] == stdin[3..];
    var s := State(["foo"], map["foo" := u], stdin, []);
    assert NatToString(1) == "1";
    assert Reply(stdin[0]) == Some(1);
    var run := InstallUnit(host, fetch, "foo", u, stdin[1..], []);
    assert run == UnitRun(None, stdin[3..],
      [MakeDirs(host.defPath), Fetch("X/foo.lua"), Write(host.defPath + "foo.lua", Cleaned(fetch("X/foo.lua")))]);
    DeleteAt(s.keys, 0);
    assert s.keys[..0] + s.keys[1..] == [];
    assert s.units - {"foo"} == map[];
  }

  // ---------------------------------------------------------------------
  // The script's state and its functions as a class.

  class Installer {
    const host: Host
    const fetch: string -> string
    var keys: seq<string>
    var units: map<string, Unit>
    var stdin: seq<string>
    var log: seq<Action>

    ghost predicate Valid()
      reads this
    {
      WellFormed(keys, units)
    }

    function Snapshot(): State
      reads this
    {
      State(keys, units, stdin, log)
    }

    /** The module-level setup (install.py:26-38) with the fetched manifest. */
    constructor (system: string, appdata: Option<string>, home: Option<string>,
                 manifestKeys: seq<string>, manifestUnits: map<string, Unit>,
                 input: seq<string>, fetch: string -> string)
      requires WellFormed(manifestKeys, manifestUnits)
      ensures Valid()
      ensures host == DetectHost(system, appdata, home) && this.fetch == fetch
      ensures Snapshot() == State(manifestKeys, manifestUnits, input, [])
    {
      var windows := Contains(Lower(system), "windows");
      var defPath: string;
      var sep: string;
      if windows {
        defPath := EnvText(appdata) + "\\mpv\\scripts\\";
        sep := "\\";
      } else {
        defPath := EnvText(home) + "/.config/mpv/scripts/";
        sep := "/";
      }
      host := Host(windows, defPath, sep);
      this.fetch := fetch;
      keys := manifestKeys;
      units := manifestUnits;
      stdin := input;
      log := [];
    }

    /** `install_script(data, name)` (install.py:71-90). */
    method InstallScript(data: Unit, name: string) returns (error: Option<PyError>)
      modifies this`stdin, this`log
      ensures UnitRun(error, stdin, log) == InstallUnit(host, fetch, name, data, old(stdin), old(log))
    {
      ghost var input := stdin;
      var url := data.baseUrl;
      var opts: Option<string> := None;
      if |data.optional| > 0 {
        if |stdin| == 0 {
          return Some(EOFError);
        }
        opts := Some(Or(stdin[0], "y"));
        stdin := stdin[1..];
      }
      if opts.None? {
        // `opts` was never bound
        return Some(UnboundLocalError);
      }
      var targets := if AcceptsOptional(opts.value) then data.required + data.optional else data.required;
      assert targets == Targets(data, Or(input[0], "y"));
      if |stdin| == 0 {
        return Some(EOFError);
      }
      var outPath := Or(stdin[0], host.defPath);
      stdin := stdin[1..];
      if !EndsWith(outPath, host.sep) {
        outPath := outPath + host.sep;
      }
      if data.multifile {
        outPath := outPath + name + host.sep;
      }
      assert outPath == OutPath(input[1..][0], host, data, name);
      log := log + [MakeDirs(outPath)];
      WriteTargets(url, outPath, targets);
      return None;
    }

    /** The loop of install_script over its targets (install.py:83-89). */
    method WriteTargets(url: string, outPath: string, targets: seq<string>)
      modifies this`log
      ensures log == old(log) + WriteAll(url, outPath, targets, fetch)
    {
      ghost var start := log;
      for i := 0 to |targets|
        invariant log == start + WriteAll(url, outPath, targets[..i], fetch)
      {
        var t := targets[i];
        var scriptfile := outPath + t;
        log := log + [Fetch(url + t)];
        var content := Split(Replace(fetch(url + t), "\r", ""), '\n');
        log := log + [Write(scriptfile, Join(content, '\n'))];
        assert targets[..i + 1][..i] == targets[..i];
      }
      assert targets[..|targets|] == targets;
    }

    /** The "install all" loop of select_script (install.py:66-67). */
    method InstallEvery() returns (error: Option<PyError>)
      requires forall i :: 0 <= i < |keys| ==> keys[i] in units
      modifies this`stdin, this`log
      ensures UnitRun(error, stdin, log) == InstallAll(host, fetch, keys, units, old(stdin), old(log))
    {
      ghost var input := stdin;
      ghost var start := log;
      for i := 0 to |keys|
        invariant InstallAll(host, fetch, keys[..i], units, input, start) == UnitRun(None, stdin, log)
      {
        var key := keys[i];
        InstallAllAt(host, fetch, keys, units, input, start, i);
        error := InstallScript(units[key], key);
        if error.Some? {
          InstallAllStops(host, fetch, keys, units, input, start, i + 1);
          return;
        }
      }
      assert keys[..|keys|] == keys;
      return None;
    }

    /** `select_script(filelist)` (install.py:46-68). */
    method SelectScript() returns (r: Result<bool, PyError>)
      requires Valid()
      modifies this`keys, this`units, this`stdin, this`log
      ensures Valid()
      ensures (r, Snapshot()) == Select(host, fetch, old(Snapshot()))
    {
      if |keys| < 1 {
        return Ok(true);
      }
      var choices, menuKeys := BuildMenu(keys);
      if |stdin| == 0 {
        return Err(EOFError);
      }
      var reply := Reply(stdin[0]);
      stdin := stdin[1..];
      if reply.None? {
        return Err(ValueError);
      }
      if reply.value > 0 {
        if reply.value > |menuKeys| {
          return Err(IndexError);
        }
        r := InstallChosen(reply.value - 1);
        return;
      }
      if reply.value < 0 {
        return Ok(true);
      }
      var err := InstallEvery();
      if err.Some? {
        return Err(err.value);
      }
      return Ok(true);
    }

    /** Lines 60-62: install `keys[i]`, then `del filelist[keys[i]]`. */
    method InstallChosen(i: nat) returns (r: Result<bool, PyError>)
      requires Valid() && i < |keys|
      modifies this`keys, this`units, this`stdin, this`log
      ensures Valid()
      ensures (r, Snapshot()) == Chosen(host, fetch, old(Snapshot()), i)
    {
      var key := keys[i];
      var err := InstallScript(units[key], key);
      if err.Some? {
        return Err(err.value);
      }
      DeleteAt(keys, i);
      RemoveKeepsWellFormed(keys, units, i);
      keys := Delete(keys, key);
      units := units - {key};
      return Ok(false);
    }

    /** The driver loop and the final `exit(0)` (install.py:92-97). */
    method Run() returns (outcome: Outcome)
      requires Valid()
      modifies this`keys, this`units, this`stdin, this`log
      ensures Valid()
      ensures (outcome, Snapshot()) == (Finish(Drive(host, fetch, old(Snapshot()))), Drive(host, fetch, old(Snapshot())).1)
    {
      var r := SelectScript();
      while r == Ok(false)
        invariant Valid()
        invariant r == Ok(false) ==> Drive(host, fetch, old(Snapshot())) == Drive(host, fetch, Snapshot())
        invariant r != Ok(false) ==>
          Drive(host, fetch, old(Snapshot())) == (if r.Err? then Some(r.error) else None, Snapshot())
        decreases |keys| + (if r == Ok(false) then 1 else 0)
      {
        r := SelectScript();
      }
      outcome := if r.Err? then Raised(r.error) else Exited(0);
    }
  }
}
