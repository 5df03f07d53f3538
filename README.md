# mpv-scripts installers in Dafny

This project models the two installer scripts of the RivenSkaye mpv-scripts repository and proves properties of them.

- **`yeetpls/install.py`** installs the yeetpls Lua script. It shows help for `-h`/`-help`/`--h`/`--help` or a bare invocation. It then:
  1. works out the scripts directory from `-default`, `-scripts <dir>` or a prompt;
  2. normalises the directory: adds a trailing `/` and the `yeetpls/` subfolder;
  3. expands `%APPDATA%` (then turns `/` into `\`) on Windows, or `~` elsewhere;
  4. asks for confirmation;
  5. creates the directory, fetches `filelist.txt` and writes the listed files into the directory, up to the first empty or `#` line.
- **`install.py`** is the interactive installer for all scripts. It works out the Windows or POSIX default directory and separator, then runs a menu over the units of `scripts.json` until `select_script` returns True:
  - `[i]` installs the i-th unit in insertion order and deletes it from the mapping;
  - `[0]` (or an empty answer) installs every unit;
  - `[-1]` stops.

  Installing a unit (`install_script`) does the following:
  1. asks whether to take the optional files;
  2. asks for an output directory; the separator is added if missing, and multi-file units get a subfolder;
  3. fetches each file from `base_url + name` and passes its text, with every `\r` removed, to `write`.

Files:

- `runtime.dfy`, module `Runtime`: what the scripts observe and produce.
  - `Option` and `Result`.
  - The Python exceptions the code can raise.
  - The effects log: make a directory, fetch a URL, write a file.
  - A run's outcome: exit code or escaped exception.
- `strings.dfy`, module `Strings`: the `str` methods both scripts rely on, with their Python meaning.
  - `lower`, `startswith`, `endswith`, `in`, `replace`, `split`/`join` on one character.
  - Their laws, for example: joining the pieces of a split gives back the text, and so does splitting a join.
- `decimal.dfy`, module `Decimal`: the decimal menu numbers and `int()`, with the round trip between them.
- `yeetpls.dfy`, module `YeetplsInstaller`:
  - Each step of the script as a function, and the whole run as `Run`.
  - The script as methods that update `opts['scripts']`, `default` and `windows` step by step (`ResolveTarget`) and loop over the file list (`InstallFiles`). Each method is proved equal to its function.
- `installer.dfy`, module `ScriptInstaller`:
  - The class `Installer`. Its fields are the script's mutable state: the key order and records of the `filelist` dict, the unread stdin lines and the effects log. Its methods are `install_script`, `select_script` and the driver loop.
  - Each method is proved against a function on a `State` value (`InstallUnit`, `Select`, `Drive`). The lemmas state the properties of those functions.

The host is given as parameters: `argv`, the name `platform.system()` reports, the values of `APPDATA` and `$HOME` (None when unset), and the lines typed on stdin. `fetch` maps a URL to the decoded text served there.

Both scripts read a variable literally named `$HOME`, which is normally unset. Its value is taken as given: None makes `str.replace` raise TypeError in `yeetpls/install.py`, and prints as `None` in the f-string of `install.py`.

The code's defects are modelled as they are written:
- The misspelled `continule` raises NameError at the first empty or `#` line of the file list.
- The result of the Windows `content.replace("\n", "\r\n")` is discarded, so the str passed to `write` has the same line endings on every OS. The file itself is in text mode, which turns each `\n` into `\r\n` on Windows; that step is not modelled.
- `default = True if 666 else False` always sets the default flag.
- An empty `-scripts` value becomes the integer 666, so `endswith` raises AttributeError.
- `opts` is unbound for a unit without optional files, so reading it raises UnboundLocalError.
- A menu reply above N raises IndexError.
- `[0]` installs every unit and returns True with every key still in `filelist`.

## Model

| member | source | states |
|---|---|---|
| YeetplsInstaller.Install | yeetpls/install.py:22-115 | A help flag anywhere in argv, or no argument, exits 0 with no effect. Otherwise the outcome and effects log are those of `Run`: resolve the target, confirm, make the directory, fetch the file list, then install its lines. |
| YeetplsInstaller.ResolveTarget | yeetpls/install.py:38-78 | Updating `opts['scripts']`, `default` and `windows` in source order yields `ResolvePath`: the expanded target with the unread stdin, or the exception raised. `windows` holds exactly when the lower-cased system name is "windows". |
| YeetplsInstaller.InstallFiles | yeetpls/install.py:96-110 | The file loop, including the discarded Windows `replace`, produces exactly `InstallLines`: per-line effects up to the first skipped line, then NameError. |
| YeetplsInstaller.InstallLine | yeetpls/install.py:102-110 | One listed file: fetch `BASE_URL + line`, then write to `target + line` the str with CRLF turned into LF. The Windows `replace` result is discarded. |
| YeetplsInstaller.ScriptsFlag | yeetpls/install.py:47-50 | With `-scripts` first: a missing value raises IndexError. An empty value becomes 666 and raises AttributeError. Any value leaves the default flag set, yet a non-empty value is used as the path, normalised and expanded, with no prompt. |
| YeetplsInstaller.DefaultTargetWindows | yeetpls/install.py:44-75 | With the default flag and no path on Windows (by either route of `DefaultRequested`), the target is the APPDATA value then `\mpv\scripts\yeetpls\`, with every `/` turned into `\`. |
| YeetplsInstaller.DefaultTargetPosix | yeetpls/install.py:44-78 | With the default flag and no path elsewhere (by either route), the target is the `$HOME` value then `/.config/mpv/scripts/yeetpls/`. |
| YeetplsInstaller.DefaultRequested | yeetpls/install.py:44-56 | The default flag is set with no path when `-default` is anywhere in argv, with stdin unread. It is also set, with neither `-default` nor `-scripts` first, when the prompt answer is empty or some casing of "default"; that line is consumed. |
| YeetplsInstaller.DefaultResolves | yeetpls/install.py:44-78 | Whenever option handling leaves the default flag set and no path, the target is the OS default path, normalised and expanded, with the rest of stdin unread. |
| YeetplsInstaller.ExpandLeadingAppdata | yeetpls/install.py:73-75 | A leading `%APPDATA%` becomes the variable's value, and its `/` are turned into `\` too. With no other `%`, the rest is only translated `/`→`\`. |
| YeetplsInstaller.ExpandLeadingHome | yeetpls/install.py:78 | A leading `~` becomes the home value; the rest is unchanged when it has no `~`. |
| YeetplsInstaller.NormaliseShape | yeetpls/install.py:67-69 | The normalised path extends the given one and ends in `/yeetpls/`. It is longer by `yeetpls/` plus one `/` only when the path lacked a trailing `/`. |
| YeetplsInstaller.NormaliseTrailingSlashOnce | yeetpls/install.py:67-69 | Typing the trailing `/` or leaving it off gives the same path: the `/` is never doubled. |
| YeetplsInstaller.ExpandWindows | yeetpls/install.py:71-75 | On Windows with APPDATA set, expansion succeeds and leaves no `/`. A path without `%` is only translated `/`→`\`. |
| YeetplsInstaller.ExpandPosix | yeetpls/install.py:71-78 | An unset variable raises TypeError on either OS, and elsewhere only then. A home value without `~` leaves no `~` in the result. |
| YeetplsInstaller.ConfirmedAnswers | yeetpls/install.py:81-82 | The confirmation proceeds exactly when the answer is empty, "y" or "Y". |
| YeetplsInstaller.DeclineExitsOne | yeetpls/install.py:81-84 | The run exits 1 exactly when the target resolves and the confirmation is declined. It has then made no directory and fetched nothing. |
| YeetplsInstaller.CrlfToLfLaws | yeetpls/install.py:95 | Text without `\r` is unchanged. A `\r`-free line followed by CRLF becomes that line followed by LF. A lone `\r` before CRLF is kept: "\r\r\n" becomes "\r\n". |
| YeetplsInstaller.ManifestLinesRoundTrip | yeetpls/install.py:95 | Joining the manifest lines with `\n` gives back the CRLF-normalised text, and no line holds `\n`. |
| YeetplsInstaller.FirstSkipped | yeetpls/install.py:98 | The index of the first empty or `#` line. No earlier line is skipped; the line at that index is skipped, or the index is the length. |
| YeetplsInstaller.InstallLinesShape | yeetpls/install.py:96-110 | For each line before the first skipped one, in order: fetch `BASE_URL + line`, then pass the CRLF-normalised text to `write` on `target + line`. Nothing happens for later lines. NameError is raised exactly when some line is skipped. |
| YeetplsInstaller.FlatManifestScenario | yeetpls/install.py:95-110 | For "a.lua\n#comment\n\nb.lua\n", only `a.lua` is fetched and written, then NameError is raised; `b.lua` is never fetched. |
| Strings.LowerIsY | yeetpls/install.py:82 | `lower() == "y"` holds exactly for "y" and "Y". |
| Strings.ReplaceCharIsTranslate | yeetpls/install.py:75 | `replace("/", "\\")` substitutes character by character. |
| Strings.ReplaceRemovesChar | install.py:86 | After replacing a character by text that lacks it, the character is gone. |
| Strings.JoinSplit | install.py:86-89 | Joining the pieces of `split(d)` with `d` gives back the text. |
| Strings.SplitJoin | yeetpls/install.py:95 | Splitting the join of separator-free pieces gives back the pieces. |
| Decimal.ParseIntShown | install.py:53-58 | `int()` reads back the number `f"{curnum}"` prints, with or without a leading minus. |
| ScriptInstaller.DetectHost | install.py:26-38 | Windows exactly when "windows" occurs in the lower-cased system name. The separator is `\` or `/` accordingly. The default path starts with the variable's text ("None" when unset) and ends with the separator. |
| ScriptInstaller.BuildMenu | install.py:49-56 | The key list is the mapping's keys in insertion order. There are N+2 menu lines: the "all" line first, `[i] Install <key i>` for each 1 ≤ i ≤ N, and the "stop" line last. |
| ScriptInstaller.ReplyReadsMenuNumbers | install.py:53-58 | Typing the number an entry shows selects it: `i` for `[i]`, "-1" for stop, and "0" or nothing for all. |
| ScriptInstaller.AcceptsOptionalAnswers | install.py:75-76 | The optional files are taken exactly when the answer is empty or starts with "y" or "Y". |
| ScriptInstaller.OutPathShape | install.py:77-81 | The output directory extends the typed path (default when empty) and ends with the separator. It is exactly that path when the path already ends with the separator, and exactly the path plus one separator otherwise. A multi-file unit then appends `name + sep`. |
| ScriptInstaller.OutPathSeparatorOnce | install.py:77-79 | Typing the trailing separator or leaving it off gives the same directory: the separator is never doubled. |
| ScriptInstaller.CleanedDropsCarriageReturns | install.py:86-89 | The str passed to `write` is the fetched text with every `\r` removed. No `\r` is left, and text without `\r` is passed unchanged. |
| ScriptInstaller.WriteAllShape | install.py:83-89 | Each target, in order, is fetched from `base_url + t` and written to `out_path + t`; the str passed to `write` is free of `\r`. |
| ScriptInstaller.InstallUnitEffects | install.py:71-90 | With no optional files, UnboundLocalError is raised before any prompt, directory or fetch. With both answers read, the next stdin line is the third. The log then gains the directory, then the target writes. Nothing logged before is undone. |
| ScriptInstaller.InstallAllStops | install.py:66-67 | The first unit that raises ends the "install all" loop with its result. |
| ScriptInstaller.InstallAllExtends | install.py:66-67 | The "install all" loop only appends to the log. |
| ScriptInstaller.InstallAllOncePerKey | install.py:66-67 | When the loop raises nothing, it makes exactly one directory per key, so each key is installed once. |
| ScriptInstaller.DeleteAt | install.py:61 | `del filelist[keys[i]]` removes exactly position i and keeps the other keys in order. |
| ScriptInstaller.RemoveKeepsWellFormed | install.py:61 | After the deletion the dict is still duplicate-free with a record per key, and has one key fewer. |
| ScriptInstaller.Chosen | install.py:60-62 | Installing the key at index i keeps the dict well formed and only appends to the log. A False return removes exactly that position and keeps the other keys in order. An exception leaves keys and records unchanged. |
| ScriptInstaller.Everything | install.py:65-68 | "Install all" never returns False, leaves keys and records unchanged, and only appends to the log. |
| ScriptInstaller.Select | install.py:46-68 | One `select_script` call keeps the dict well formed and only appends to the log. A False return removes exactly one key; any other result leaves keys and records unchanged. |
| ScriptInstaller.Drive | install.py:92 | The driver loop keeps the dict well formed, never grows it, and only appends to the log. It terminates: the measure is the number of keys. |
| ScriptInstaller.SelectEmpty | install.py:47-48 | On an empty mapping, the call and the driver return True and do nothing. |
| ScriptInstaller.SelectOne | install.py:59-62 | A reply 1 ≤ i ≤ N installs exactly the i-th key. On success it removes exactly that key, keeps the others in order and returns False. If the install raises, keys and records are unchanged. |
| ScriptInstaller.SelectOutOfRangeOrStop | install.py:59-64 | A reply above N raises IndexError with nothing installed. A negative reply returns True with nothing installed. The mapping is unchanged in both cases. |
| ScriptInstaller.SelectAll | install.py:58-68 | A reply of 0 or no reply runs every key in insertion order. It returns True unless one raises, and the mapping is not emptied. |
| ScriptInstaller.NoOptionalScenario | install.py:73-76 | A unit with no optional files selected by "1" raises UnboundLocalError. Nothing is fetched or written, and the key stays. |
| ScriptInstaller.OneUnitScenario | install.py:58-89 | Reply "1", then "n", then an empty directory answer: the directory is made, only `foo.lua` is fetched and written into the default directory, "foo" leaves the mapping, and the call returns False. |
| ScriptInstaller.Installer.constructor | install.py:26-38 | The host settings are `DetectHost`'s. The state holds the manifest, the stdin lines and an empty log. |
| ScriptInstaller.Installer.InstallScript | install.py:71-90 | `install_script`, with `opts` possibly unbound and `out_path` updated in place, leaves exactly the error, stdin and log `InstallUnit` gives. |
| ScriptInstaller.Installer.WriteTargets | install.py:83-89 | The targets loop appends exactly `WriteAll` to the log. |
| ScriptInstaller.Installer.InstallEvery | install.py:66-67 | The "install all" loop leaves exactly the error, stdin and log `InstallAll` gives. |
| ScriptInstaller.Installer.InstallChosen | install.py:60-62 | Installing `keys[i]` and the in-place `del` keep the dict well formed. They return and leave exactly what `Chosen` gives. |
| ScriptInstaller.Installer.SelectScript | install.py:46-68 | `select_script` on the fields keeps the dict well formed. It returns and leaves exactly what `Select` gives, including the in-place `del`. |
| ScriptInstaller.Installer.Run | install.py:92-97 | The `while not select_script(...)` loop terminates, because each False return removes a key. It ends with the outcome and state `Drive` gives: exit 0, or the escaped exception. |

## Left out

- HTTP fetching and charset decoding. `fetch` is a total function from URL to text, so network failures, HTTP errors and an absent charset are not modelled. This includes `yeetpls/install.py` decoding each file with the file list's charset.
- JSON parsing of `scripts.json`, and the `\r\n` replacement before it. The manifest is given as its key order and records, so malformed JSON, missing fields and wrongly typed fields are not modelled.
- Text-mode newline translation of `open(..., 'w+')`: on Windows each `\n` written becomes `\r\n`. `Write(path, content)` records the str passed to `write`.
- Filesystem effects. `mkdir` and `write` are entries in the effects log; permission and disk errors are not modelled.
- `print` output. Options and menu lines are built, but the prompt texts and messages are not modelled.
- `exit(0)`. A run ends with an outcome value, not a process exit.
- Strings.Lower: folds only ASCII letters, whereas Python's `str.lower` also folds other Unicode letters.
- Decimal.ParseInt: accepts an optional sign then ASCII digits. Python's `int()` also accepts surrounding whitespace, `_` between digits and non-ASCII digits; the model reports ValueError for those.
- `stop`, `to_file` and `joiner` in `install.py` are assigned but never change behaviour, so they have no counterpart.
