# SimpleLogger: a verified model of a Go console and file logger

`SimpleLogger.go` is a small logging package. A process-wide `Mylogs` object
is created on first use by `NewMylogs`. It holds a configuration, a colour
table and the open log file. Six level methods (`Run`, `Success`, `Faild`,
`Warrning`, `Error`, `Info`) each print one line. The line goes to the log
file (written, then synced) and then to the console. It carries an optional
timestamp, an optional caller-location tag and a coloured status tag. When the
logger opens its file it creates it if absent, appends to it if it is below
`MaxSize`, and rotates it (clear or back up) otherwise.

The model has seven files:

- `wrappers.dfy` holds the `Option` type.
- `text.dfy` models Go's `strings.Split` and `%d`, plus the removal of ANSI
  colour escapes (what a terminal shows).
- `paths.dfy` models `filepath.Split` and `filepath.Join`.
- `format.dfy` holds the pure half of `beforePrint` and `printLog`: the
  colour table, the line ends, the location tag, and the layout of the file
  line and the console line.
- `filesystem.dfy` is an abstract operating system. Files are a
  `map<string, string>` and directories a set of paths. A regular file on
  the way to a path makes the system answer ENOTDIR (as on Unix), opening a
  directory answers EISDIR, and a file can only be created in a known directory. An
  open file is a `Handle(path, append)`; a nil `*os.File` is `None`. The
  console is a `seq<string>`. Standard error is a sequence of diagnostics:
  the output of Go's `log` package and the runtime's panic report. `exited`
  records a `log.Fatal` or a panic. The environment decides which system
  calls fail, through a set of faults keyed by path. Class `Os` applies each
  call.
- `log_spec.dfy` specifies each logger operation as a function of that state,
  with lemmas for what the source promises.
- `simple_logger.dfy` holds the `Mylogs` class, the `Package` class (the
  package variable `Logger`) and `NewMylogs`. Their methods update the state
  step by step. Each method is proved equal to its specification function;
  the two constructors state the fields they set.

The model follows the code as written. Several points differ from what the
logger's documentation and a first reading suggest:

- The full-size branch reopens the log with `O_TRUNC` (line 172) before
  `backLog` reads it (line 149). So the backup file gets none of the old
  content. The log ends empty whatever `ClearOrBack` is, even when it is
  neither `'c'` nor `'b'`.
- The error of that reopen is not checked. If it fails, `'c'` exits on the
  nil handle. `'b'` exits on the backup file's open error, or else on the nil
  handle after opening the backup file (creating it empty if it was absent).
  Any other policy carries on with a nil handle, and every later save then
  fails.
- The file line begins with the timestamp and the location tag, then
  `" [status] "`. With both off it starts with a space: `" [INFO] hello\n"`.
  The console line has the same leading space and always contains the reset
  escape, even with colour off.
- `getSaveFileHandler` treats every `os.Stat` error other than "does not
  exist" as if the file existed, and asks the nil `fileInfo` for its size
  (line 170). This happens when a regular file stands where the save
  directory should be: `createLogsDir` sees something at the path and does
  nothing, `os.Stat` of the log file answers ENOTDIR on Unix, and the process
  panics.
- `runtime.Caller(1)` inside `beforePrint` reports the level method's own call
  (for example line 264 for `Info`), not the application's call site. The
  model takes that frame as a parameter, so it stays true to either reading.

## Model

| member | source | states |
|---|---|---|
| `Text.SplitOn` | SimpleLogger.go:227-232 | `strings.Split` on one character gives at least one piece, at least two exactly when the separator occurs, and no piece holds the separator |
| `Text.JoinSplitOn` | SimpleLogger.go:228 | joining the pieces of `strings.Split` with the separator gives the string back |
| `Text.SplitOnAt` | SimpleLogger.go:228-229 | splitting around one occurrence of the separator concatenates the pieces of both sides, which places the parent directory second to last |
| `Text.ValueOfDecimal` | SimpleLogger.go:219 | the `%d` rendering of a line number reads back as that number |
| `Text.DecimalInjective` | SimpleLogger.go:219 | distinct line numbers have distinct `%d` numerals |
| `Text.StripSgrHead` | SimpleLogger.go:17-33 | a colour escape at the head of console text is invisible |
| `Text.StripSgrPlain` | SimpleLogger.go:282 | text without ESC is shown unchanged |
| `Paths.SplitPath` | SimpleLogger.go:226 | `filepath.Split` cuts the path into a directory part (empty or ending in a separator) and a file name without separators that concatenate to the path |
| `Paths.SplitPathOf` | SimpleLogger.go:226 | that cut is unique |
| `Paths.JoinThenSplit` | SimpleLogger.go:93-94 | the last element passed to `filepath.Join` is the file name `filepath.Split` returns |
| `Format.PaletteIsRendition` | SimpleLogger.go:16-33 | reset, red, green, yellow and blue of `MlColors` are single rendition escapes |
| `Format.LineEnds` | SimpleLogger.go:201-209 | a full print ends the line with a newline and starts with nothing; a redraw starts with a carriage return and ends with nothing |
| `Format.FileLine` | SimpleLogger.go:269 | the file line is timestamp, location tag, `" [status] "`, data and a newline, and ends in a newline; `Format.ConsoleShowsFileLine` relates it to the console text |
| `Format.ConsoleLine` | SimpleLogger.go:282 | the console text starts with the line-start characters, ends with the line-end characters and carries the reset escape right after the `[status]` tag, even when the colour is blanked |
| `Format.CodeLine` | SimpleLogger.go:211-237 | the location lookup fails exactly in modes 1 and 2 without a caller frame |
| `Format.LocationTagModes` | SimpleLogger.go:213-219 | mode 2 gives the whole path, a colon and the line between bars, and every mode other than 1 and 2 gives the empty tag |
| `Format.LocationTagOfSlashPath` | SimpleLogger.go:220-234 | mode 1 on `prefix + parent/name`, with the prefix empty or ending in "/", gives `parent/name:line` between bars on both platforms |
| `Format.LocationTagOfBackslashPath` | SimpleLogger.go:230-234 | on Windows a directory part with only backslashes also gives its last directory as the parent |
| `Format.LocationTagDeterminesLine` | SimpleLogger.go:219-234 | in modes 1 and 2, two frames of one file give the same location tag only on the same line |
| `Format.ParentName` | SimpleLogger.go:227-233 | the parent name holds no "/" when the directory part has one, no backslash when it has only backslashes, and is the directory part unchanged when it has neither |
| `Format.ParentOfSlashDir` | SimpleLogger.go:227-229 | the parent name of `prefix + parent/`, with the prefix empty or ending in "/", is `parent`: this covers `root/parent/`, a one-level `utils/` and the root `/` |
| `Format.ParentOfBackslashDir` | SimpleLogger.go:230-232 | with no "/" in it, the parent name of `prefix + parent\`, with the prefix empty or ending in a backslash, is `parent`, taken from the split on backslashes |
| `Format.LocationTagOfBareName` | SimpleLogger.go:226-234 | mode 1 on a bare file name leaves the parent empty, giving `/name:line` between bars |
| `Format.StripReset` | SimpleLogger.go:282 | the reset escape printed after the tag is invisible |
| `Format.StripRendition` | SimpleLogger.go:192-194 | a status colour, blanked or not, is invisible |
| `Format.ConsoleShown` | SimpleLogger.go:282 | with escapes removed the console text is start, timestamp, location, `" [status] "`, data, end |
| `Format.ConsoleShowsFileLine` | SimpleLogger.go:201-209 | without escapes a full-line print shows exactly the file line, and a redraw shows `"\r"` and the file line without its newline |
| `LogSpec.AbsentLogIsCreated` | SimpleLogger.go:162-168 | an absent log file in an existing directory is created empty and opened for appending |
| `LogSpec.AbsentDirRefusesLog` | SimpleLogger.go:162-168 | an absent log file whose directory does not exist cannot be created, and the process exits with "does not exist" |
| `LogSpec.StatFailurePanics` | SimpleLogger.go:162-170 | when a directory on the way to the log file is a regular file, `os.Stat` fails with another error than absence and the size lookup on the nil `fileInfo` panics, with no file changed and no handle |
| `LogSpec.SmallLogIsKept` | SimpleLogger.go:179-184 | a log file below `MaxSize` keeps its content and is opened for appending |
| `LogSpec.FullLogEndsEmpty` | SimpleLogger.go:170-177 | a log file at or above `MaxSize` ends empty whatever `ClearOrBack` is, even when rotation then exits, and the logger holds the reopened handle, without `O_APPEND` |
| `LogSpec.BackupReceivesNothing` | SimpleLogger.go:142-159 | backing up changes no file but the log, keeps the backup file's earlier content, adds at most the backup file and creates it when it can be opened |
| `LogSpec.UnknownPolicyStillEmpties` | SimpleLogger.go:170-178 | with a policy other than `'c'` and `'b'` a full log is still emptied and held through a handle without `O_APPEND` |
| `LogSpec.FailedReopenLeavesNilHandle` | SimpleLogger.go:172 | a failed truncating reopen is ignored, leaving a nil handle on which every save fails |
| `LogSpec.SmallLogGrowsByOneLine` | SimpleLogger.go:180 | after opening a log below `MaxSize`, a successful print appends the file line to the old content |
| `LogSpec.DefaultConfig` | SimpleLogger.go:92-106 | the default configuration prints full lines with time, colour and the whole path, saves to `current.log` inside `logs` under the executable's directory, rotates at 5242880 bytes by clearing, and does not wait |
| `LogSpec.BackupNamedByTime` | SimpleLogger.go:142 | the backup file is `<time>.log` directly in the save directory |
| `LogSpec.DefaultLogInSaveDir` | SimpleLogger.go:93-94 | the default log file is `current.log` directly inside the default save directory |
| `LogSpec.CreateLogsDirSettles` | SimpleLogger.go:119-126 | once `createLogsDir` succeeds, `os.Stat` no longer reports the save path absent, and a second run changes nothing |
| `LogSpec.DefaultInitOnEmptyDisk` | SimpleLogger.go:92-116 | on an empty disk the default setup makes `logs` and an empty `logs/current.log` open for appending |
| `LogSpec.DefaultInitOverRegularFilePanics` | SimpleLogger.go:113-114 | when a regular file stands at the default save path, no directory is made and initialisation panics at line 170, with no file changed |
| `LogSpec.UnknownCallerPrintsNothing` | SimpleLogger.go:214-225 | when modes 1 and 2 cannot find the caller, files and console are untouched and one diagnostic is logged |
| `LogSpec.UnsavedPrintGoesToConsole` | SimpleLogger.go:268 | with saving off, only the console gains one text |
| `LogSpec.PrintLogSpec` | SimpleLogger.go:267-283 | a print adds to the console either nothing or exactly its console text |
| `LogSpec.FailedWriteSkipsConsole` | SimpleLogger.go:269-273 | a failed write (or a nil handle) changes neither files nor console and appends one diagnostic carrying the write error (`ErrInvalid` for a nil handle) |
| `LogSpec.FailedSyncSkipsConsole` | SimpleLogger.go:274-278 | a failed sync keeps the written line in the file, appends one diagnostic carrying the sync error and prints nothing |
| `LogSpec.SavedPrintWritesBoth` | SimpleLogger.go:267-283 | a successful print appends exactly one file line, changes no other file and adds exactly one console text |
| `LogSpec.PlainInfoLine` | SimpleLogger.go:263-265 | with timestamp, colour and location off, `Info("hello")` writes `" [INFO] hello\n"` and prints `" [INFO]"`, the reset escape and `" hello\n"` |
| `LogSpec.RedrawShowsFileLine` | SimpleLogger.go:201-209 | in redraw mode each console text starts with a carriage return and shows the file line without its newline |
| `SimpleLogger.Package.constructor` | SimpleLogger.go:15 | `Logger` starts nil |
| `SimpleLogger.Mylogs.constructor` | SimpleLogger.go:108-111 | a new logger has the given configuration and colours and no open file |
| `SimpleLogger.Mylogs.CreateLogsDir` | SimpleLogger.go:119-126 | equals `CreateLogsDirSpec`: the save directory is made when `os.Stat` reports its path absent, other Stat errors are ignored, and a failure exits |
| `SimpleLogger.Mylogs.ClearLog` | SimpleLogger.go:128-133 | equals `ClearLogSpec`: the log file is truncated through the handle, and a failure (a nil handle included) exits |
| `SimpleLogger.Mylogs.BackLog` | SimpleLogger.go:135-160 | equals `BackLogSpec`: backup open, read, write and clear happen in order, and the first failure exits |
| `SimpleLogger.Mylogs.GetSaveFileHandler` | SimpleLogger.go:161-188 | equals `SaveFileSpec`: the file state, the handle and the exit status are those of the open-or-rotate decision, including the panic on a nil `fileInfo` |
| `SimpleLogger.Mylogs.PrintLog` | SimpleLogger.go:267-283 | equals `PrintLogSpec`: file write, then sync, then console, returning early with a diagnostic on failure |
| `SimpleLogger.Mylogs.BeforePrint` | SimpleLogger.go:190-241 | equals `BeforePrintSpec`: colour blanking, timestamp, line ends and location tag are worked out, then the line is printed or the call gives up |
| `SimpleLogger.Mylogs.Run` | SimpleLogger.go:243-245 | equals `BeforePrintSpec` with status `"RUN"` in blue |
| `SimpleLogger.Mylogs.Success` | SimpleLogger.go:247-249 | equals `BeforePrintSpec` with status `"+"` in green |
| `SimpleLogger.Mylogs.Faild` | SimpleLogger.go:251-253 | equals `BeforePrintSpec` with status `"-"` in yellow |
| `SimpleLogger.Mylogs.Warrning` | SimpleLogger.go:255-257 | equals `BeforePrintSpec` with status `"!"` in yellow |
| `SimpleLogger.Mylogs.Error` | SimpleLogger.go:259-261 | equals `BeforePrintSpec` with status `"ERR"` in red |
| `SimpleLogger.Mylogs.Info` | SimpleLogger.go:263-265 | equals `BeforePrintSpec` with status `"INFO"` in blue |
| `SimpleLogger.NewMylogs` | SimpleLogger.go:87-117 | follows `InitSpec`: once `Logger` is set, returns it and changes nothing; otherwise stores a default-configured logger in `Logger`, makes the directory and opens or rotates the file; the console, the faults and the platform never change |

## Left out

- `time.Now` formatting: the formatted time is the parameter `now`, used for the timestamp and for the backup file name.
- `time.Sleep(WaitTime)` before each print: it has no effect on the modelled state.
- `runtime.Caller` stack introspection: the frame it reports is the parameter `caller`.
- `getCurrDir` and `os.Executable`: the executable's directory is the parameter `exeDir`, so the fallback that returns the error text as a directory is not modelled.
- `filepath.Join` cleaning (`..`, repeated separators), Windows volume names in `filepath.Split`, and Windows' rewriting of `/` to `\`.
- Go's `%v` and `%s` formatting of arbitrary values: the logged data is a string.
- Bytes versus characters: each character of a file stands for one byte, so multi-byte UTF-8 text is not modelled.
- `os.Stat` errors other than ENOTDIR and "does not exist" (permissions, I/O errors): they would take the same panic path at line 170 as ENOTDIR.
- The parent directories `os.MkdirAll` also creates are not added to the set of directories; a file is creatable when the directory part, without its last separator, is a known directory, empty or the root, so paths are taken as clean.
- Windows' own error codes: the file-system error paths follow Unix (ENOTDIR under a regular file), so the panic lemmas `StatFailurePanics` and `DefaultInitOverRegularFilePanics` are stated for Unix only.
- The size `os.Stat` reports for a directory depends on the file system; it is modelled as 0.
- File offsets: a handle writes at the end of its file and reads from its start. This matches the one read (line 149, on a handle just opened) and the writes of the only writer.
- Closing handles (lines 147 and 171): closing changes nothing the model observes.
- Errors of `fmt.Printf`: the source ignores them, and the console write never fails here.
- Process exit on `log.Fatal` and on a panic: both set `exited`, and every logger method requires a process that has not exited.
- The ANSI colour table is a constant. Its escapes are kept as in the source, but their meaning on a terminal is not modelled beyond stripping them.
- Concurrency: the source has none and the model adds none.
