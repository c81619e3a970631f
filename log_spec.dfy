/**
 * The logger's configuration and a specification, as functions, of what each
 * of its operations does to the abstract process state; the lemmas state the
 * promises of SimpleLogger.go about opening, rotating and writing the log.
 */
module LogSpec {
  import opened Wrappers
  import opened Text
  import opened Paths
  import opened Format
  import opened FileSystem

  /** MylogsConfigSaveFile: where the log goes and when it is rotated ('c' clears, 'b' backs up). */
  datatype MylogsConfigSaveFile = MylogsConfigSaveFile(
    filePath: string, savePath: string, maxSize: int, clearOrBack: char)

  /**
   * MylogsConfig. isPrintCodeLine 1 prints "parent/file:line", 2 prints
   * "path:line", anything else prints no location; waitTime is the delay in
   * seconds before each print.
   */
  datatype MylogsConfig = MylogsConfig(
    isFullPrint: bool, isTimePrint: bool, isColorPrint: bool, isSaveFile: bool,
    isPrintCodeLine: int, waitTime: int, configSaveFile: MylogsConfigSaveFile)

  /** The default rotation threshold: 5 MiB. */
  const DefaultMaxSize: int := 5242880

  /** The configuration NewMylogs builds, relative to the executable's directory. */
  function DefaultConfig(exeDir: string, p: Platform): (cfg: MylogsConfig)
    ensures cfg.isFullPrint && cfg.isTimePrint && cfg.isColorPrint && cfg.isSaveFile
    ensures cfg.isPrintCodeLine == 2 && cfg.waitTime == 0
    ensures cfg.configSaveFile.savePath == Join(exeDir, "logs", p)
    ensures cfg.configSaveFile.filePath == Join(cfg.configSaveFile.savePath, "current.log", p)
    ensures cfg.configSaveFile.maxSize == DefaultMaxSize && cfg.configSaveFile.clearOrBack == 'c'
  {
    var logs := Join(exeDir, "logs", p);
    MylogsConfig(true, true, true, true, 2, 0,
                 MylogsConfigSaveFile(Join(logs, "current.log", p), logs, DefaultMaxSize, 'c'))
  }

  /**
   * The file system and the logger's handle after a setup step; `exit` is the
   * last report before the process ends (log.Fatal's or a panic's), if it ends.
   */
  datatype Setup = Setup(files: Files, handle: Option<Handle>, exit: Option<Diag>)

  /** log.Fatal(err) if there is an error. */
  function Fatally(err: Option<OsError>): (exit: Option<Diag>)
    ensures exit.Some? <==> err.Some?
  {
    if err.Some? then Some(Diag.Fatal(err.value)) else None
  }

  /** What the exit report adds to standard error, if the process ends. */
  function ExitLog(exit: Option<Diag>): (log: seq<Diag>)
    ensures |log| <= 1
  {
    if exit.Some? then [exit.value] else []
  }

  // ---------------------------------------------------------------------
  // Initialisation: createLogsDir, clearLog, backLog, getSaveFileHandler.
  // ---------------------------------------------------------------------

  /**
   * createLogsDir: make the save directory when os.Stat says nothing is at
   * its path; any other Stat error is ignored.
   */
  function CreateLogsDirSpec(files: Files, dirs: set<string>, faults: set<Fault>, savePath: string,
                             p: Platform): (r: (set<string>, Option<Diag>))
    ensures dirs <= r.0
  {
    if StatOutcome(files, dirs, savePath, p).err == Some(ErrNotExist) then
      var (dirs', err) := MkdirAllOutcome(files, dirs, faults, savePath, p);
      (dirs', Fatally(err))
    else (dirs, None)
  }

  /** clearLog: truncate the file behind the handle to zero bytes. */
  function ClearLogSpec(files: Files, faults: set<Fault>, h: Option<Handle>): (r: Setup)
    ensures r.handle == h
  {
    var t := TruncateOutcome(files, faults, h);
    Setup(t.files, h, Fatally(t.err))
  }

  /** The backup file: `<savePath>/<now>.log`. */
  function BackupPath(c: MylogsConfigSaveFile, now: string, p: Platform): (path: string) {
    Join(c.savePath, now + ".log", p)
  }

  /**
   * The backup file is named after the time and sits directly in the save
   * directory: Split gives back `<now>.log` as its file name.
   */
  lemma BackupNamedByTime(c: MylogsConfigSaveFile, now: string, p: Platform)
    requires c.savePath != [] && NoSeparator(now + ".log", p)
    ensures SplitPath(BackupPath(c, now, p), p).1 == now + ".log"
    ensures |SplitPath(BackupPath(c, now, p), p).0| > 0
  {
    JoinThenSplit(c.savePath, now + ".log", p);
  }

  /**
   * backLog: open the backup file for appending (creating it), copy into it
   * what the logger's handle yields, then clear the log file.
   */
  function BackLogSpec(c: MylogsConfigSaveFile, files: Files, dirs: set<string>, faults: set<Fault>,
                       h: Option<Handle>, now: string, p: Platform): (r: Setup)
    ensures r.handle == h
  {
    var bak := OpenFileOutcome(files, dirs, faults, BackupPath(c, now, p), Flags(true, true, false), p);
    if bak.err.Some? then Setup(bak.files, h, Fatally(bak.err))
    else
      var read := ReadAllOutcome(bak.files, h);
      if read.err.Some? then Setup(bak.files, h, Fatally(read.err))
      else
        var w := WriteOutcome(bak.files, faults, bak.handle, read.data);
        if w.err.Some? then Setup(w.files, h, Fatally(w.err))
        else ClearLogSpec(w.files, faults, h)
  }

  /**
   * getSaveFileHandler: an absent log file is created and opened for
   * appending; any other Stat error leaves no file information, and asking
   * it for the size panics; a file below maxSize is opened for appending;
   * one at or above it is reopened with O_TRUNC (an error there is ignored)
   * and then cleared or backed up according to clearOrBack.
   */
  function SaveFileSpec(c: MylogsConfigSaveFile, files: Files, dirs: set<string>,
                        faults: set<Fault>, now: string, p: Platform): (r: Setup)
  {
    var path := c.filePath;
    var info := StatOutcome(files, dirs, path, p);
    if info.err == Some(ErrNotExist) then
      var o := OpenFileOutcome(files, dirs, faults, path, Flags(true, true, false), p);
      Setup(o.files, o.handle, Fatally(o.err))
    else if info.size.None? then Setup(files, None, Some(NilDereference))
    else if info.size.value >= c.maxSize then
      var o := OpenFileOutcome(files, dirs, faults, path, Flags(false, false, true), p);
      if c.clearOrBack == 'c' then ClearLogSpec(o.files, faults, o.handle)
      else if c.clearOrBack == 'b' then BackLogSpec(c, o.files, dirs, faults, o.handle, now, p)
      else Setup(o.files, o.handle, None)
    else
      var o := OpenFileOutcome(files, dirs, faults, path, Flags(true, true, false), p);
      Setup(o.files, o.handle, Fatally(o.err))
  }

  /** The directories and the setup after createLogsDir and getSaveFileHandler. */
  datatype Init = Init(dirs: set<string>, setup: Setup)

  function InitSpec(c: MylogsConfigSaveFile, files: Files, dirs: set<string>,
                    faults: set<Fault>, now: string, p: Platform): (r: Init)
  {
    var (dirs', exit) := CreateLogsDirSpec(files, dirs, faults, c.savePath, p);
    if exit.Some? then Init(dirs', Setup(files, None, exit))
    else Init(dirs', SaveFileSpec(c, files, dirs', faults, now, p))
  }

  // ---------------------------------------------------------------------
  // Printing: printLog and beforePrint.
  // ---------------------------------------------------------------------

  /**
   * printLog: with saving on, write the file line and sync, giving up (with a
   * diagnostic) on the first failure; then print the console text.
   */
  function PrintLogSpec(isSaveFile: bool, h: Option<Handle>, faults: set<Fault>, s: Sinks,
                        codeLine: string, status: string, color: string, time: string,
                        start: string, end: string, data: string): (r: Sinks)
    ensures r.console == s.console
         || r.console == s.console + [ConsoleLine(start, time, codeLine, color, status, data, end)]
  {
    var shown := s.console + [ConsoleLine(start, time, codeLine, color, status, data, end)];
    if !isSaveFile then s.(console := shown)
    else
      var w := WriteOutcome(s.files, faults, h, FileLine(time, codeLine, status, data));
      if w.err.Some? then s.(syslog := s.syslog + [WriteFailed(w.err.value)])
      else
        match SyncOutcome(faults, h)
        case Some(e) => s.(files := w.files, syslog := s.syslog + [WriteFailed(e)])
        case None => s.(files := w.files, console := shown)
  }

  /**
   * beforePrint: blank the colour if colour is off, take the timestamp if it
   * is on, choose the line ends, build the location tag (giving up with a
   * diagnostic if the caller is unknown), then printLog.
   */
  function BeforePrintSpec(cfg: MylogsConfig, h: Option<Handle>, faults: set<Fault>, p: Platform,
                           s: Sinks, status: string, statusColor: string, data: string,
                           now: string, caller: Option<Frame>): (r: Sinks)
  {
    var color := if cfg.isColorPrint then statusColor else "";
    var time := if cfg.isTimePrint then now else "";
    var (start, end) := LineEnds(cfg.isFullPrint);
    match CodeLine(cfg.isPrintCodeLine, caller, p)
    case None => s.(syslog := s.syslog + [CallerUnknown])
    case Some(codeLine) => PrintLogSpec(cfg.isSaveFile, h, faults, s, codeLine, status, color, time, start, end, data)
  }

  // ---------------------------------------------------------------------
  // Opening and rotating the log file.
  // ---------------------------------------------------------------------

  /** An absent log file in an existing directory is created empty and opened for appending. */
  lemma AbsentLogIsCreated(c: MylogsConfigSaveFile, files: Files, dirs: set<string>,
                           faults: set<Fault>, now: string, p: Platform)
    requires c.filePath !in files && c.filePath !in dirs && !UnderFile(files, c.filePath, p)
    requires InExistingDir(dirs, c.filePath, p) && OpenFault(c.filePath) !in faults
    ensures SaveFileSpec(c, files, dirs, faults, now, p)
         == Setup(files[c.filePath := ""], Some(Handle(c.filePath, true)), None)
  {
  }

  /** An absent log file whose directory does not exist cannot be created, and the process exits. */
  lemma AbsentDirRefusesLog(c: MylogsConfigSaveFile, files: Files, dirs: set<string>,
                            faults: set<Fault>, now: string, p: Platform)
    requires c.filePath !in files && c.filePath !in dirs && !UnderFile(files, c.filePath, p)
    requires !InExistingDir(dirs, c.filePath, p) && OpenFault(c.filePath) !in faults
    ensures SaveFileSpec(c, files, dirs, faults, now, p)
         == Setup(files, None, Some(Diag.Fatal(ErrNotExist)))
  {
  }

  /**
   * When os.Stat fails for another reason than absence (a directory on the
   * way is a regular file), fileInfo is nil and asking it for the size panics.
   */
  lemma StatFailurePanics(c: MylogsConfigSaveFile, files: Files, dirs: set<string>,
                          faults: set<Fault>, now: string, p: Platform, dir: string)
    requires p == Unix
    requires dir in files && Beneath(dir, c.filePath, p)
    ensures SaveFileSpec(c, files, dirs, faults, now, p) == Setup(files, None, Some(NilDereference))
  {
    assert UnderFile(files, c.filePath, p);
  }

  /** A log file below maxSize keeps its content and is opened for appending. */
  lemma SmallLogIsKept(c: MylogsConfigSaveFile, files: Files, dirs: set<string>,
                       faults: set<Fault>, now: string, p: Platform)
    requires RegularFile(files, dirs, c.filePath, p) && |files[c.filePath]| < c.maxSize
    requires OpenFault(c.filePath) !in faults
    ensures SaveFileSpec(c, files, dirs, faults, now, p)
         == Setup(files, Some(Handle(c.filePath, true)), None)
  {
    var path := c.filePath;
    assert files[path := Content(files, path)] == files;
  }

  /** The backup file can be opened: a reachable non-directory path, in an existing directory if absent. */
  predicate BackupOpens(files: Files, dirs: set<string>, faults: set<Fault>, bak: string, p: Platform) {
    && OpenFault(bak) !in faults && bak !in dirs && !UnderFile(files, bak, p)
    && (bak in files || InExistingDir(dirs, bak, p))
  }

  /**
   * Backing up an emptied log through its handle: the log stays empty, no
   * other file changes its content, and only the backup file may appear.
   */
  lemma BackLogOfEmptyLog(c: MylogsConfigSaveFile, files: Files, dirs: set<string>,
                          faults: set<Fault>, path: string, now: string, p: Platform)
    requires path in files && files[path] == ""
    ensures var r := BackLogSpec(c, files, dirs, faults, Some(Handle(path, false)), now, p);
            var bak := BackupPath(c, now, p);
            && path in r.files && r.files[path] == ""
            && r.files.Keys <= files.Keys + {bak}
            && (forall q :: q != path ==> Content(r.files, q) == Content(files, q))
            && (BackupOpens(files, dirs, faults, bak, p) ==> bak in r.files)
  {
    var h := Some(Handle(path, false));
    var b := BackupPath(c, now, p);
    var bak := OpenFileOutcome(files, dirs, faults, b, Flags(true, true, false), p);
    if bak.err.None? {
      var read := ReadAllOutcome(bak.files, h);
      assert read.data == "";
      var w := WriteOutcome(bak.files, faults, bak.handle, read.data);
      assert forall q :: Content(w.files, q) == Content(bak.files, q);
    }
  }

  /**
   * A log file at or above maxSize ends empty whatever clearOrBack is, and
   * whether or not the process then exits: the O_TRUNC reopen empties it.
   * The logger then holds that reopened handle, without O_APPEND.
   */
  lemma FullLogEndsEmpty(c: MylogsConfigSaveFile, files: Files, dirs: set<string>,
                         faults: set<Fault>, now: string, p: Platform)
    requires RegularFile(files, dirs, c.filePath, p) && |files[c.filePath]| >= c.maxSize
    requires OpenFault(c.filePath) !in faults
    ensures var r := SaveFileSpec(c, files, dirs, faults, now, p);
            && c.filePath in r.files && r.files[c.filePath] == ""
            && r.handle == Some(Handle(c.filePath, false))
  {
    var path := c.filePath;
    var o := OpenFileOutcome(files, dirs, faults, path, Flags(false, false, true), p);
    assert o.files == files[path := ""] && o.handle == Some(Handle(path, false));
    if c.clearOrBack == 'b' {
      BackLogOfEmptyLog(c, o.files, dirs, faults, path, now, p);
    }
  }

  /**
   * Backing up a full log copies none of its old content: every file other
   * than the log keeps its content (the backup file's earlier content
   * included), and the only file that may appear is the backup file.
   */
  lemma BackupReceivesNothing(c: MylogsConfigSaveFile, files: Files, dirs: set<string>,
                              faults: set<Fault>, now: string, p: Platform)
    requires c.clearOrBack == 'b'
    requires RegularFile(files, dirs, c.filePath, p) && |files[c.filePath]| >= c.maxSize
    requires OpenFault(c.filePath) !in faults
    ensures var r := SaveFileSpec(c, files, dirs, faults, now, p);
            var bak := BackupPath(c, now, p);
            && r.files.Keys <= files.Keys + {bak}
            && (forall q :: q != c.filePath ==> Content(r.files, q) == Content(files, q))
            && (BackupOpens(files, dirs, faults, bak, p) ==> bak in r.files)
  {
    var path := c.filePath;
    var b := BackupPath(c, now, p);
    var o := OpenFileOutcome(files, dirs, faults, path, Flags(false, false, true), p);
    assert o.files == files[path := ""] && o.handle == Some(Handle(path, false));
    assert o.files.Keys == files.Keys;
    if BackupOpens(files, dirs, faults, b, p) {
      assert !UnderFile(o.files, b, p);
    }
    BackLogOfEmptyLog(c, o.files, dirs, faults, path, now, p);
  }

  /** A full log with a policy other than 'c' and 'b' is still emptied, by the reopen alone. */
  lemma UnknownPolicyStillEmpties(c: MylogsConfigSaveFile, files: Files, dirs: set<string>,
                                  faults: set<Fault>, now: string, p: Platform)
    requires c.clearOrBack != 'c' && c.clearOrBack != 'b'
    requires RegularFile(files, dirs, c.filePath, p) && |files[c.filePath]| >= c.maxSize
    requires OpenFault(c.filePath) !in faults
    ensures SaveFileSpec(c, files, dirs, faults, now, p)
         == Setup(files[c.filePath := ""], Some(Handle(c.filePath, false)), None)
  {
  }

  /**
   * When the O_TRUNC reopen fails its error is ignored: with a policy other
   * than 'c' and 'b' the logger goes on with a nil handle, and every later
   * save fails without printing anything.
   */
  lemma FailedReopenLeavesNilHandle(c: MylogsConfigSaveFile, files: Files, dirs: set<string>,
                                    faults: set<Fault>, now: string, p: Platform, s: Sinks,
                                    codeLine: string, status: string, color: string,
                                    time: string, start: string, end: string, data: string)
    requires c.clearOrBack != 'c' && c.clearOrBack != 'b'
    requires RegularFile(files, dirs, c.filePath, p) && |files[c.filePath]| >= c.maxSize
    requires OpenFault(c.filePath) in faults
    ensures var r := SaveFileSpec(c, files, dirs, faults, now, p);
            && r == Setup(files, None, None)
            && PrintLogSpec(true, r.handle, faults, s, codeLine, status, color, time, start, end, data)
               == s.(syslog := s.syslog + [WriteFailed(ErrInvalid)])
  {
  }

  /**
   * After opening a log file below maxSize, a successful print appends the
   * file line to its old content.
   */
  lemma SmallLogGrowsByOneLine(c: MylogsConfigSaveFile, files: Files, dirs: set<string>,
                               faults: set<Fault>, now: string, p: Platform,
                               console: seq<string>, syslog: seq<Diag>,
                               codeLine: string, status: string, color: string,
                               time: string, start: string, end: string, data: string)
    requires RegularFile(files, dirs, c.filePath, p) && |files[c.filePath]| < c.maxSize
    requires OpenFault(c.filePath) !in faults && WriteFault(c.filePath) !in faults
    requires SyncFault(c.filePath) !in faults
    ensures var r := SaveFileSpec(c, files, dirs, faults, now, p);
            var s := PrintLogSpec(true, r.handle, faults, Sinks(r.files, console, syslog),
                                  codeLine, status, color, time, start, end, data);
            s.files == files[c.filePath := files[c.filePath] + FileLine(time, codeLine, status, data)]
  {
    SmallLogIsKept(c, files, dirs, faults, now, p);
  }

  // ---------------------------------------------------------------------
  // Initialisation as a whole.
  // ---------------------------------------------------------------------

  /** The default log file sits directly in the save directory. */
  lemma DefaultLogInSaveDir(exeDir: string, p: Platform)
    ensures var c := DefaultConfig(exeDir, p).configSaveFile;
            && c.filePath == c.savePath + [Separator(p)] + "current.log"
            && SplitPath(c.filePath, p).0 == c.savePath + [Separator(p)]
            && Beneath(c.savePath, c.filePath, p)
  {
    var c := DefaultConfig(exeDir, p).configSaveFile;
    var logs := c.savePath;
    assert logs[|logs| - 1] == 's';
    assert c.filePath == (logs + [Separator(p)]) + "current.log";
    SplitPathOf(logs + [Separator(p)], "current.log", p);
    assert c.filePath[..|logs|] == logs;
  }

  /**
   * After createLogsDir succeeds, os.Stat no longer reports the save path as
   * absent, and running it again changes nothing.
   */
  lemma CreateLogsDirSettles(files: Files, dirs: set<string>, faults: set<Fault>, savePath: string,
                             p: Platform)
    ensures var (dirs', exit) := CreateLogsDirSpec(files, dirs, faults, savePath, p);
            exit.None? ==>
              && StatOutcome(files, dirs', savePath, p).err != Some(ErrNotExist)
              && CreateLogsDirSpec(files, dirs', faults, savePath, p) == (dirs', None)
  {
  }

  /** On an empty file system the default configuration makes logs/ and an empty logs/current.log. */
  lemma DefaultInitOnEmptyDisk(exeDir: string, now: string, p: Platform)
    ensures var c := DefaultConfig(exeDir, p).configSaveFile;
            InitSpec(c, map[], {}, {}, now, p)
              == Init({c.savePath}, Setup(map[c.filePath := ""], Some(Handle(c.filePath, true)), None))
  {
    var c := DefaultConfig(exeDir, p).configSaveFile;
    DefaultLogInSaveDir(exeDir, p);
    assert InExistingDir({c.savePath}, c.filePath, p);
    assert |c.filePath| > |c.savePath|;
  }

  /**
   * When a regular file stands where the default save directory should be,
   * createLogsDir does nothing, os.Stat of the log file fails with ENOTDIR,
   * and getSaveFileHandler panics asking the nil fileInfo for its size.
   */
  lemma DefaultInitOverRegularFilePanics(exeDir: string, files: Files, dirs: set<string>,
                                         faults: set<Fault>, now: string, p: Platform)
    requires p == Unix
    requires DefaultConfig(exeDir, p).configSaveFile.savePath in files
    ensures var c := DefaultConfig(exeDir, p).configSaveFile;
            InitSpec(c, files, dirs, faults, now, p) == Init(dirs, Setup(files, None, Some(NilDereference)))
  {
    var c := DefaultConfig(exeDir, p).configSaveFile;
    DefaultLogInSaveDir(exeDir, p);
    StatFailurePanics(c, files, dirs, faults, now, p, c.savePath);
  }

  // ---------------------------------------------------------------------
  // Printing.
  // ---------------------------------------------------------------------

  /** When modes 1 and 2 cannot find the caller, neither the file nor the console is written. */
  lemma UnknownCallerPrintsNothing(cfg: MylogsConfig, h: Option<Handle>, faults: set<Fault>,
                                   p: Platform, s: Sinks, status: string, color: string,
                                   data: string, now: string)
    requires cfg.isPrintCodeLine == 1 || cfg.isPrintCodeLine == 2
    ensures BeforePrintSpec(cfg, h, faults, p, s, status, color, data, now, None)
         == s.(syslog := s.syslog + [CallerUnknown])
  {
  }

  /** With saving off only the console is written, one text per call. */
  lemma UnsavedPrintGoesToConsole(h: Option<Handle>, faults: set<Fault>, s: Sinks,
                                  codeLine: string, status: string, color: string,
                                  time: string, start: string, end: string, data: string)
    ensures var r := PrintLogSpec(false, h, faults, s, codeLine, status, color, time, start, end, data);
            r.files == s.files && r.syslog == s.syslog
            && r.console == s.console + [ConsoleLine(start, time, codeLine, color, status, data, end)]
  {
  }

  /** A failed write leaves the files and the console as they were and logs the write error. */
  lemma FailedWriteSkipsConsole(h: Option<Handle>, faults: set<Fault>, s: Sinks,
                                codeLine: string, status: string, color: string,
                                time: string, start: string, end: string, data: string)
    requires h.None? || WriteFault(h.value.path) in faults
    ensures var r := PrintLogSpec(true, h, faults, s, codeLine, status, color, time, start, end, data);
            && r.files == s.files && r.console == s.console
            && r.syslog == s.syslog + [WriteFailed(if h.None? then ErrInvalid else ErrRefused(WriteFault(h.value.path)))]
  {
  }

  /**
   * A failed sync keeps the written line in the file, logs the sync error and
   * prints nothing on the console.
   */
  lemma FailedSyncSkipsConsole(f: Handle, faults: set<Fault>, s: Sinks,
                               codeLine: string, status: string, color: string,
                               time: string, start: string, end: string, data: string)
    requires WriteFault(f.path) !in faults && SyncFault(f.path) in faults
    ensures var r := PrintLogSpec(true, Some(f), faults, s, codeLine, status, color, time, start, end, data);
            && r.files == s.files[f.path := Content(s.files, f.path) + FileLine(time, codeLine, status, data)]
            && r.console == s.console
            && r.syslog == s.syslog + [WriteFailed(ErrRefused(SyncFault(f.path)))]
  {
  }

  /**
   * A successful print adds exactly one line at the end of the log file,
   * changes no other file and adds exactly one text to the console.
   */
  lemma SavedPrintWritesBoth(f: Handle, faults: set<Fault>, s: Sinks,
                             codeLine: string, status: string, color: string,
                             time: string, start: string, end: string, data: string)
    requires WriteFault(f.path) !in faults && SyncFault(f.path) !in faults
    ensures var r := PrintLogSpec(true, Some(f), faults, s, codeLine, status, color, time, start, end, data);
            && Content(r.files, f.path) == Content(s.files, f.path) + FileLine(time, codeLine, status, data)
            && (forall q :: q != f.path ==> Content(r.files, q) == Content(s.files, q))
            && r.console == s.console + [ConsoleLine(start, time, codeLine, color, status, data, end)]
            && r.syslog == s.syslog
  {
  }

  /**
   * With timestamp, colour and location off, Info("hello") writes " [INFO] hello\n"
   * to the file (with a leading space) and prints the same with the reset
   * escape after the tag.
   */
  lemma PlainInfoLine(cfg: MylogsConfig, f: Handle, faults: set<Fault>, p: Platform, s: Sinks,
                      now: string, caller: Option<Frame>)
    requires cfg.isSaveFile && cfg.isFullPrint && !cfg.isTimePrint && !cfg.isColorPrint
    requires cfg.isPrintCodeLine != 1 && cfg.isPrintCodeLine != 2
    requires WriteFault(f.path) !in faults && SyncFault(f.path) !in faults
    ensures var r := BeforePrintSpec(cfg, Some(f), faults, p, s, "INFO", MlColors.blue, "hello", now, caller);
            && Content(r.files, f.path) == Content(s.files, f.path) + " [INFO] hello\n"
            && r.console == s.console + [" [INFO]" + MlColors.reset + " hello\n"]
  {
    assert ConsoleLine("", "", "", "", "INFO", "hello", "\n") == " [INFO]" + MlColors.reset + " hello\n";
    assert FileLine("", "", "INFO", "hello") == " [INFO] hello\n";
  }

  /**
   * In redraw mode every console text starts with a carriage return, and what
   * it shows is the file line without its newline.
   */
  lemma RedrawShowsFileLine(cfg: MylogsConfig, f: Handle, faults: set<Fault>, p: Platform, s: Sinks,
                            status: string, statusColor: string, data: string, now: string,
                            codeLine: string, caller: Option<Frame>)
    requires !cfg.isFullPrint
    requires CodeLine(cfg.isPrintCodeLine, caller, p) == Some(codeLine)
    requires !cfg.isSaveFile || (WriteFault(f.path) !in faults && SyncFault(f.path) !in faults)
    requires Esc !in now && Esc !in codeLine && Esc !in status && Esc !in data
    requires IsRendition(statusColor)
    ensures var r := BeforePrintSpec(cfg, Some(f), faults, p, s, status, statusColor, data, now, caller);
            var time := if cfg.isTimePrint then now else "";
            var line := FileLine(time, codeLine, status, data);
            && |r.console| == |s.console| + 1
            && r.console[|s.console|][0] == '\r'
            && StripSgr(r.console[|s.console|]) == "\r" + line[..|line| - 1]
  {
    var color := if cfg.isColorPrint then statusColor else "";
    var time := if cfg.isTimePrint then now else "";
    ConsoleShowsFileLine(false, time, codeLine, color, status, data);
  }
}
