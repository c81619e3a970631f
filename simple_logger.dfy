/**
 * The logger object of SimpleLogger.go and its operations, as methods that
 * update the abstract process state (`Os`) step by step, each proved to do
 * what the matching function of LogSpec says.
 */
module SimpleLogger {
  import opened Wrappers
  import opened Paths
  import opened Format
  import opened FileSystem
  import opened LogSpec

  /** The package-level variable `Logger`, nil until NewMylogs first runs. */
  class Package {
    var logger: Mylogs?

    constructor ()
      ensures logger == null
    {
      logger := null;
    }
  }

  /** Mylogs: the configuration, the colours and the open log file. */
  class Mylogs {
    var configs: MylogsConfig
    var colors: MylogColors
    var handle: Option<Handle>

    /** The struct literal `&Mylogs{Configs: ..., Colors: ...}`: no file is open yet. */
    constructor (configs: MylogsConfig, colors: MylogColors)
      ensures this.configs == configs && this.colors == colors && handle.None?
    {
      this.configs := configs;
      this.colors := colors;
      handle := None;
    }

    /**
     * createLogsDir: make the save directory if os.Stat says nothing is at its
     * path, exiting on failure.
     */
    method CreateLogsDir(os: Os)
      requires !os.exited
      modifies os`dirs, os`syslog, os`exited
      ensures var (dirs, exit) := CreateLogsDirSpec(os.files, old(os.dirs), os.faults,
                                                    configs.configSaveFile.savePath, os.platform);
              && os.dirs == dirs && os.exited == exit.Some?
              && os.syslog == old(os.syslog) + ExitLog(exit)
    {
      var info, err := os.Stat(configs.configSaveFile.savePath);
      if err == Some(ErrNotExist) {
        err := os.MkdirAll(configs.configSaveFile.savePath);
        if err.Some? {
          os.Fatal(err.value);
        }
      }
    }

    /** clearLog: truncate the log file to zero bytes, exiting on failure. */
    method ClearLog(os: Os)
      requires !os.exited
      modifies os`files, os`syslog, os`exited
      ensures var r := ClearLogSpec(old(os.files), os.faults, handle);
              && os.files == r.files && os.exited == r.exit.Some?
              && os.syslog == old(os.syslog) + ExitLog(r.exit)
    {
      var err := os.Truncate(handle);
      if err.Some? {
        os.Fatal(err.value);
      }
    }

    /**
     * backLog: append what the log handle yields to `<savePath>/<now>.log`,
     * then clear the log file; any failure exits. Closing the backup handle
     * changes nothing the model observes.
     */
    method BackLog(os: Os, now: string)
      requires !os.exited
      modifies os`files, os`syslog, os`exited
      ensures var r := BackLogSpec(configs.configSaveFile, old(os.files), os.dirs, os.faults, handle, now,
                                 os.platform);
              && os.files == r.files && os.exited == r.exit.Some?
              && os.syslog == old(os.syslog) + ExitLog(r.exit)
    {
      var pathLogBak := BackupPath(configs.configSaveFile, now, os.platform);
      var fileHandlerBak, err := os.OpenFile(pathLogBak, Flags(true, true, false));
      if err.Some? {
        os.Fatal(err.value);
        return;
      }
      var buf;
      buf, err := os.ReadAll(handle);
      if err.Some? {
        os.Fatal(err.value);
        return;
      }
      err := os.WriteString(fileHandlerBak, buf);
      if err.Some? {
        os.Fatal(err.value);
        return;
      }
      ClearLog(os);
    }

    /**
     * getSaveFileHandler: open the log file, creating it if absent, and rotate
     * it first when it has reached maxSize. A Stat error other than absence
     * leaves fileInfo nil, and its Size method then panics.
     */
    method GetSaveFileHandler(os: Os, now: string)
      requires !os.exited
      modifies this`handle, os`files, os`syslog, os`exited
      ensures var r := SaveFileSpec(configs.configSaveFile, old(os.files), os.dirs, os.faults, now, os.platform);
              && os.files == r.files && os.exited == r.exit.Some?
              && handle == (if r.exit == Some(NilDereference) then old(handle) else r.handle)
              && os.syslog == old(os.syslog) + ExitLog(r.exit)
    {
      var path := configs.configSaveFile.filePath;
      var fileInfo, err := os.Stat(path);
      if err == Some(ErrNotExist) {
        handle, err := os.OpenFile(path, Flags(true, true, false));
        if err.Some? {
          os.Fatal(err.value);
          return;
        }
      } else if fileInfo.None? {
        os.Panic();
      } else if fileInfo.value >= configs.configSaveFile.maxSize {
        // The old handle is closed first; closing changes nothing the model observes.
        handle, err := os.OpenFile(path, Flags(false, false, true));
        if configs.configSaveFile.clearOrBack == 'c' {
          ClearLog(os);
        } else if configs.configSaveFile.clearOrBack == 'b' {
          BackLog(os, now);
        }
      } else {
        handle, err := os.OpenFile(path, Flags(true, true, false));
        if err.Some? {
          os.Fatal(err.value);
        }
      }
    }

    /**
     * printLog: with saving on, write the file line and sync it, returning
     * after a diagnostic on the first failure; then print the console text.
     */
    method PrintLog(os: Os, codeLine: string, status: string, statusColor: string,
                    timeStr: string, startChar: string, endChar: string, data: string)
      requires !os.exited
      modifies os`files, os`console, os`syslog
      ensures os.Output() == PrintLogSpec(configs.isSaveFile, handle, os.faults, old(os.Output()),
                                          codeLine, status, statusColor, timeStr, startChar, endChar, data)
    {
      if configs.isSaveFile {
        var err := os.WriteString(handle, FileLine(timeStr, codeLine, status, data));
        if err.Some? {
          os.Println(WriteFailed(err.value));
          return;
        }
        err := os.Sync(handle);
        if err.Some? {
          os.Println(WriteFailed(err.value));
          return;
        }
      }
      os.Printf(ConsoleLine(startChar, timeStr, codeLine, statusColor, status, data, endChar));
    }

    /**
     * beforePrint: work out colour, timestamp, line ends and location tag,
     * then printLog. `now` is the formatted current time and `caller` what
     * runtime.Caller(1) reports; the WaitTime delay is not observable here.
     */
    method BeforePrint(os: Os, status: string, statusColor: string, data: string,
                       now: string, caller: Option<Frame>)
      requires !os.exited
      modifies os`files, os`console, os`syslog
      ensures os.Output() == BeforePrintSpec(configs, handle, os.faults, os.platform, old(os.Output()),
                                             status, statusColor, data, now, caller)
    {
      var color := statusColor;
      if !configs.isColorPrint {
        color := "";
      }
      var currTime := "";
      if configs.isTimePrint {
        currTime := now;
      }
      var (startChar, endChar) := LineEnds(configs.isFullPrint);
      match CodeLine(configs.isPrintCodeLine, caller, os.platform)
      case None =>
        os.Println(CallerUnknown);
      case Some(codeLine) =>
        PrintLog(os, codeLine, status, color, currTime, startChar, endChar, data);
    }

    /** Run: status "RUN" in blue. */
    method Run(os: Os, data: string, now: string, caller: Option<Frame>)
      requires !os.exited
      modifies os`files, os`console, os`syslog
      ensures os.Output() == BeforePrintSpec(configs, handle, os.faults, os.platform, old(os.Output()),
                                             "RUN", colors.blue, data, now, caller)
    {
      BeforePrint(os, "RUN", colors.blue, data, now, caller);
    }

    /** Success: status "+" in green. */
    method Success(os: Os, data: string, now: string, caller: Option<Frame>)
      requires !os.exited
      modifies os`files, os`console, os`syslog
      ensures os.Output() == BeforePrintSpec(configs, handle, os.faults, os.platform, old(os.Output()),
                                             "+", colors.green, data, now, caller)
    {
      BeforePrint(os, "+", colors.green, data, now, caller);
    }

    /** Faild: status "-" in yellow. */
    method Faild(os: Os, data: string, now: string, caller: Option<Frame>)
      requires !os.exited
      modifies os`files, os`console, os`syslog
      ensures os.Output() == BeforePrintSpec(configs, handle, os.faults, os.platform, old(os.Output()),
                                             "-", colors.yellow, data, now, caller)
    {
      BeforePrint(os, "-", colors.yellow, data, now, caller);
    }

    /** Warrning: status "!" in yellow. */
    method Warrning(os: Os, data: string, now: string, caller: Option<Frame>)
      requires !os.exited
      modifies os`files, os`console, os`syslog
      ensures os.Output() == BeforePrintSpec(configs, handle, os.faults, os.platform, old(os.Output()),
                                             "!", colors.yellow, data, now, caller)
    {
      BeforePrint(os, "!", colors.yellow, data, now, caller);
    }

    /** Error: status "ERR" in red. */
    method Error(os: Os, data: string, now: string, caller: Option<Frame>)
      requires !os.exited
      modifies os`files, os`console, os`syslog
      ensures os.Output() == BeforePrintSpec(configs, handle, os.faults, os.platform, old(os.Output()),
                                             "ERR", colors.red, data, now, caller)
    {
      BeforePrint(os, "ERR", colors.red, data, now, caller);
    }

    /** Info: status "INFO" in blue. */
    method Info(os: Os, data: string, now: string, caller: Option<Frame>)
      requires !os.exited
      modifies os`files, os`console, os`syslog
      ensures os.Output() == BeforePrintSpec(configs, handle, os.faults, os.platform, old(os.Output()),
                                             "INFO", colors.blue, data, now, caller)
    {
      BeforePrint(os, "INFO", colors.blue, data, now, caller);
    }
  }

  /**
   * NewMylogs: the existing logger, unchanged, once there is one; otherwise a
   * new one with the default configuration, stored in `Logger` before its
   * directory is made and its log file opened. `exeDir` is the executable's
   * directory and `now` the formatted time used to name a backup.
   */
  method NewMylogs(pkg: Package, os: Os, exeDir: string, now: string) returns (l: Mylogs)
    requires !os.exited
    modifies pkg`logger, os`dirs, os`files, os`syslog, os`exited
    ensures pkg.logger == l
    ensures old(pkg.logger) != null ==> l == old(pkg.logger) && unchanged(os) && unchanged(pkg)
    ensures old(pkg.logger) == null ==>
              && fresh(l) && l.configs == DefaultConfig(exeDir, os.platform) && l.colors == MlColors
              && var i := InitSpec(l.configs.configSaveFile, old(os.files), old(os.dirs), os.faults, now, os.platform);
              && os.dirs == i.dirs && os.files == i.setup.files && l.handle == i.setup.handle
              && os.exited == i.setup.exit.Some? && os.syslog == old(os.syslog) + ExitLog(i.setup.exit)
              && os.console == old(os.console)
  {
    if pkg.logger != null {
      return pkg.logger;
    }
    l := new Mylogs(DefaultConfig(exeDir, os.platform), MlColors);
    pkg.logger := l;
    l.CreateLogsDir(os);
    if os.exited {
      return;
    }
    l.GetSaveFileHandler(os, now);
  }
}
