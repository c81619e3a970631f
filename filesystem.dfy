/**
 * An abstract operating system for the logger: files as a map from path to
 * content (one character per byte), a set of directories, the console,
 * standard error (the `log` package's output and the runtime's panic report)
 * and whether the process has exited.
 * Which system calls fail is part of the environment (`faults`); each call
 * is given as a pure outcome function and as a method of `Os` that applies it.
 */
module FileSystem {
  import opened Wrappers
  import opened Paths

  type Files = map<string, string>

  /** A system call on a path that the environment makes fail. */
  datatype Fault =
    | OpenFault(path: string)
    | WriteFault(path: string)
    | SyncFault(path: string)
    | TruncateFault(path: string)
    | MkdirFault(path: string)

  /**
   * The errors the logger can meet: os.ErrInvalid is what every method of a
   * nil *os.File returns; ENOENT, ENOTDIR and EISDIR come from the paths.
   */
  datatype OsError = ErrInvalid | ErrNotExist | ErrNotDir | ErrIsDir | ErrRefused(fault: Fault)

  /** An open *os.File: the file it names and whether it was opened with O_APPEND. */
  datatype Handle = Handle(path: string, append: bool)

  /** The os.OpenFile flags the logger uses (every open is also O_RDWR). */
  datatype Flags = Flags(append: bool, create: bool, trunc: bool)

  /** What reaches standard error: the `log` package's messages and the runtime's panic report. */
  datatype Diag =
    | CallerUnknown             // log.Println: the code line could not be found
    | WriteFailed(err: OsError) // log.Println: writing or syncing the log file failed
    | Fatal(err: OsError)       // log.Fatal: the message, then the process exits
    | NilDereference            // a method called through a nil pointer: the panic report, then exit

  /** What the process has produced: the files, the console and standard error. */
  datatype Sinks = Sinks(files: Files, console: seq<string>, syslog: seq<Diag>)

  /** The content of a file, or nothing if it does not exist. */
  function Content(files: Files, path: string): (content: string)
    ensures path !in files ==> content == ""
  {
    if path in files then files[path] else ""
  }

  /** `path` lies inside `dir`: `dir`, a separator, then more. */
  predicate Beneath(dir: string, path: string, p: Platform) {
    |dir| < |path| && path[..|dir|] == dir && IsSeparator(path[|dir|], p)
  }

  /** A directory on the way to `path` is a regular file, so the system answers ENOTDIR, as Unix does. */
  predicate UnderFile(files: Files, path: string, p: Platform) {
    exists q :: q in files && Beneath(q, path, p)
  }

  /** `path` names a regular file the system can reach: not a directory, no file on the way. */
  predicate RegularFile(files: Files, dirs: set<string>, path: string, p: Platform) {
    path in files && path !in dirs && !UnderFile(files, path, p)
  }

  /**
   * The directory an entry at `path` would be made in exists: the directory
   * part is empty (the working directory), the root, or a known directory.
   */
  predicate InExistingDir(dirs: set<string>, path: string, p: Platform) {
    var d := SplitPath(path, p).0;
    |d| <= 1 || d[..|d| - 1] in dirs
  }

  datatype Stated = Stated(size: Option<nat>, err: Option<OsError>)
  datatype Opened = Opened(files: Files, handle: Option<Handle>, err: Option<OsError>)
  datatype Done = Done(files: Files, err: Option<OsError>)
  datatype Read = Read(data: string, err: Option<OsError>)

  /**
   * os.Stat: the size of a file, or of a directory, which is modelled as 0;
   * otherwise no file information and an error, ENOTDIR when a directory on
   * the way is a regular file and "does not exist" when nothing is there.
   */
  function StatOutcome(files: Files, dirs: set<string>, path: string, p: Platform): (r: Stated)
    ensures r.size.Some? <==> r.err.None?
    ensures r.err == Some(ErrNotExist) <==> !UnderFile(files, path, p) && path !in files && path !in dirs
    ensures r.size.Some? ==> path in files || path in dirs
  {
    if UnderFile(files, path, p) then Stated(None, Some(ErrNotDir))
    else if path in files then Stated(Some(|files[path]|), None)
    else if path in dirs then Stated(Some(0), None)
    else Stated(None, Some(ErrNotExist))
  }

  /**
   * os.OpenFile (always O_RDWR): a nil handle and an error, or a handle on
   * the file, which is created empty if absent (O_CREATE, in an existing
   * directory) and emptied if O_TRUNC is given.
   */
  function OpenFileOutcome(files: Files, dirs: set<string>, faults: set<Fault>, path: string,
                           flags: Flags, p: Platform): (r: Opened)
    ensures r.handle.Some? <==> r.err.None?
    ensures r.handle.Some? ==> r.handle.value == Handle(path, flags.append)
    ensures r.err.Some? ==> r.files == files
    ensures r.handle.Some? ==> path !in dirs && !UnderFile(files, path, p)
    ensures r.handle.Some? ==> path in files || (flags.create && InExistingDir(dirs, path, p))
    ensures r.handle.Some? ==> r.files.Keys == files.Keys + {path}
    ensures r.handle.Some? ==> r.files[path] == if flags.trunc then "" else Content(files, path)
    ensures forall q :: q != path ==> Content(r.files, q) == Content(files, q)
  {
    if UnderFile(files, path, p) then Opened(files, None, Some(ErrNotDir))
    else if path in dirs then Opened(files, None, Some(ErrIsDir))
    else if OpenFault(path) in faults then Opened(files, None, Some(ErrRefused(OpenFault(path))))
    else if path !in files && (!flags.create || !InExistingDir(dirs, path, p)) then
      Opened(files, None, Some(ErrNotExist))
    else Opened(files[path := if flags.trunc then "" else Content(files, path)], Some(Handle(path, flags.append)), None)
  }

  /** (*os.File).Truncate(0). */
  function TruncateOutcome(files: Files, faults: set<Fault>, h: Option<Handle>): (r: Done)
    ensures r.err.None? <==> h.Some? && TruncateFault(h.value.path) !in faults
    ensures r.err.None? ==> r.files == files[h.value.path := ""]
    ensures r.err.Some? ==> r.files == files
  {
    match h
    case None => Done(files, Some(ErrInvalid))
    case Some(f) =>
      if TruncateFault(f.path) in faults then Done(files, Some(ErrRefused(TruncateFault(f.path))))
      else Done(files[f.path := ""], None)
  }

  /**
   * (*os.File).WriteString. The data lands at the end of the file: with O_APPEND
   * always, and without it because the logger's handle is the file's only
   * writer and starts at offset 0 of an emptied file.
   */
  function WriteOutcome(files: Files, faults: set<Fault>, h: Option<Handle>, data: string): (r: Done)
    ensures r.err.None? <==> h.Some? && WriteFault(h.value.path) !in faults
    ensures r.err.None? ==> r.files == files[h.value.path := Content(files, h.value.path) + data]
    ensures r.err.Some? ==> r.files == files
  {
    match h
    case None => Done(files, Some(ErrInvalid))
    case Some(f) =>
      if WriteFault(f.path) in faults then Done(files, Some(ErrRefused(WriteFault(f.path))))
      else Done(files[f.path := Content(files, f.path) + data], None)
  }

  /** (*os.File).Sync: it changes nothing the model can observe. */
  function SyncOutcome(faults: set<Fault>, h: Option<Handle>): (err: Option<OsError>)
    ensures err.None? <==> h.Some? && SyncFault(h.value.path) !in faults
  {
    match h
    case None => Some(ErrInvalid)
    case Some(f) => if SyncFault(f.path) in faults then Some(ErrRefused(SyncFault(f.path))) else None
  }

  /** io.ReadAll on a handle that has not been read or written since it was opened. */
  function ReadAllOutcome(files: Files, h: Option<Handle>): (r: Read)
    ensures r.err.None? <==> h.Some?
    ensures h.Some? ==> r.data == Content(files, h.value.path)
  {
    match h
    case None => Read("", Some(ErrInvalid))
    case Some(f) => Read(Content(files, f.path), None)
  }

  /**
   * os.MkdirAll of `path`: ENOTDIR when `path` or a directory on the way is a
   * regular file; nothing to do when it is a directory already. The missing
   * parents it also makes are not tracked.
   */
  function MkdirAllOutcome(files: Files, dirs: set<string>, faults: set<Fault>, path: string,
                           p: Platform): (r: (set<string>, Option<OsError>))
    ensures r.1.None? ==> r.0 == dirs + {path}
    ensures r.1.Some? ==> r.0 == dirs
    ensures r.1.None? <==> !UnderFile(files, path, p) && path !in files && MkdirFault(path) !in faults
  {
    if UnderFile(files, path, p) || path in files then (dirs, Some(ErrNotDir))
    else if MkdirFault(path) in faults then (dirs, Some(ErrRefused(MkdirFault(path))))
    else (dirs + {path}, None)
  }

  /** The process: its file system, its console and its standard error. */
  class Os {
    var files: Files
    var dirs: set<string>
    var faults: set<Fault>
    var platform: Platform
    var console: seq<string>
    var syslog: seq<Diag>
    var exited: bool

    constructor (files: Files, dirs: set<string>, faults: set<Fault>, platform: Platform)
      ensures this.files == files && this.dirs == dirs && this.faults == faults
      ensures this.platform == platform
      ensures console == [] && syslog == [] && !exited
    {
      this.files := files;
      this.dirs := dirs;
      this.faults := faults;
      this.platform := platform;
      console := [];
      syslog := [];
      exited := false;
    }

    function Output(): Sinks
      reads this
    {
      Sinks(files, console, syslog)
    }

    method Stat(path: string) returns (size: Option<nat>, err: Option<OsError>)
      ensures Stated(size, err) == StatOutcome(files, dirs, path, platform)
    {
      var r := StatOutcome(files, dirs, path, platform);
      size, err := r.size, r.err;
    }

    method MkdirAll(path: string) returns (err: Option<OsError>)
      modifies this`dirs
      ensures (dirs, err) == MkdirAllOutcome(files, old(dirs), faults, path, platform)
    {
      var r := MkdirAllOutcome(files, dirs, faults, path, platform);
      dirs, err := r.0, r.1;
    }

    method OpenFile(path: string, flags: Flags) returns (h: Option<Handle>, err: Option<OsError>)
      modifies this`files
      ensures Opened(files, h, err) == OpenFileOutcome(old(files), dirs, faults, path, flags, platform)
    {
      var r := OpenFileOutcome(files, dirs, faults, path, flags, platform);
      files, h, err := r.files, r.handle, r.err;
    }

    method Truncate(h: Option<Handle>) returns (err: Option<OsError>)
      modifies this`files
      ensures Done(files, err) == TruncateOutcome(old(files), faults, h)
    {
      var r := TruncateOutcome(files, faults, h);
      files, err := r.files, r.err;
    }

    method WriteString(h: Option<Handle>, data: string) returns (err: Option<OsError>)
      modifies this`files
      ensures Done(files, err) == WriteOutcome(old(files), faults, h, data)
    {
      var r := WriteOutcome(files, faults, h, data);
      files, err := r.files, r.err;
    }

    method Sync(h: Option<Handle>) returns (err: Option<OsError>)
      ensures err == SyncOutcome(faults, h)
    {
      err := SyncOutcome(faults, h);
    }

    method ReadAll(h: Option<Handle>) returns (data: string, err: Option<OsError>)
      ensures Read(data, err) == ReadAllOutcome(files, h)
    {
      var r := ReadAllOutcome(files, h);
      data, err := r.data, r.err;
    }

    /** fmt.Printf to standard output. */
    method Printf(text: string)
      modifies this`console
      ensures console == old(console) + [text]
    {
      console := console + [text];
    }

    /** log.Println. */
    method Println(d: Diag)
      modifies this`syslog
      ensures syslog == old(syslog) + [d]
    {
      syslog := syslog + [d];
    }

    /** log.Fatal: the message, then the process exits. */
    method Fatal(err: OsError)
      modifies this`syslog, this`exited
      ensures syslog == old(syslog) + [Diag.Fatal(err)] && exited
    {
      syslog := syslog + [Diag.Fatal(err)];
      exited := true;
    }

    /** A nil-pointer dereference: the runtime prints its panic report and the process exits. */
    method Panic()
      modifies this`syslog, this`exited
      ensures syslog == old(syslog) + [NilDereference] && exited
    {
      syslog := syslog + [NilDereference];
      exited := true;
    }
  }
}
