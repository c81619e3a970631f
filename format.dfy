/**
 * The pure half of the logger (SimpleLogger.go): the colour table, the
 * line-start and line-end characters, the caller-location tag and the layout of
 * the line written to the log file and of the one printed on the console.
 */
module Format {
  import opened Wrappers
  import opened Text
  import opened Paths

  /** The MylogColors struct: one ANSI escape per colour name. */
  datatype MylogColors = MylogColors(
    reset: string,
    red: string, green: string, yellow: string, blue: string,
    magenta: string, cyan: string, white: string,
    blackBG: string, redBG: string, greenBG: string, yellowBG: string,
    blueBG: string, purpleBG: string, cyanBG: string, whiteBG: string)

  /** The package-level palette MlColors. */
  const MlColors: MylogColors := MylogColors(
    Sgr("0"),
    Sgr("31"), Sgr("32"), Sgr("33"), Sgr("34"),
    Sgr("35"), Sgr("36"), Sgr("37"),
    Sgr("40"), Sgr("41"), Sgr("42"), Sgr("43"),
    Sgr("44"), Sgr("45"), Sgr("46"), Sgr("47"))

  /** `color` is empty or a single rendition escape. */
  predicate IsRendition(color: string) {
    color == [] ||
    (3 <= |color| && color[0] == Esc && color[1] == '[' && color[|color| - 1] == 'm'
     && AllSgrParams(color[2..|color| - 1]))
  }

  /** The colours the six level methods use, and the reset, are rendition escapes. */
  lemma PaletteIsRendition()
    ensures IsRendition(MlColors.reset)
    ensures IsRendition(MlColors.red) && IsRendition(MlColors.green)
    ensures IsRendition(MlColors.yellow) && IsRendition(MlColors.blue)
  {
    assert MlColors.reset[2..3] == "0";
    assert MlColors.red[2..4] == "31";
    assert MlColors.green[2..4] == "32";
    assert MlColors.yellow[2..4] == "33";
    assert MlColors.blue[2..4] == "34";
  }

  /** A frame as runtime.Caller reports it: source file and line. */
  datatype Frame = Frame(file: string, line: nat)

  /**
   * The line-start and line-end characters: a full line ends in a newline, an
   * in-place redraw starts with a carriage return and ends with nothing.
   */
  function LineEnds(fullPrint: bool): (r: (string, string))
    ensures fullPrint <==> r.1 == "\n"
    ensures !fullPrint <==> r.0 == "\r"
    ensures r.0 + r.1 == "\n" || r.0 + r.1 == "\r"
  {
    if fullPrint then ("", "\n") else ("\r", "")
  }

  /**
   * The parent-directory name of mode 1: the second-to-last piece of the
   * directory part split on "/" when it contains one, else on "\\" when it
   * contains one, else the directory part itself.
   */
  function ParentName(dir: string): (name: string)
    ensures '/' in dir ==> '/' !in name
    ensures '/' !in dir && '\\' in dir ==> '\\' !in name
    ensures '/' !in dir && '\\' !in dir ==> name == dir
  {
    if '/' in dir then
      var parts := SplitOn(dir, '/');
      parts[|parts| - 2]
    else if '\\' in dir then
      var parts := SplitOn(dir, '\\');
      parts[|parts| - 2]
    else dir
  }

  /**
   * The location tag for the code-line mode `mode` and the frame runtime.Caller
   * reported (None when it could not). None means the lookup failed and the
   * line is not printed at all.
   */
  function CodeLine(mode: int, caller: Option<Frame>, p: Platform): (r: Option<string>)
    ensures r.None? <==> (mode == 1 || mode == 2) && caller.None?
  {
    if mode == 2 then
      match caller
      case None => None
      case Some(f) => Some(" | " + f.file + ":" + Decimal(f.line) + " |")
    else if mode == 1 then
      match caller
      case None => None
      case Some(f) =>
        var (dir, name) := SplitPath(f.file, p);
        Some(" | " + ParentName(dir) + "/" + name + ":" + Decimal(f.line) + " |")
    else Some("")
  }

  /** The line written to the log file: timestamp, location, status tag, data, newline. */
  function FileLine(time: string, codeLine: string, status: string, data: string): (line: string)
    ensures |line| >= 1 && line[|line| - 1] == '\n'
  {
    time + codeLine + " [" + status + "] " + data + "\n"
  }

  /**
   * The text printed on the console. The reset escape is always printed, even
   * when `color` has been blanked.
   */
  function ConsoleLine(start: string, time: string, codeLine: string, color: string,
                       status: string, data: string, end: string): (text: string)
    ensures |text| == |start| + |time| + |codeLine| + |color| + |status| + |data| + |end| + |MlColors.reset| + 4
    ensures text[..|start|] == start && text[|text| - |end|..] == end
    ensures var k := |start + time + codeLine| + 1 + |color| + |status| + 2;
            k + |MlColors.reset| <= |text| && text[k..k + |MlColors.reset|] == MlColors.reset
  {
    start + time + codeLine + " " + color + "[" + status + "]" + MlColors.reset + " " + data + end
  }

  // ---------------------------------------------------------------------
  // The location tag.
  // ---------------------------------------------------------------------

  /** Mode 2 shows the whole path; modes other than 1 and 2 show nothing. */
  lemma LocationTagModes(mode: int, f: Frame, p: Platform)
    ensures CodeLine(2, Some(f), p) == Some(" | " + f.file + ":" + Decimal(f.line) + " |")
    ensures mode != 1 && mode != 2 ==> CodeLine(mode, Some(f), p) == Some("")
    ensures mode != 1 && mode != 2 ==> CodeLine(mode, None, p) == Some("")
  {
  }

  /** A character absent from two strings is absent from their concatenation. */
  lemma NotInConcat(c: char, a: string, b: string)
    requires c !in a && c !in b
    ensures c !in a + b
  {
  }

  /** Splitting "root/parent/" on the separator: the pieces of root, then parent, then "". */
  lemma SplitAroundParent(root: string, parent: string, sep: char)
    requires sep !in parent
    ensures SplitOn(root + [sep] + parent + [sep], sep) == SplitOn(root, sep) + [parent, []]
  {
    assert root + [sep] + parent + [sep] == root + [sep] + (parent + [sep] + []);
    SplitOnAt(root, parent + [sep] + [], sep);
    SplitOnAt(parent, [], sep);
    SplitOnFree(parent, sep);
    assert SplitOn([], sep) == [[]];
  }

  /**
   * The parent name of a directory part `prefix + parent + "/"` whose prefix
   * is empty or ends in "/": parent. With an empty prefix this covers a
   * one-level part such as "utils/", and with an empty parent too, the root "/".
   */
  lemma ParentOfSlashDir(prefix: string, parent: string)
    requires '/' !in parent && (prefix == [] || prefix[|prefix| - 1] == '/')
    ensures ParentName(prefix + parent + "/") == parent
  {
    var dir := prefix + parent + "/";
    assert dir[|dir| - 1] == '/';
    if prefix == [] {
      assert dir == parent + ['/'] + [];
      SplitOnAt(parent, [], '/');
      SplitOnFree(parent, '/');
      assert SplitOn([], '/') == [[]];
    } else {
      var root := prefix[..|prefix| - 1];
      assert dir == root + ['/'] + parent + ['/'];
      SplitAroundParent(root, parent, '/');
    }
  }

  /**
   * The same with backslashes, when no "/" occurs in the directory part: the
   * split on "\\" then gives parent.
   */
  lemma ParentOfBackslashDir(prefix: string, parent: string)
    requires '/' !in prefix && '/' !in parent && '\\' !in parent
    requires prefix == [] || prefix[|prefix| - 1] == '\\'
    ensures ParentName(prefix + parent + "\\") == parent
  {
    var dir := prefix + parent + "\\";
    NotInConcat('/', prefix, parent);
    NotInConcat('/', prefix + parent, "\\");
    assert dir[|dir| - 1] == '\\';
    if prefix == [] {
      assert dir == parent + ['\\'] + [];
      SplitOnAt(parent, [], '\\');
      SplitOnFree(parent, '\\');
      assert SplitOn([], '\\') == [[]];
    } else {
      var root := prefix[..|prefix| - 1];
      assert dir == root + ['\\'] + parent + ['\\'];
      SplitAroundParent(root, parent, '\\');
    }
  }

  /**
   * Mode 1 on a path whose directory part holds "/": the last directory name
   * and the file name, on both platforms.
   */
  lemma LocationTagOfSlashPath(prefix: string, parent: string, name: string, line: nat, p: Platform)
    requires '/' !in parent && (prefix == [] || prefix[|prefix| - 1] == '/') && NoSeparator(name, p)
    ensures CodeLine(1, Some(Frame(prefix + parent + "/" + name, line)), p)
         == Some(" | " + parent + "/" + name + ":" + Decimal(line) + " |")
  {
    var dir := prefix + parent + "/";
    assert prefix + parent + "/" + name == dir + name;
    SplitPathOf(dir, name, p);
    ParentOfSlashDir(prefix, parent);
  }

  /** Mode 1 on Windows when the directory part holds only backslashes. */
  lemma LocationTagOfBackslashPath(prefix: string, parent: string, name: string, line: nat)
    requires '/' !in prefix && '/' !in parent && '\\' !in parent && NoSeparator(name, Windows)
    requires prefix == [] || prefix[|prefix| - 1] == '\\'
    ensures CodeLine(1, Some(Frame(prefix + parent + "\\" + name, line)), Windows)
         == Some(" | " + parent + "/" + name + ":" + Decimal(line) + " |")
  {
    var dir := prefix + parent + "\\";
    assert prefix + parent + "\\" + name == dir + name;
    SplitPathOf(dir, name, Windows);
    ParentOfBackslashDir(prefix, parent);
  }

  /** Text between a fixed head and a fixed tail is determined by the whole. */
  lemma MiddleDetermined(head: string, x: string, y: string, tail: string)
    requires head + x + tail == head + y + tail
    ensures x == y
  {
    var s := head + x + tail;
    assert |x| == |y|;
    assert x == s[|head|..|head| + |x|];
    assert y == (head + y + tail)[|head|..|head| + |y|];
  }

  /**
   * In modes 1 and 2 the location tag determines the line number: two frames
   * of the same file give the same tag only on the same line.
   */
  lemma LocationTagDeterminesLine(mode: int, file: string, line1: nat, line2: nat, p: Platform)
    requires mode == 1 || mode == 2
    requires CodeLine(mode, Some(Frame(file, line1)), p) == CodeLine(mode, Some(Frame(file, line2)), p)
    ensures line1 == line2
  {
    var head := if mode == 2 then " | " + file + ":"
                else var (dir, name) := SplitPath(file, p); " | " + ParentName(dir) + "/" + name + ":";
    assert CodeLine(mode, Some(Frame(file, line1)), p) == Some(head + Decimal(line1) + " |");
    assert CodeLine(mode, Some(Frame(file, line2)), p) == Some(head + Decimal(line2) + " |");
    MiddleDetermined(head, Decimal(line1), Decimal(line2), " |");
    DecimalInjective(line1, line2);
  }

  /** Mode 1 on a bare file name: the parent is empty, so the tag shows "/name". */
  lemma LocationTagOfBareName(name: string, line: nat, p: Platform)
    requires NoSeparator(name, p)
    ensures CodeLine(1, Some(Frame(name, line)), p) == Some(" | /" + name + ":" + Decimal(line) + " |")
  {
    SplitPathOf([], name, p);
    assert [] + name == name;
    assert ParentName([]) == [];
    assert " | " + [] + "/" + name == " | /" + name;
  }

  // ---------------------------------------------------------------------
  // The console line against the file line.
  // ---------------------------------------------------------------------

  /** The reset escape before plain text is invisible. */
  lemma StripReset(tail: string)
    requires Esc !in tail
    ensures StripSgr(MlColors.reset + tail) == tail
  {
    StripSgrPlain(tail, []);
    assert tail + [] == tail;
    assert MlColors.reset == Sgr("0");
    StripSgrHead("0", tail);
  }

  /** A colour (possibly blanked) at the head is invisible. */
  lemma StripRendition(color: string, rest: string)
    requires IsRendition(color)
    ensures StripSgr(color + rest) == StripSgr(rest)
  {
    if color == [] {
      assert color + rest == rest;
    } else {
      assert color == Sgr(color[2..|color| - 1]);
      StripSgrHead(color[2..|color| - 1], rest);
    }
  }

  /** Removing the escapes from head, colour, tag, reset and tail leaves head, tag and tail. */
  lemma StripColouredTag(head: string, color: string, tag: string, tail: string)
    requires Esc !in head && Esc !in tag && Esc !in tail
    requires IsRendition(color)
    ensures StripSgr(head + (color + (tag + (MlColors.reset + tail)))) == head + (tag + tail)
  {
    StripReset(tail);
    StripSgrPlain(tag, MlColors.reset + tail);
    StripRendition(color, tag + (MlColors.reset + tail));
    StripSgrPlain(head, color + (tag + (MlColors.reset + tail)));
  }

  /** The console line regrouped around its coloured status tag. */
  lemma ConsoleLineRegrouped(start: string, time: string, codeLine: string, color: string,
                             status: string, data: string, end: string, reset: string)
    requires reset == MlColors.reset
    ensures ConsoleLine(start, time, codeLine, color, status, data, end)
         == (start + time + codeLine + " ") + (color + (("[" + status + "]") + (reset + (" " + data + end))))
  {
  }

  /** Head, tag and tail put back together are the plain line between its start and end. */
  lemma PlainRegrouped(start: string, time: string, codeLine: string, status: string,
                       data: string, end: string)
    ensures (start + time + codeLine + " ") + (("[" + status + "]") + (" " + data + end))
         == start + (time + codeLine + " [" + status + "] " + data) + end
  {
  }

  /** With the escapes removed, the console text is the plain line between its start and end. */
  lemma ConsoleShown(start: string, time: string, codeLine: string, color: string,
                     status: string, data: string, end: string)
    requires Esc !in start && Esc !in time && Esc !in codeLine && Esc !in status
    requires Esc !in data && Esc !in end
    requires IsRendition(color)
    ensures StripSgr(ConsoleLine(start, time, codeLine, color, status, data, end))
         == start + (time + codeLine + " [" + status + "] " + data) + end
  {
    var head := start + time + codeLine + " ";
    var tag := "[" + status + "]";
    var tail := " " + data + end;
    NotInConcat(Esc, start, time);
    NotInConcat(Esc, start + time, codeLine);
    NotInConcat(Esc, start + time + codeLine, " ");
    NotInConcat(Esc, "[", status);
    NotInConcat(Esc, "[" + status, "]");
    NotInConcat(Esc, " ", data);
    NotInConcat(Esc, " " + data, end);
    ConsoleLineRegrouped(start, time, codeLine, color, status, data, end, MlColors.reset);
    StripColouredTag(head, color, tag, tail);
    PlainRegrouped(start, time, codeLine, status, data, end);
  }

  /**
   * What the console shows differs from the file line only in its line ends:
   * with the escapes removed, a full-line print is the file line, and an
   * in-place print is a carriage return and the file line without its newline.
   */
  lemma ConsoleShowsFileLine(fullPrint: bool, time: string, codeLine: string,
                             color: string, status: string, data: string)
    requires Esc !in time && Esc !in codeLine && Esc !in status && Esc !in data
    requires IsRendition(color)
    ensures var (start, end) := LineEnds(fullPrint);
            var line := FileLine(time, codeLine, status, data);
            StripSgr(ConsoleLine(start, time, codeLine, color, status, data, end))
              == if fullPrint then line else "\r" + line[..|line| - 1]
  {
    var (start, end) := LineEnds(fullPrint);
    ConsoleShown(start, time, codeLine, color, status, data, end);
    var line := FileLine(time, codeLine, status, data);
    var body := time + codeLine + " [" + status + "] " + data;
    assert line == body + "\n";
    if !fullPrint {
      assert line[..|line| - 1] == body;
      assert "\r" + body + "" == "\r" + body;
    }
  }
}
