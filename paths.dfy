/**
 * The two functions of Go's `path/filepath` package the logger calls:
 * `Split`, which cuts a path after its last separator, and `Join`.
 */
module Paths {

  /** The operating system the process runs on decides which characters separate path elements. */
  datatype Platform = Unix | Windows

  /** os.PathSeparator. */
  function Separator(p: Platform): char {
    if p == Windows then '\\' else '/'
  }

  /** os.IsPathSeparator: Windows accepts both slashes, Unix only '/'. */
  predicate IsSeparator(c: char, p: Platform) {
    c == '/' || (p == Windows && c == '\\')
  }

  predicate NoSeparator(s: string, p: Platform) {
    forall i :: 0 <= i < |s| ==> !IsSeparator(s[i], p)
  }

  /** `dir` is a directory part as Split returns it: empty or ending in a separator. */
  predicate IsDirPart(dir: string, p: Platform) {
    dir == [] || IsSeparator(dir[|dir| - 1], p)
  }

  /**
   * filepath.Split: the directory part up to and including the last separator,
   * and the file name after it.
   */
  function SplitPath(path: string, p: Platform): (r: (string, string))
    ensures r.0 + r.1 == path
    ensures IsDirPart(r.0, p) && NoSeparator(r.1, p)
    decreases |path|
  {
    if path == [] then ([], [])
    else if IsSeparator(path[|path| - 1], p) then (path, [])
    else
      var (dir, file) := SplitPath(path[..|path| - 1], p);
      (dir, file + [path[|path| - 1]])
  }

  /** The cut Split makes is the only one with its two properties. */
  lemma {:induction false} SplitPathOf(dir: string, file: string, p: Platform)
    requires IsDirPart(dir, p) && NoSeparator(file, p)
    ensures SplitPath(dir + file, p) == (dir, file)
    decreases |file|
  {
    var path := dir + file;
    if file == [] {
      assert path == dir;
    } else {
      var init := file[..|file| - 1];
      assert path[..|path| - 1] == dir + init;
      assert path[|path| - 1] == file[|file| - 1];
      SplitPathOf(dir, init, p);
      assert init + [file[|file| - 1]] == file;
    }
  }

  /** filepath.Join of two elements: an empty first element is dropped. */
  function Join(dir: string, elem: string, p: Platform): (path: string)
  {
    if dir == [] then elem
    else if IsSeparator(dir[|dir| - 1], p) then dir + elem
    else dir + [Separator(p)] + elem
  }

  /** The joined element is what Split gives back as the file name. */
  lemma JoinThenSplit(dir: string, elem: string, p: Platform)
    requires dir != [] && NoSeparator(elem, p)
    ensures SplitPath(Join(dir, elem, p), p).1 == elem
  {
    var j := Join(dir, elem, p);
    var d := if IsSeparator(dir[|dir| - 1], p) then dir else dir + [Separator(p)];
    assert j == d + elem;
    SplitPathOf(d, elem, p);
  }
}
