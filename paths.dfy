/**
 * Pure string logic of the loader: the extension test behind auto-exe, the
 * executable-name normalisation, the path join and the last-segment
 * extraction used for the download file name.
 *
 * Paths are strings; the separator is the one of the operating system the
 * loader runs on (`Separator(goos)`).
 */
module Paths {

  /** The platform path separator (Go's `filepath.Separator`). */
  function Separator(goos: string): char {
    if goos == "windows" then '\\' else '/'
  }

  /** Go's `os.IsPathSeparator`: on Windows both slashes separate. */
  predicate IsPathSeparator(c: char, goos: string) {
    c == '/' || (goos == "windows" && c == '\\')
  }

  /**
   * Where `filepath.Ext` starts: the index of the last '.' of the final
   * element of `path`, or -1 when that element has none.
   */
  function ExtStart(path: string, goos: string): (r: int)
    ensures -1 <= r < |path|
    ensures r >= 0 ==> path[r] == '.'
    ensures r >= 0 ==> forall j :: r < j < |path| ==> path[j] != '.' && !IsPathSeparator(path[j], goos)
    ensures r < 0 ==>
      forall i :: 0 <= i < |path| && path[i] == '.' ==>
        exists j :: i < j < |path| && IsPathSeparator(path[j], goos)
    decreases |path|
  {
    if path == [] then -1
    else
      var c := path[|path| - 1];
      var init := path[..|path| - 1];
      if IsPathSeparator(c, goos) then -1
      else if c == '.' then |path| - 1
      else
        var r := ExtStart(init, goos);
        assert forall j :: 0 <= j < |init| ==> path[j] == init[j];
        r
  }

  /**
   * Go's `filepath.Ext`: the suffix of `path` starting at the last '.' of
   * its final element, or "" when the final element has no '.'.
   */
  function Ext(path: string, goos: string): string {
    var k := ExtStart(path, goos);
    if k < 0 then "" else path[k..]
  }

  /** ASCII lower-casing of one character. */
  function LowerChar(c: char): char {
    if 'A' <= c <= 'Z' then (c as int + 32) as char else c
  }

  /**
   * `strings.ToLower`, restricted to ASCII letters. For the only use made of
   * it (comparing an extension with ".exe") this is exact: no other character
   * lower-cases to '.', 'e' or 'x'.
   */
  function Lower(s: string): (r: string)
    ensures |r| == |s|
    ensures forall i :: 0 <= i < |s| ==> r[i] == LowerChar(s[i])
  {
    seq(|s|, i requires 0 <= i < |s| => LowerChar(s[i]))
  }

  /** The extension of `name`, lower-cased, is ".exe". */
  predicate HasExeExt(name: string, goos: string) {
    Lower(Ext(name, goos)) == ".exe"
  }

  /**
   * The name `BinLoader.ExecPath` stores: on "windows" with auto-exe enabled,
   * ".exe" is appended unless the lower-cased extension already is ".exe".
   */
  function Normalise(name: string, autoExe: bool, goos: string): string {
    if autoExe && goos == "windows" && !HasExeExt(name, goos) then name + ".exe" else name
  }

  /** Appending ".exe" makes ".exe" the extension, so the name then passes the auto-exe test. */
  lemma {:induction false} ExtOfExeSuffix(name: string, goos: string)
    ensures Ext(name + ".exe", goos) == ".exe"
    ensures HasExeExt(name + ".exe", goos)
  {
    var s := name + ".exe";
    var n := |s|;
    assert s[n - 4] == '.' && s[n - 3] == 'e' && s[n - 2] == 'x' && s[n - 1] == 'e';
    var k := ExtStart(s, goos);
    if k < n - 4 {
      assert false;
    }
    if k > n - 4 {
      assert false;
    }
    assert s[n - 4..] == ".exe";
    var low := Lower(".exe");
    assert low[0] == '.' && low[1] == 'e' && low[2] == 'x' && low[3] == 'e';
    assert low == ".exe";
  }

  /** The name stored after normalisation, and why. */
  lemma NormaliseMeaning(name: string, autoExe: bool, goos: string)
    ensures var r := Normalise(name, autoExe, goos);
      && (r == name || r == name + ".exe")
      && (autoExe && goos == "windows" ==> HasExeExt(r, goos))
      && (!autoExe || goos != "windows" || HasExeExt(name, goos) ==> r == name)
  {
    if autoExe && goos == "windows" && !HasExeExt(name, goos) {
      ExtOfExeSuffix(name, goos);
    }
  }

  /** Normalising a normalised name changes nothing. */
  lemma NormaliseIdempotent(name: string, autoExe: bool, goos: string)
    ensures Normalise(Normalise(name, autoExe, goos), autoExe, goos) == Normalise(name, autoExe, goos)
  {
    NormaliseMeaning(name, autoExe, goos);
  }

  /**
   * `ExecPath(n)` followed by `AutoExe()` stores the same name as
   * `AutoExe()` followed by `ExecPath(n)`, whatever the flag was before.
   */
  lemma AutoExeCommutes(name: string, autoExe: bool, goos: string)
    ensures Normalise(Normalise(name, autoExe, goos), true, goos) == Normalise(name, true, goos)
  {
    if autoExe {
      NormaliseIdempotent(name, true, goos);
    }
  }

  /**
   * Go's `filepath.Join` of two elements, on paths that are already clean:
   * empty elements are dropped, and a leading "." element disappears (Clean
   * turns "./n" into "n").
   */
  function Join(dir: string, name: string, sep: char): string {
    if dir == "" then name
    else if name == "" then dir
    else if dir == "." then name
    else dir + [sep] + name
  }

  /** The index of the last `c` in `s`, or -1 when there is none. */
  function LastIndex(s: string, c: char): (r: int)
    ensures -1 <= r < |s|
    ensures r >= 0 ==> s[r] == c
    ensures forall j :: r < j < |s| ==> s[j] != c
    decreases |s|
  {
    if s == [] then -1
    else if s[|s| - 1] == c then |s| - 1
    else LastIndex(s[..|s| - 1], c)
  }

  /**
   * The part of `s` after its last `c`: the last element of
   * `strings.Split(s, [c])`.
   */
  function AfterLast(s: string, c: char): string {
    s[LastIndex(s, c) + 1..]
  }

  /** The part of `s` before its last `c` ("" when there is none). */
  function BeforeLast(s: string, c: char): string {
    var i := LastIndex(s, c);
    if i >= 0 then s[..i] else ""
  }

  /** Splitting `head + [c] + tail` at its last `c`, when `tail` has none, gives back both parts. */
  lemma {:induction false} SplitAtLast(head: string, c: char, tail: string)
    requires c !in tail
    ensures AfterLast(head + [c] + tail, c) == tail
    ensures BeforeLast(head + [c] + tail, c) == head
  {
    var s := head + [c] + tail;
    if tail != [] {
      var init := tail[..|tail| - 1];
      assert s[..|s| - 1] == head + [c] + init;
      SplitAtLast(head, c, init);
      assert tail == init + [tail[|tail| - 1]];
    }
    assert s[..|head|] == head;
  }

  /**
   * The path `BinLoader.path()` returns for a destination and a name: a
   * literal separator join when the destination is ".", `Join` otherwise.
   */
  function Location(dest: string, name: string, goos: string): string {
    if dest == "." then dest + [Separator(goos)] + name else Join(dest, name, Separator(goos))
  }

  /**
   * For a non-empty destination and a non-empty single-element name, the
   * computed location splits back into the destination and the name; in
   * particular a "." destination is kept as the directory part.
   */
  lemma LocationSplits(dest: string, name: string, goos: string)
    requires dest != "" && name != "" && Separator(goos) !in name
    ensures AfterLast(Location(dest, name, goos), Separator(goos)) == name
    ensures BeforeLast(Location(dest, name, goos), Separator(goos)) == dest
  {
    SplitAtLast(dest, Separator(goos), name);
  }

  /** `Join` itself drops a "." directory, which is why `Location` special-cases it. */
  lemma JoinDropsDot(name: string, goos: string)
    requires name != ""
    ensures Join(".", name, Separator(goos)) == name
    ensures Location(".", name, goos) == "." + [Separator(goos)] + name
  {
  }
}
