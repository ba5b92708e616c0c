/**
 * The loader itself: a source descriptor and the `BinLoader` configuration
 * object, whose builder methods update its fields in place and whose `Path`
 * resolves (and, when missing, installs) the binary on a `Host`.
 *
 * Every method is proved to do exactly what the matching plan in `Plans`
 * describes: the value or error it returns, the effects it performs on the
 * host in order, the world it leaves and the configuration it leaves.
 */
module Loader {
  import opened Paths
  import opened FileSystem
  import opened Plans

  /** A download source, tied to an OS and an architecture ("" ties to none). */
  class Src {
    var url: string
    var os: string
    var arch: string
    var execPath: string

    /** `NewSrc`. */
    constructor ()
      ensures url == "" && os == "" && arch == "" && execPath == ""
    {
      url, os, arch, execPath := "", "", "", "";
    }

    method URL(value: string) returns (s: Src)
      modifies this`url
      ensures url == value && s == this
    {
      url := value;
      s := this;
    }

    method Os(value: string) returns (s: Src)
      modifies this`os
      ensures os == value && s == this
    {
      os := value;
      s := this;
    }

    method Arch(value: string) returns (s: Src)
      modifies this`arch
      ensures arch == value && s == this
    {
      arch := value;
      s := this;
    }

    /** Ties the source to a specific binary file name. */
    method ExecPath(value: string) returns (s: Src)
      modifies this`execPath
      ensures execPath == value && s == this
    {
      execPath := value;
      s := this;
    }

    function Info(): SrcInfo
      reads this
    {
      SrcInfo(url, os, arch, execPath)
    }
  }

  lemma AppendAssoc(a: seq<Call>, b: seq<Call>, c: seq<Call>)
    ensures a + b + c == a + (b + c)
  {
  }

  class BinLoader {
    var src: seq<Src>
    var dest: string
    var execPath: string
    var strip: int
    var autoExe: bool

    /** The running OS, the platform selector and the URL parser. */
    const platform: Platform

    /** `NewBinLoader`, on a given platform. */
    constructor (platform: Platform)
      ensures src == [] && Cfg() == Config("", "", 0, false) && this.platform == platform
    {
      this.platform := platform;
      src, dest, execPath, strip, autoExe := [], "", "", 0, false;
    }

    /** The current values of the registered sources. */
    function Sources(): (r: seq<SrcInfo>)
      reads this`src, src
      ensures |r| == |src| && forall i :: 0 <= i < |src| ==> r[i] == src[i].Info()
    {
      var ss := src;
      seq(|ss|, i reads ss requires 0 <= i < |ss| => ss[i].Info())
    }

    function Cfg(): Config
      reads this`dest, this`execPath, this`strip, this`autoExe
    {
      Config(dest, execPath, strip, autoExe)
    }

    /** `Src`: registers one more source. */
    method AddSrc(s: Src) returns (b: BinLoader)
      modifies this`src
      ensures src == old(src) + [s] && b == this
    {
      src := src + [s];
      b := this;
    }

    method Dest(value: string) returns (b: BinLoader)
      modifies this`dest
      ensures dest == value && b == this
    {
      dest := value;
      b := this;
    }

    method Strip(value: int) returns (b: BinLoader)
      modifies this`strip
      ensures strip == value && b == this
    {
      strip := value;
      b := this;
    }

    /** Sets the binary's file name, with ".exe" added when auto-exe applies. */
    method ExecPath(value: string) returns (b: BinLoader)
      modifies this`execPath
      ensures execPath == Normalise(value, autoExe, platform.goos) && b == this
    {
      var name := value;
      if autoExe && platform.goos == "windows" {
        var ext := Lower(Ext(name, platform.goos));
        if ext != ".exe" {
          name := name + ".exe";
        }
      }
      execPath := name;
      b := this;
    }

    /** Enables auto-exe and re-normalises the current name. */
    method AutoExe() returns (b: BinLoader)
      modifies this`autoExe, this`execPath
      ensures autoExe && execPath == Normalise(old(execPath), true, platform.goos) && b == this
    {
      autoExe := true;
      b := ExecPath(execPath);
    }

    /** `path()`: applies the selected source's override, then computes the path. */
    method LocalPath() returns (p: string)
      modifies this`execPath
      ensures Cfg() == Resolved(Sources(), old(Cfg()), platform)
      ensures p == PathOf(Sources(), old(Cfg()), platform)
    {
      var s := platform.select(Sources());
      if s.Some? && s.value.execPath != "" {
        var self := ExecPath(s.value.execPath);
      }
      if dest == "." {
        p := dest + [Separator(platform.goos)] + execPath;
      } else {
        p := Join(dest, execPath, Separator(platform.goos));
      }
    }

    /** `FindExisting` and the download it may start. */
    method FindExisting(h: Host) returns (r: Result<()>)
      requires h.world.sep == Separator(platform.goos)
      modifies this`dest, this`execPath, h
      ensures var f := FindPlan(old(h.world), Sources(), old(Cfg()), platform);
        r == f.run.result && h.log == old(h.log) + f.run.trace && h.world == f.run.world && Cfg() == f.config
    {
      var p := LocalPath();
      var st := h.Stat(p);
      if st.Err? && st.error.NotExist? {
        var shown := LocalPath();
        r := Download(h);
      } else if st.Err? {
        r := st;
      } else {
        r := Ok(());
      }
    }

    /** `Path`: the full path to the binary, installing it first when it is missing. */
    method Path(h: Host) returns (r: Result<string>)
      // the host joins and compares paths with the separator the platform uses
      requires h.world.sep == Separator(platform.goos)
      modifies this`dest, this`execPath, h
      ensures var l := PathPlan(old(h.world), Sources(), old(Cfg()), platform);
        r == l.run.result && h.log == old(h.log) + l.run.trace && h.world == l.run.world && Cfg() == l.config
    {
      if |src| > 0 {
        var err := FindExisting(h);
        if err.Err? {
          return Err(err.error);
        }
      }
      var p := LocalPath();
      r := Ok(p);
    }

    /** `download`. */
    method Download(h: Host) returns (r: Result<()>)
      requires h.world.sep == Separator(platform.goos)
      modifies this`dest, this`execPath, h
      ensures var d := DownloadPlan(old(h.world), Sources(), old(Cfg()), platform);
        r == d.run.result && h.log == old(h.log) + d.run.trace && h.world == d.run.world && Cfg() == d.config
    {
      var s := platform.select(Sources());
      if s.None? {
        return Err(Unsupported);
      }
      var file := DownloadFile(h, s.value.url);
      if file.Err? {
        return Err(file.error);
      }
      ghost var log1 := h.log;
      r := Install(h, s.value, file.value);
      AppendAssoc(old(h.log), log1[|old(h.log)|..], h.log[|log1|..]);
    }

    /** The end of `download`: extract the file, and on success apply the source's override. */
    method Install(h: Host, s: SrcInfo, file: string) returns (r: Result<()>)
      modifies this`execPath, h
      ensures var i := InstallPlan(old(h.world), file, s, old(Cfg()), platform);
        r == i.run.result && h.log == old(h.log) + i.run.trace && h.world == i.run.world && Cfg() == i.config
    {
      r := ExtractFile(h, file);
      if r.Ok? && s.execPath != "" {
        var self := ExecPath(s.execPath);
      }
    }

    /** `extractFile`: the downloaded file is removed on every exit path. */
    method ExtractFile(h: Host, file: string) returns (r: Result<()>)
      modifies h
      ensures var x := ExtractPlan(old(h.world), file, dest, strip, Separator(platform.goos));
        r == x.result && h.log == old(h.log) + x.trace && h.world == x.world
    {
      var err := h.Unarchive(file, dest);
      if err.Err? {
        var removed := h.Remove(file);
        return err;
      }
      if strip == 0 {
        var removed := h.Remove(file);
        return Ok(());
      }
      r := StripDir(h);
      var removed := h.Remove(file);
    }

    /** The inner loop of `stripDir`'s descent: the first directory of a listing. */
    static method FirstDirIndex(files: seq<Entry>) returns (k: Option<nat>)
      ensures k == FirstDir(files)
    {
      var i := 0;
      while i < |files|
        invariant 0 <= i <= |files|
        invariant forall j :: 0 <= j < i ==> !files[j].isDir
      {
        if files[i].isDir {
          return Some(i);
        }
        i := i + 1;
      }
      k := None;
    }

    /**
     * `stripDir`: descend `strip` levels, move the entries of the directory
     * reached up into `dest`, then remove the directories passed on the way.
     */
    method StripDir(h: Host) returns (r: Result<()>)
      modifies h
      ensures var s := StripPlan(old(h.world), dest, strip, Separator(platform.goos));
        r == s.result && h.log == old(h.log) + s.trace && h.world == s.world
    {
      var sep := Separator(platform.goos);
      var descent := DescendFrom(h, dest, strip, sep);
      if descent.Err? {
        return Err(descent.error);
      }
      var (dir, dirsToRemove) := descent.value;
      var listing := h.ReadDir(dir);
      if listing.Err? {
        return Err(listing.error);
      }
      ghost var log0 := h.log;
      r := MoveEntries(h, dir, dest, listing.value, sep);
      if r.Err? {
        return;
      }
      ghost var log1 := h.log;
      RemoveDirs(h, dirsToRemove);
      AppendAssoc(log0, log1[|log0|..], h.log[|log1|..]);
      r := Ok(());
    }

    /** The first loop of `stripDir`: it only reads the filesystem. */
    static method DescendFrom(h: Host, dest: string, strip: int, sep: char) returns (r: Result<(string, seq<string>)>)
      ensures r == Descend(h.world, dest, dest, [], Levels(strip), sep)
    {
      ghost var levels := Levels(strip);
      var dir := dest;
      var dirsToRemove: seq<string> := [];
      var i := 0;
      while i < strip
        invariant 0 <= i <= levels
        invariant Descend(h.world, dest, dest, [], levels, sep) == Descend(h.world, dest, dir, dirsToRemove, levels - i, sep)
      {
        var files := h.ReadDir(dir);
        if files.Err? {
          return Err(files.error);
        }
        var k := FirstDirIndex(files.value);
        if k.Some? {
          if dir != dest {
            dirsToRemove := dirsToRemove + [dir];
          }
          dir := Join(dir, files.value[k.value].name, sep);
        }
        i := i + 1;
      }
      r := Ok((dir, dirsToRemove));
    }

    /** The second loop of `stripDir`: rename every entry of `dir` into `dest`, stopping at the first error. */
    static method MoveEntries(h: Host, dir: string, dest: string, files: seq<Entry>, sep: char) returns (r: Result<()>)
      modifies h
      ensures var m := RunUntilError(old(h.world), Renames(dir, dest, files, sep));
        r == m.result && h.log == old(h.log) + m.trace && h.world == m.world
    {
      ghost var calls := Renames(dir, dest, files, sep);
      var j := 0;
      while j < |files|
        invariant 0 <= j <= |files|
        invariant RunUntilError(old(h.world), calls[..j]) == Run(Ok(()), calls[..j], h.world)
        invariant h.log == old(h.log) + calls[..j]
      {
        RunUntilErrorNext(old(h.world), calls, j, h.world);
        LogNext(old(h.log), calls, j);
        var err := h.Rename(Join(dir, files[j].name, sep), Join(dest, files[j].name, sep));
        if err.Err? {
          RunUntilErrorStops(old(h.world), calls, j + 1);
          return Err(err.error);
        }
        j := j + 1;
      }
      assert calls[..j] == calls;
      r := Ok(());
    }

    /** The third loop of `stripDir`: remove every recorded directory, ignoring errors. */
    static method RemoveDirs(h: Host, dirs: seq<string>)
      modifies h
      ensures h.world == RunAll(old(h.world), RemoveAlls(dirs)) && h.log == old(h.log) + RemoveAlls(dirs)
    {
      ghost var removals := RemoveAlls(dirs);
      var m := 0;
      while m < |dirs|
        invariant 0 <= m <= |dirs|
        invariant h.world == RunAll(old(h.world), removals[..m])
        invariant h.log == old(h.log) + removals[..m]
      {
        assert removals[..m + 1][..m] == removals[..m];
        LogNext(old(h.log), removals, m);
        var ignored := h.RemoveAll(dirs[m]);
        m := m + 1;
      }
      assert removals[..m] == removals;
    }

    /** `downloadFile`: `dest` becomes "." when it was never set. */
    method DownloadFile(h: Host, value: string) returns (r: Result<string>)
      modifies this`dest, h
      ensures dest == DefaultDest(old(dest))
      ensures var d := DownloadFilePlan(old(h.world), old(dest), value, platform.parseUrl, Separator(platform.goos));
        r == d.result && h.log == old(h.log) + d.trace && h.world == d.world
    {
      if dest == "" {
        dest := ".";
      }
      var d := dest;
      assert d == DefaultDest(old(dest));
      var err := h.MkdirAll(d);
      if err.Err? {
        return Err(err.error);
      }
      var fileURL := platform.parseUrl(value);
      if fileURL.None? {
        return Err(BadUrl(value));
      }
      var fileName := Join(d, AfterLast(fileURL.value, '/'), Separator(platform.goos));
      ghost var w1 := h.world;
      r := Fetch(h, fileName, value);
      AppendAssoc(old(h.log), [Call.MkdirAll(d)], FetchPlan(w1, fileName, value).trace);
    }

    /** The rest of `downloadFile` once the destination exists: create `fileName`, then receive `url` into it. */
    static method Fetch(h: Host, fileName: string, url: string) returns (r: Result<string>)
      modifies h
      ensures var f := FetchPlan(old(h.world), fileName, url);
        r == f.result && h.log == old(h.log) + f.trace && h.world == f.world
    {
      var created := h.OpenFile(fileName);
      if created.Err? {
        return Err(created.error);
      }
      ghost var w1 := h.world;
      r := Receive(h, fileName, url);
      AppendAssoc(old(h.log), [Call.OpenFile(fileName)], ReceivePlan(w1, fileName, url).trace);
    }

    /** The HTTP part of `downloadFile`: get `url`, check the status, copy the body into `fileName`. */
    static method Receive(h: Host, fileName: string, url: string) returns (r: Result<string>)
      modifies h
      ensures var f := ReceivePlan(old(h.world), fileName, url);
        r == f.result && h.log == old(h.log) + f.trace && h.world == f.world
    {
      var resp := h.Get(url);
      if resp.Err? {
        return Err(resp.error);
      }
      if !(resp.value >= 200 && resp.value < 400) {
        return Err(BadStatus(url));
      }
      var copied := h.Copy(url, fileName);
      if copied.Err? {
        return Err(copied.error);
      }
      r := Ok(fileName);
    }
  }
}
