/**
 * The builder chain of the repository's own test: five sources for the
 * WebP tools, two leading directories stripped, installed under
 * "deps/cwebp" as "cwebp" with auto-exe.
 */
module Scenario {
  import opened Paths
  import opened FileSystem
  import opened Plans
  import opened Loader

  const Base := "https://storage.googleapis.com/downloads.webmproject.org/releases/webp/"

  /** `NewSrc().URL(url).Os(os).Arch(arch)`. */
  method NewSource(url: string, os: string, arch: string) returns (s: Src)
    ensures fresh(s) && s.Info() == SrcInfo(url, os, arch, "")
  {
    s := new Src();
    var self := s.URL(url);
    self := s.Os(os);
    self := s.Arch(arch);
  }

  /**
   * The loader the test configures: five sources, the first one added first,
   * and on "windows" auto-exe turns "cwebp" into "cwebp.exe".
   */
  method WebpLoader(platform: Platform) returns (b: BinLoader)
    ensures b.platform == platform && |b.src| == 5
    ensures b.src[0].Info() == SrcInfo(Base + "libwebp-0.6.0-mac-10.12.tar.gz", "darwin", "", "")
    ensures b.Cfg() == Config("deps/cwebp", if platform.goos == "windows" then "cwebp.exe" else "cwebp", 2, true)
  {
    b := new BinLoader(platform);
    var mac := NewSource(Base + "libwebp-0.6.0-mac-10.12.tar.gz", "darwin", "");
    var self := b.AddSrc(mac);
    AddRest(b);
    Configure(b);
  }

  /** The other four sources, the Linux ones before the Windows ones. */
  method AddRest(b: BinLoader)
    modifies b`src
    ensures |b.src| == |old(b.src)| + 4 && b.src[..|old(b.src)|] == old(b.src)
    ensures var n := |old(b.src)|;
      && b.src[n].Info() == SrcInfo(Base + "libwebp-0.6.0-linux-x86-32.tar.gz", "linux", "x86", "")
      && b.src[n + 1].Info() == SrcInfo(Base + "libwebp-0.6.0-linux-x86-64.tar.gz", "linux", "x64", "")
      && b.src[n + 2].Info() == SrcInfo(Base + "libwebp-0.6.0-windows-x64.zip", "win32", "x64", "")
      && b.src[n + 3].Info() == SrcInfo(Base + "libwebp-0.6.0-windows-x86.zip", "win32", "x86", "")
  {
    var linux32 := NewSource(Base + "libwebp-0.6.0-linux-x86-32.tar.gz", "linux", "x86");
    var linux64 := NewSource(Base + "libwebp-0.6.0-linux-x86-64.tar.gz", "linux", "x64");
    var win64 := NewSource(Base + "libwebp-0.6.0-windows-x64.zip", "win32", "x64");
    var win32 := NewSource(Base + "libwebp-0.6.0-windows-x86.zip", "win32", "x86");
    var self := b.AddSrc(linux32);
    self := b.AddSrc(linux64);
    self := b.AddSrc(win64);
    self := b.AddSrc(win32);
  }

  /** `Strip(2).Dest("deps/cwebp").ExecPath("cwebp").AutoExe()`, whatever the loader held before. */
  method Configure(b: BinLoader)
    modifies b`strip, b`dest, b`execPath, b`autoExe
    ensures b.Cfg() == Config("deps/cwebp", if b.platform.goos == "windows" then "cwebp.exe" else "cwebp", 2, true)
  {
    var self := b.Strip(2);
    self := b.Dest("deps/cwebp");
    self := b.ExecPath("cwebp");
    self := b.AutoExe();
    AutoExeCommutes("cwebp", old(b.autoExe), b.platform.goos);
    assert Ext("cwebp", b.platform.goos) == "";
    assert Lower("") == "";
    assert "cwebp" + ".exe" == "cwebp.exe";
  }
}
