/**
 * What one resolution of the binary's path does, as pure functions of the
 * loader's configuration and the world it runs in. Each function follows one
 * method of the loader: `Resolved` is `path()`, `PathPlan` is `Path` with
 * `findExisting`, `DownloadPlan` is `download`, `DownloadFilePlan` is
 * `downloadFile`, `ExtractPlan` is `extractFile` and `StripPlan` with
 * `Descend` is `stripDir`. A plan gives the error or value returned, the
 * effects performed in order and the world left behind.
 */
module Plans {
  import opened Paths
  import opened FileSystem

  /** The fields of one source: URL, target OS and architecture, executable override. */
  datatype SrcInfo = SrcInfo(url: string, os: string, arch: string, execPath: string)

  /** The loader's own fields besides its sources. */
  datatype Config = Config(dest: string, execPath: string, strip: int, autoExe: bool)

  /**
   * What the loader takes from its surroundings: the running OS, the
   * platform selector applied to the sources, and the URL parser (the path
   * of a parsed URL, or `None` when it does not parse).
   */
  datatype Platform = Platform(
    goos: string,
    select: seq<SrcInfo> -> Option<SrcInfo>,
    parseUrl: string -> Option<string>)

  datatype Run<T> = Run(result: Result<T>, trace: seq<Call>, world: World)

  /** A run together with the configuration it leaves. */
  datatype Loaded<T> = Loaded(run: Run<T>, config: Config)

  // ---------------------------------------------------------------- path()

  /** The executable name `path()` stores: the selected source's non-empty override, normalised. */
  function Resolved(srcs: seq<SrcInfo>, c: Config, p: Platform): Config {
    var s := p.select(srcs);
    if s.Some? && s.value.execPath != "" then c.(execPath := Normalise(s.value.execPath, c.autoExe, p.goos))
    else c
  }

  /** The path `path()` returns. */
  function PathOf(srcs: seq<SrcInfo>, c: Config, p: Platform): string {
    var r := Resolved(srcs, c, p);
    Location(r.dest, r.execPath, p.goos)
  }

  // ---------------------------------------------------------------- stripDir

  /** The index of the first directory in a listing. */
  function FirstDir(files: seq<Entry>): (r: Option<nat>)
    ensures r.Some? ==> r.value < |files| && files[r.value].isDir
    ensures r.Some? ==> forall j :: 0 <= j < r.value ==> !files[j].isDir
    ensures r.None? ==> forall j :: 0 <= j < |files| ==> !files[j].isDir
  {
    if files == [] then None
    else if files[0].isDir then Some(0)
    else match FirstDir(files[1..])
      case None => None
      case Some(k) => Some(k + 1)
  }

  /** The number of times `stripDir`'s first loop runs. */
  function Levels(strip: int): nat {
    if strip > 0 then strip else 0
  }

  /**
   * The first loop of `stripDir`: `levels` more times, read `dir` and move
   * into its first directory entry, recording `dir` for removal unless it is
   * `dest`. Gives the deepest directory and the recorded ones.
   */
  function Descend(w: World, dest: string, dir: string, recorded: seq<string>, levels: nat, sep: char)
    : Result<(string, seq<string>)>
    decreases levels
  {
    if levels == 0 then Ok((dir, recorded))
    else match ListingOf(w, dir)
      case Err(e) => Err(e)
      case Ok(files) =>
        match FirstDir(files)
        case None => Descend(w, dest, dir, recorded, levels - 1, sep)
        case Some(k) =>
          Descend(w, dest, Join(dir, files[k].name, sep),
                  if dir != dest then recorded + [dir] else recorded, levels - 1, sep)
  }

  /** One rename per entry of `dir`, into `dest` under the same name. */
  function Renames(dir: string, dest: string, files: seq<Entry>, sep: char): (r: seq<Call>)
    ensures |r| == |files|
    ensures forall i :: 0 <= i < |files| ==>
      r[i] == Rename(Join(dir, files[i].name, sep), Join(dest, files[i].name, sep))
  {
    seq(|files|, i requires 0 <= i < |files| => Rename(Join(dir, files[i].name, sep), Join(dest, files[i].name, sep)))
  }

  /** One remove-all per recorded directory. */
  function RemoveAlls(dirs: seq<string>): (r: seq<Call>)
    ensures |r| == |dirs|
    ensures forall i :: 0 <= i < |dirs| ==> r[i] == RemoveAll(dirs[i])
  {
    seq(|dirs|, i requires 0 <= i < |dirs| => RemoveAll(dirs[i]))
  }

  /** Performs `cs` in order, stopping at the first call that fails. */
  function RunUntilError(w: World, cs: seq<Call>): Run<()>
    decreases |cs|
  {
    if cs == [] then Run(Ok(()), [], w)
    else
      var prev := RunUntilError(w, cs[..|cs| - 1]);
      var last := cs[|cs| - 1];
      if prev.result.Err? then prev
      else match Attempt(prev.world, last)
        case Err(e) => Run(Err(e), prev.trace + [last], prev.world)
        case Ok(_) => Run(Ok(()), prev.trace + [last], After(prev.world, last))
  }

  /** Once a prefix of `cs` has failed, the rest of `cs` is never performed. */
  lemma {:induction false} RunUntilErrorStops(w: World, cs: seq<Call>, k: nat)
    requires k <= |cs| && RunUntilError(w, cs[..k]).result.Err?
    ensures RunUntilError(w, cs) == RunUntilError(w, cs[..k])
    decreases |cs|
  {
    if k < |cs| {
      assert cs[..|cs| - 1][..k] == cs[..k];
      RunUntilErrorStops(w, cs[..|cs| - 1], k);
    } else {
      assert cs[..k] == cs;
    }
  }

  /** One more call after a prefix that ran without error. */
  lemma RunUntilErrorNext(w: World, cs: seq<Call>, j: nat, v: World)
    requires j < |cs| && RunUntilError(w, cs[..j]) == Run(Ok(()), cs[..j], v)
    ensures RunUntilError(w, cs[..j + 1]) ==
      if Attempt(v, cs[j]).Err? then Run(Err(Attempt(v, cs[j]).error), cs[..j + 1], v)
      else Run(Ok(()), cs[..j + 1], After(v, cs[j]))
  {
    assert cs[..j + 1][..j] == cs[..j];
  }

  /** A log that grew by the next call of `cs` holds one more call of `cs`. */
  lemma LogNext(log: seq<Call>, cs: seq<Call>, j: nat)
    requires j < |cs|
    ensures log + cs[..j] + [cs[j]] == log + cs[..j + 1]
  {
    assert cs[..j + 1] == cs[..j] + [cs[j]];
  }

  /** Performs all of `cs` in order, ignoring their errors. */
  function RunAll(w: World, cs: seq<Call>): World
    decreases |cs|
  {
    if cs == [] then w else After(RunAll(w, cs[..|cs| - 1]), cs[|cs| - 1])
  }

  /** `stripDir`. */
  function StripPlan(w: World, dest: string, strip: int, sep: char): Run<()> {
    match Descend(w, dest, dest, [], Levels(strip), sep)
    case Err(e) => Run(Err(e), [], w)
    case Ok((dir, recorded)) =>
      match ListingOf(w, dir)
      case Err(e) => Run(Err(e), [], w)
      case Ok(files) =>
        var moved := RunUntilError(w, Renames(dir, dest, files, sep));
        if moved.result.Err? then moved
        else Run(Ok(()), moved.trace + RemoveAlls(recorded), RunAll(moved.world, RemoveAlls(recorded)))
  }

  // ---------------------------------------------------------------- extractFile

  /** `extractFile`: unpack, strip unless `strip == 0`, and always remove the downloaded file. */
  function ExtractPlan(w: World, file: string, dest: string, strip: int, sep: char): Run<()> {
    var unpack := Unarchive(file, dest);
    var unpacked := After(w, unpack);
    var cleanup := Remove(file);
    match Attempt(w, unpack)
    case Err(e) => Run(Err(e), [unpack, cleanup], After(unpacked, cleanup))
    case Ok(_) =>
      if strip == 0 then Run(Ok(()), [unpack, cleanup], After(unpacked, cleanup))
      else
        var s := StripPlan(unpacked, dest, strip, sep);
        Run(s.result, [unpack] + s.trace + [cleanup], After(s.world, cleanup))
  }

  // ---------------------------------------------------------------- downloadFile

  /** The destination `downloadFile` uses: "." when none was set. */
  function DefaultDest(dest: string): (r: string)
    ensures r != ""
    ensures dest != "" ==> r == dest
    ensures dest == "" ==> r == "."
  {
    if dest == "" then "." else dest
  }

  /** An HTTP status `downloadFile` accepts. */
  predicate Accepted(code: int) {
    200 <= code < 400
  }

  /** The calls `cs` happened before `r`. */
  function Prepend<T>(cs: seq<Call>, r: Run<T>): Run<T> {
    Run(r.result, cs + r.trace, r.world)
  }

  /**
   * `downloadFile`: create the destination, open the target file named after
   * the last "/"-segment of the URL's path, fetch the URL, check the status
   * and copy the body. Gives the target file's path.
   */
  function DownloadFilePlan(w: World, dest: string, url: string, parseUrl: string -> Option<string>, sep: char)
    : Run<string>
  {
    var d := DefaultDest(dest);
    var mkdir := MkdirAll(d);
    match Attempt(w, mkdir)
    case Err(e) => Run(Err(e), [mkdir], w)
    case Ok(_) =>
      match parseUrl(url)
      case None => Run(Err(BadUrl(url)), [mkdir], After(w, mkdir))
      case Some(path) => Prepend([mkdir], FetchPlan(After(w, mkdir), Join(d, AfterLast(path, '/'), sep), url))
  }

  /** The rest of `downloadFile`, once the destination exists: open `file`, then fetch `url` into it. */
  function FetchPlan(w: World, file: string, url: string): Run<string> {
    var open := OpenFile(file);
    match Attempt(w, open)
    case Err(e) => Run(Err(e), [open], w)
    case Ok(_) => Prepend([open], ReceivePlan(After(w, open), file, url))
  }

  /** The HTTP part of `downloadFile`: get `url`, check its status, copy the body into `file`. */
  function ReceivePlan(w: World, file: string, url: string): Run<string> {
    var get := Get(url);
    var copy := Copy(url, file);
    match Attempt(w, get)
    case Err(e) => Run(Err(e), [get], w)
    case Ok(reply) =>
      if !reply.Status? || !Accepted(reply.code) then Run(Err(BadStatus(url)), [get], w)
      else match Attempt(w, copy)
        case Err(e) => Run(Err(e), [get, copy], w)
        case Ok(_) => Run(Ok(file), [get, copy], After(w, copy))
  }

  // ---------------------------------------------------------------- download

  /**
   * `download`: select a source, download and extract it, and only then
   * apply its executable override.
   */
  function DownloadPlan(w: World, srcs: seq<SrcInfo>, c: Config, p: Platform): Loaded<()> {
    match p.select(srcs)
    case None => Loaded(Run(Err(Unsupported), [], w), c)
    case Some(src) =>
      var fetched := DownloadFilePlan(w, c.dest, src.url, p.parseUrl, Separator(p.goos));
      var c1 := c.(dest := DefaultDest(c.dest));
      match fetched.result
      case Err(e) => Loaded(Run(Err(e), fetched.trace, fetched.world), c1)
      case Ok(file) =>
        var i := InstallPlan(fetched.world, file, src, c1, p);
        Loaded(Prepend(fetched.trace, i.run), i.config)
  }

  /** The rest of `download` once the file is there: extract it, then apply the override. */
  function InstallPlan(w: World, file: string, src: SrcInfo, c: Config, p: Platform): Loaded<()> {
    var x := ExtractPlan(w, file, c.dest, c.strip, Separator(p.goos));
    if x.result.Err? then Loaded(x, c)
    else Loaded(x, if src.execPath != "" then c.(execPath := Normalise(src.execPath, c.autoExe, p.goos)) else c)
  }

  // ---------------------------------------------------------------- Path

  /**
   * `findExisting`: stat the computed path; download when it does not exist,
   * return any other error unchanged.
   */
  function FindPlan(w: World, srcs: seq<SrcInfo>, c: Config, p: Platform): Loaded<()> {
    var c1 := Resolved(srcs, c, p);
    match Attempt(w, Stat(Location(c1.dest, c1.execPath, p.goos)))
    case Err(NotExist(_)) => DownloadPlan(w, srcs, Resolved(srcs, c1, p), p)
    case Err(e) => Loaded(Run(Err(e), [], w), c1)
    case Ok(_) => Loaded(Run(Ok(()), [], w), c1)
  }

  /** `Path`: with sources, `findExisting` first; then the path is computed again. */
  function PathPlan(w: World, srcs: seq<SrcInfo>, c: Config, p: Platform): Loaded<string> {
    var f := if |srcs| == 0 then Loaded(Run(Ok(()), [], w), c) else FindPlan(w, srcs, c, p);
    if f.run.result.Err? then Loaded(Run(Err(f.run.result.error), f.run.trace, f.run.world), f.config)
    else
      var c1 := Resolved(srcs, f.config, p);
      Loaded(Run(Ok(Location(c1.dest, c1.execPath, p.goos)), f.run.trace, f.run.world), c1)
  }
}
