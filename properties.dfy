/**
 * What the plans promise: the guarantees of `Path`, `download`,
 * `downloadFile`, `extractFile` and `stripDir`, each stated over all inputs.
 * The loader's methods are proved equal to these plans, so every lemma here
 * is a statement about the loader itself.
 */
module Properties {
  import opened Paths
  import opened FileSystem
  import opened Plans

  // ---------------------------------------------------------------- path()

  /** `path()` may run many times: applying the override again changes nothing. */
  lemma ResolvedIdempotent(srcs: seq<SrcInfo>, c: Config, p: Platform)
    ensures Resolved(srcs, Resolved(srcs, c, p), p) == Resolved(srcs, c, p)
  {
    var s := p.select(srcs);
    if s.Some? && s.value.execPath != "" {
      NormaliseIdempotent(s.value.execPath, c.autoExe, p.goos);
    }
  }

  /**
   * `path()` changes only the executable name: to the selected source's
   * override (normalised) when there is one, and keeps it otherwise.
   */
  lemma ResolvedOverride(srcs: seq<SrcInfo>, c: Config, p: Platform)
    ensures var r := Resolved(srcs, c, p);
      && r.dest == c.dest && r.strip == c.strip && r.autoExe == c.autoExe
      && (p.select(srcs).Some? && p.select(srcs).value.execPath != "" ==> r.execPath == Normalise(p.select(srcs).value.execPath, c.autoExe, p.goos))
      && (p.select(srcs).None? || p.select(srcs).value.execPath == "" ==> r.execPath == c.execPath)
      && (c.autoExe && p.goos == "windows" && p.select(srcs).Some? && p.select(srcs).value.execPath != "" ==> HasExeExt(r.execPath, p.goos))
  {
    var s := p.select(srcs);
    if s.Some? && s.value.execPath != "" {
      NormaliseMeaning(s.value.execPath, c.autoExe, p.goos);
    }
  }

  // ---------------------------------------------------------------- Path

  /** With no sources, `Path` only computes the path: no effect, nothing changes. */
  lemma PathWithoutSources(w: World, srcs: seq<SrcInfo>, c: Config, p: Platform)
    requires |srcs| == 0
    ensures var l := PathPlan(w, srcs, c, p);
      l.run == Run(Ok(PathOf(srcs, c, p)), [], w) && l.config == Resolved(srcs, c, p)
  {
  }

  /** With sources and the binary already in place, `Path` returns its path without any effect. */
  lemma {:induction false} PathWhenPresent(w: World, srcs: seq<SrcInfo>, c: Config, p: Platform)
    requires |srcs| > 0 && Attempt(w, Stat(PathOf(srcs, c, p))).Ok?
    ensures var l := PathPlan(w, srcs, c, p);
      l.run == Run(Ok(PathOf(srcs, c, p)), [], w) && l.config == Resolved(srcs, c, p)
  {
    ResolvedIdempotent(srcs, c, p);
  }

  /** A stat error other than "does not exist" is returned unchanged, before any effect. */
  lemma PathStatError(w: World, srcs: seq<SrcInfo>, c: Config, p: Platform)
    requires |srcs| > 0
    requires Attempt(w, Stat(PathOf(srcs, c, p))).Err? && !Attempt(w, Stat(PathOf(srcs, c, p))).error.NotExist?
    ensures var l := PathPlan(w, srcs, c, p);
      l.run == Run(Err(Attempt(w, Stat(PathOf(srcs, c, p))).error), [], w)
  {
  }

  /**
   * A missing binary is downloaded: `Path` performs exactly the download's
   * effects, returns its error, or on success the path computed afresh.
   */
  lemma {:induction false} PathDownloadsWhenMissing(w: World, srcs: seq<SrcInfo>, c: Config, p: Platform)
    requires |srcs| > 0 && Attempt(w, Stat(PathOf(srcs, c, p))).Err? && Attempt(w, Stat(PathOf(srcs, c, p))).error.NotExist?
    ensures var l := PathPlan(w, srcs, c, p);
      var d := DownloadPlan(w, srcs, Resolved(srcs, c, p), p);
      && l.run.trace == d.run.trace && l.run.world == d.run.world
      && (d.run.result.Err? ==> l.run.result == Err(d.run.result.error) && l.config == d.config)
      && (d.run.result.Ok? ==> l.run.result == Ok(PathOf(srcs, d.config, p)))
  {
    ResolvedIdempotent(srcs, c, p);
  }

  /** The only effects `Path` performs are those of a download, and only when the stat said "does not exist". */
  lemma {:induction false} PathEffectsNeedDownload(w: World, srcs: seq<SrcInfo>, c: Config, p: Platform)
    requires PathPlan(w, srcs, c, p).run.trace != []
    ensures |srcs| > 0 && Attempt(w, Stat(PathOf(srcs, c, p))) == Err(NotExist(PathOf(srcs, c, p)))
  {
  }

  // ---------------------------------------------------------------- download

  /** Without a matching source, `download` fails before any effect and changes nothing. */
  lemma DownloadUnsupported(w: World, srcs: seq<SrcInfo>, c: Config, p: Platform)
    requires p.select(srcs).None?
    ensures DownloadPlan(w, srcs, c, p) == Loaded(Run(Err(Unsupported), [], w), c)
  {
  }

  /**
   * With a matching source, `download` first creates the destination ("."
   * when unset), fails exactly when the download or the extraction fails,
   * and applies the source's override only when both succeed.
   */
  lemma {:induction false} DownloadOutcome(w: World, srcs: seq<SrcInfo>, c: Config, p: Platform)
    requires p.select(srcs).Some?
    ensures var src := p.select(srcs).value;
      var d := DownloadPlan(w, srcs, c, p);
      var fetched := DownloadFilePlan(w, c.dest, src.url, p.parseUrl, Separator(p.goos));
      && d.run.trace != [] && d.run.trace[0] == MkdirAll(DefaultDest(c.dest))
      && d.config.dest == DefaultDest(c.dest) && d.config.strip == c.strip && d.config.autoExe == c.autoExe
      && (fetched.result.Err? ==> d.run == Run(Err(fetched.result.error), fetched.trace, fetched.world))
      && (fetched.result.Ok? ==>
            var x := ExtractPlan(fetched.world, fetched.result.value, DefaultDest(c.dest), c.strip, Separator(p.goos));
            d.run == Run(x.result, fetched.trace + x.trace, x.world))
      && (d.run.result.Err? ==> d.config.execPath == c.execPath)
      && (d.run.result.Ok? ==> d.config.execPath == (if src.execPath != "" then Normalise(src.execPath, c.autoExe, p.goos) else c.execPath))
  {
    var src := p.select(srcs).value;
    DownloadFileStartsWithMkdir(w, c.dest, src.url, p.parseUrl, Separator(p.goos));
  }

  // ---------------------------------------------------------------- downloadFile

  /** `downloadFile` always starts by creating its destination, "." when none was set. */
  lemma DownloadFileStartsWithMkdir(w: World, dest: string, url: string, parseUrl: string -> Option<string>, sep: char)
    ensures var r := DownloadFilePlan(w, dest, url, parseUrl, sep);
      r.trace != [] && r.trace[0] == MkdirAll(DefaultDest(dest))
  {
  }

  /**
   * A successful `downloadFile` created the destination, opened the file
   * named after the last "/"-segment of the URL's path inside it, got an
   * accepted status and copied the body into that file, in that order.
   */
  lemma DownloadFileSuccess(w: World, dest: string, url: string, parseUrl: string -> Option<string>, sep: char)
    requires DownloadFilePlan(w, dest, url, parseUrl, sep).result.Ok?
    ensures var r := DownloadFilePlan(w, dest, url, parseUrl, sep);
      && parseUrl(url).Some?
      && r.result.value == Join(DefaultDest(dest), AfterLast(parseUrl(url).value, '/'), sep)
      && url in w.responses && Accepted(w.responses[url])
      && r.trace == [MkdirAll(DefaultDest(dest)), OpenFile(r.result.value), Get(url), Copy(url, r.result.value)]
  {
  }

  /**
   * Once the destination is created and the file opened, the download
   * succeeds exactly when the server answers with a status in [200, 400) and
   * the copy goes through; a rejected status copies nothing.
   */
  lemma DownloadFileStatus(w: World, dest: string, url: string, parseUrl: string -> Option<string>, sep: char)
    requires Attempt(w, MkdirAll(DefaultDest(dest))).Ok? && parseUrl(url).Some?
    requires var file := Join(DefaultDest(dest), AfterLast(parseUrl(url).value, '/'), sep);
      Attempt(After(w, MkdirAll(DefaultDest(dest))), OpenFile(file)).Ok?
    requires url in w.responses
    ensures var r := DownloadFilePlan(w, dest, url, parseUrl, sep);
      var file := Join(DefaultDest(dest), AfterLast(parseUrl(url).value, '/'), sep);
      && (!Accepted(w.responses[url]) ==> r.result == Err(BadStatus(url)) && Copy(url, file) !in r.trace)
      && (Accepted(w.responses[url]) && Copy(url, file) !in w.faults ==> r.result == Ok(file))
  {
  }

  // ---------------------------------------------------------------- extractFile

  /** `extractFile` unpacks first and removes the downloaded file last, on every path. */
  lemma ExtractAlwaysRemoves(w: World, file: string, dest: string, strip: int, sep: char)
    ensures var x := ExtractPlan(w, file, dest, strip, sep);
      |x.trace| >= 2 && x.trace[0] == Unarchive(file, dest) && x.trace[|x.trace| - 1] == Remove(file)
  {
  }

  /**
   * A failed extraction is returned without any stripping: whatever the
   * archiver wrote before failing stays, and only the download is removed.
   */
  lemma ExtractErrorSkipsStrip(w: World, file: string, dest: string, strip: int, sep: char)
    requires Attempt(w, Unarchive(file, dest)).Err?
    ensures ExtractPlan(w, file, dest, strip, sep)
      == Run(Err(Attempt(w, Unarchive(file, dest)).error), [Unarchive(file, dest), Remove(file)],
             After(After(w, Unarchive(file, dest)), Remove(file)))
  {
  }

  /** With `strip == 0` the extracted tree is left as it is: only the download is removed. */
  lemma ExtractWithoutStrip(w: World, file: string, dest: string, sep: char)
    requires Attempt(w, Unarchive(file, dest)).Ok?
    ensures ExtractPlan(w, file, dest, 0, sep)
      == Run(Ok(()), [Unarchive(file, dest), Remove(file)], After(After(w, Unarchive(file, dest)), Remove(file)))
  {
  }

  // ---------------------------------------------------------------- stripDir

  /** `RunUntilError` performs a prefix of the calls, and all of them when none fails. */
  lemma {:induction false} RunUntilErrorPrefix(w: World, cs: seq<Call>)
    ensures var r := RunUntilError(w, cs);
      && |r.trace| <= |cs| && r.trace == cs[..|r.trace|]
      && (r.result.Ok? ==> r.trace == cs)
      && (r.result.Err? ==> r.trace != [])
    decreases |cs|
  {
    if cs != [] {
      var init := cs[..|cs| - 1];
      RunUntilErrorPrefix(w, init);
      var prev := RunUntilError(w, init);
      if prev.result.Err? {
        assert cs[..|prev.trace|] == init[..|prev.trace|];
      } else {
        assert cs == init + [cs[|cs| - 1]];
      }
    }
  }

  /**
   * When `RunUntilError` fails, the calls before the last one it made all
   * succeeded, and that last call failed with the error it returns.
   */
  lemma {:induction false} RunUntilErrorFailure(w: World, cs: seq<Call>)
    requires RunUntilError(w, cs).result.Err?
    ensures var r := RunUntilError(w, cs);
      && 0 < |r.trace| <= |cs|
      && RunUntilError(w, cs[..|r.trace| - 1]) == Run(Ok(()), cs[..|r.trace| - 1], r.world)
      && Attempt(r.world, cs[|r.trace| - 1]) == Err(r.result.error)
    decreases |cs|
  {
    RunUntilErrorPrefix(w, cs);
    var init := cs[..|cs| - 1];
    if RunUntilError(w, init).result.Err? {
      RunUntilErrorFailure(w, init);
      FailureCarriesOver(w, cs);
    } else {
      FailureAtLast(w, cs);
    }
  }

  /** A failure before the last call is the failure of the whole run. */
  lemma FailureCarriesOver(w: World, cs: seq<Call>)
    requires cs != [] && RunUntilError(w, cs[..|cs| - 1]).result.Err?
    requires var r := RunUntilError(w, cs[..|cs| - 1]);
      && 0 < |r.trace| <= |cs| - 1
      && RunUntilError(w, cs[..|cs| - 1][..|r.trace| - 1]) == Run(Ok(()), cs[..|cs| - 1][..|r.trace| - 1], r.world)
      && Attempt(r.world, cs[..|cs| - 1][|r.trace| - 1]) == Err(r.result.error)
    ensures var r := RunUntilError(w, cs);
      && 0 < |r.trace| <= |cs|
      && RunUntilError(w, cs[..|r.trace| - 1]) == Run(Ok(()), cs[..|r.trace| - 1], r.world)
      && Attempt(r.world, cs[|r.trace| - 1]) == Err(r.result.error)
  {
    var init := cs[..|cs| - 1];
    var n := |RunUntilError(w, init).trace|;
    assert cs[..n - 1] == init[..n - 1];
    assert cs[n - 1] == init[n - 1];
  }

  /** A run whose calls before the last all succeed fails, if at all, at the last call. */
  lemma FailureAtLast(w: World, cs: seq<Call>)
    requires cs != [] && RunUntilError(w, cs).result.Err?
    requires RunUntilError(w, cs[..|cs| - 1]).result.Ok?
    ensures var r := RunUntilError(w, cs);
      && |r.trace| == |cs|
      && RunUntilError(w, cs[..|r.trace| - 1]) == Run(Ok(()), cs[..|r.trace| - 1], r.world)
      && Attempt(r.world, cs[|r.trace| - 1]) == Err(r.result.error)
  {
    var init := cs[..|cs| - 1];
    RunUntilErrorPrefix(w, init);
  }

  /** A level without a directory entry keeps the descent where it is, however many levels remain. */
  lemma {:induction false} DescendStaysWithoutDirectory(
    w: World, dest: string, dir: string, recorded: seq<string>, levels: nat, sep: char, files: seq<Entry>)
    requires ListingOf(w, dir) == Ok(files) && FirstDir(files).None?
    ensures Descend(w, dest, dir, recorded, levels, sep) == Ok((dir, recorded))
    decreases levels
  {
    if levels > 0 {
      DescendStaysWithoutDirectory(w, dest, dir, recorded, levels - 1, sep, files);
    }
  }

  /** Directory listings hold no empty name and no ".", as `ioutil.ReadDir` guarantees. */
  predicate ProperNames(w: World) {
    forall i | 0 <= i < |w.nodes| && w.nodes[i].1.Dir? ::
      forall e | e in w.nodes[i].1.entries :: e.name != "" && e.name != "."
  }

  /** `a` is a directory strictly above `d`. */
  predicate StrictAncestor(a: string, d: string, sep: char) {
    |a| < |d| && d[..|a|] == a && d[|a|] == sep
  }

  /**
   * What holds of the descent at every level: before it first moves, it is
   * at `dest` with nothing recorded; afterwards it is at a proper path other
   * than `dest`, `dest` is not recorded, and every recorded directory lies
   * strictly above the current one.
   */
  predicate DescentState(dest: string, dir: string, recorded: seq<string>, sep: char) {
    (dir == dest && recorded == [])
    || (&& dir != "" && dir != "." && dir != dest && |dir| >= |dest|
        && dest !in recorded
        && forall i :: 0 <= i < |recorded| ==> StrictAncestor(recorded[i], dir, sep))
  }

  /** One step down keeps the descent's state. */
  lemma DescentStep(w: World, dest: string, dir: string, recorded: seq<string>, sep: char, files: seq<Entry>, k: nat)
    requires ProperNames(w) && DescentState(dest, dir, recorded, sep)
    requires ListingOf(w, dir) == Ok(files) && k < |files|
    ensures DescentState(dest, Join(dir, files[k].name, sep), if dir != dest then recorded + [dir] else recorded, sep)
  {
    var at := LookupFound(w.nodes, dir);
    assert files[k] in w.nodes[at].1.entries;
    var name := files[k].name;
    var next := Join(dir, name, sep);
    if dir != dest {
      assert next == dir + [sep] + name;
      var rec := recorded + [dir];
      forall i | 0 <= i < |rec|
        ensures StrictAncestor(rec[i], next, sep)
      {
        if i < |recorded| {
          assert StrictAncestor(recorded[i], dir, sep);
          assert next[..|dir|] == dir;
          assert next[..|recorded[i]|] == dir[..|recorded[i]|];
        } else {
          assert next[..|dir|] == dir;
        }
      }
    }
  }

  /**
   * `stripDir`'s descent never records `dest`, records only directories
   * strictly above the one it ends in, and records at most one fewer
   * directory than the levels it descends.
   */
  lemma {:induction false} DescendRecordsAncestors(
    w: World, dest: string, dir: string, recorded: seq<string>, levels: nat, sep: char)
    requires ProperNames(w) && DescentState(dest, dir, recorded, sep)
    ensures match Descend(w, dest, dir, recorded, levels, sep)
      case Err(_) => true
      case Ok((final, rec)) =>
        && DescentState(dest, final, rec, sep)
        && |rec| + (if dir == dest && levels > 0 then 1 else 0) <= |recorded| + levels
    decreases levels
  {
    if levels > 0 {
      match ListingOf(w, dir)
      case Err(_) =>
      case Ok(files) =>
        match FirstDir(files)
        case None =>
          DescendRecordsAncestors(w, dest, dir, recorded, levels - 1, sep);
        case Some(k) =>
          var next := Join(dir, files[k].name, sep);
          var more := if dir != dest then recorded + [dir] else recorded;
          DescentStep(w, dest, dir, recorded, sep, files, k);
          DescendRecordsAncestors(w, dest, next, more, levels - 1, sep);
    }
  }

  /** From `dest`, the directories `stripDir` removes are strict ancestors of the one it empties, and never `dest`. */
  lemma StripRemovesOnlyAncestors(w: World, dest: string, strip: int, sep: char)
    requires ProperNames(w)
    ensures match Descend(w, dest, dest, [], Levels(strip), sep)
      case Err(_) => true
      case Ok((final, rec)) =>
        && dest !in rec
        && (forall i :: 0 <= i < |rec| ==> StrictAncestor(rec[i], final, sep))
        && (strip > 0 ==> |rec| < strip)
        && (strip <= 0 ==> final == dest && rec == [])
  {
    DescendRecordsAncestors(w, dest, dest, [], Levels(strip), sep);
  }

  /**
   * After the descent, `stripDir` renames every entry of the directory it
   * reached into `dest` (keeping its name), stopping at the first failed
   * rename, and only when all renames succeeded removes the recorded
   * directories.
   */
  lemma StripOutcome(w: World, dest: string, strip: int, sep: char, final: string, rec: seq<string>, files: seq<Entry>)
    requires Descend(w, dest, dest, [], Levels(strip), sep) == Ok((final, rec))
    requires ListingOf(w, final) == Ok(files)
    ensures var s := StripPlan(w, dest, strip, sep);
      var renames := Renames(final, dest, files, sep);
      && (s.result.Ok? <==> RunUntilError(w, renames).result.Ok?)
      && (s.result.Ok? ==> s.trace == renames + RemoveAlls(rec))
      && (s.result.Err? ==>
            && s.trace != [] && |s.trace| <= |renames| && s.trace == renames[..|s.trace|]
            && (forall i :: 0 <= i < |s.trace| ==> !s.trace[i].RemoveAll?)
            && Attempt(s.world, s.trace[|s.trace| - 1]) == Err(s.result.error))
  {
    var renames := Renames(final, dest, files, sep);
    RunUntilErrorPrefix(w, renames);
    if RunUntilError(w, renames).result.Err? {
      RunUntilErrorFailure(w, renames);
    }
    var r := RunUntilError(w, renames);
    if r.result.Err? {
      forall i | 0 <= i < |r.trace|
        ensures !r.trace[i].RemoveAll?
      {
        assert r.trace[i] == renames[i];
      }
    }
  }

  /** A failed listing during the descent aborts `stripDir` before any effect. */
  lemma StripListingError(w: World, dest: string, strip: int, sep: char)
    requires Descend(w, dest, dest, [], Levels(strip), sep).Err?
    ensures StripPlan(w, dest, strip, sep) == Run(Err(Descend(w, dest, dest, [], Levels(strip), sep).error), [], w)
  {
  }

  /** A failed listing of the directory the descent ends in aborts `stripDir` before any effect. */
  lemma StripFinalListingError(w: World, dest: string, strip: int, sep: char, dir: string, recorded: seq<string>)
    requires Descend(w, dest, dest, [], Levels(strip), sep) == Ok((dir, recorded))
    requires ListingOf(w, dir).Err?
    ensures StripPlan(w, dest, strip, sep) == Run(Err(ListingOf(w, dir).error), [], w)
  {
  }

  /**
   * With a negative strip the descent stays at `dest`, so `stripDir` renames
   * each entry of `dest` onto itself. If the first entry is a directory,
   * that rename is refused and `stripDir` fails after that one call.
   */
  lemma NegativeStripRefusesDirectory(w: World, dest: string, strip: int, sep: char, files: seq<Entry>)
    requires strip < 0 && ListingOf(w, dest) == Ok(files) && files != []
    requires IsDir(w.nodes, Join(dest, files[0].name, sep))
    ensures var self := Join(dest, files[0].name, sep);
      StripPlan(w, dest, strip, sep) == Run(Err(Failed(Rename(self, self))), [Rename(self, self)], w)
  {
    var renames := Renames(dest, dest, files, sep);
    assert renames[..1][..0] == [];
    assert renames[..1] == [renames[0]];
    RunUntilErrorStops(w, renames, 1);
  }
}
