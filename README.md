# go-binloader, modelled in Dafny

go-binloader finds a platform-specific executable on disk and installs it on
first use. A `BinLoader` is configured through builder calls:

- a list of download sources (`Src`: URL, OS, architecture, optional
  executable name);
- a destination directory;
- an executable name;
- a number of leading archive directories to strip;
- an auto-exe flag, which appends ".exe" on Windows.

`Path()` computes where the binary should be and stats it. When it does not
exist, the loader does the following:

1. picks the source for the running system;
2. downloads its archive into the destination;
3. unpacks it and, if asked, strips leading directories (`stripDir`);
4. removes the downloaded archive;
5. returns the path.

The model keeps the program's imperative form. `Src` and `BinLoader` are
classes whose builder methods update their fields in place. `Path`,
`findExisting`, `download`, `extractFile`, `stripDir` (with its three
loops) and `downloadFile` are methods that run against a `Host`.

- The `Host` holds an abstract world and the outcomes of the HTTP client
  and the archiver. The filesystem in that world is a list of path-node
  pairs, where the first pair for a path is the one that counts. Each
  directory node holds its listing in a fixed order.
- `MkdirAll`, `OpenFile` and `Unarchive` put new pairs in front of that
  list. `Remove`, `RemoveAll` and `Rename` are recursive functions on it.
  Lemmas state, for every path, what `Lookup` finds there after the call.
- The host also holds a log of the effects performed.
- Each method is proved to do exactly what a pure plan function describes.
  The plan gives the value or error returned, the effects performed in
  order, the world left behind and the configuration left behind.
- The lemmas in `properties.dfy` state what the plans guarantee.

Files:

- `paths.dfy`: `filepath.Ext`, ASCII lower-casing, the auto-exe
  normalisation, `filepath.Join` on clean paths, the last-segment split
  and `path()`'s location formula.
- `filesystem.dfy`: the world, the effects (`Attempt` and `After`) and the
  `Host` class.
- `plans.dfy`: one plan function per loader method.
- `loader.dfy`: the `Src` and `BinLoader` classes.
- `properties.dfy`: the guarantees.
- `scenario.dfy`: the builder chain of the repository's test.

Where the documented behaviour and the code differ, the model follows the code:

- With `strip == 1`, no directory is removed. The descent never records its
  first level (binloader.go:205), so the emptied top-level directory stays
  in the destination. `Properties.StripRemovesOnlyAncestors` shows that at
  most `strip - 1` directories are recorded.
- A negative strip is accepted. The descent then runs no level. But
  `extractFile` only skips stripping for exactly 0 (binloader.go:183), so
  the entries of the destination are renamed onto themselves. A file
  renamed onto itself is left alone, but `os.Rename` refuses a directory
  target, so `stripDir` fails when the destination's first listed entry is
  a directory (`Properties.NegativeStripRefusesDirectory`). `Path` then
  returns that error even though the archive was unpacked.
- Errors are the underlying call's error, not wrapped in kinds of their own.
- The source selector is not modelled as "first match with wildcards". Its
  definition is not part of this model (see below).

## Model

| member | source | states |
|---|---|---|
| Paths.ExtStart | binloader.go:116 | `filepath.Ext` starts at the last '.' of the final path element. No '.' or separator comes after it. With -1, every '.' is followed by a separator. |
| Paths.ExtOfExeSuffix | binloader.go:116-119 | After ".exe" is appended, the extension is ".exe", so the name passes the auto-exe test. |
| Paths.NormaliseMeaning | binloader.go:113-125 | The stored name is the given name or the name plus ".exe". With auto-exe on "windows" its lower-cased extension is ".exe". On other systems, without auto-exe, or when the extension already is ".exe", the name is unchanged. |
| Paths.NormaliseIdempotent | binloader.go:113-125 | Applying `ExecPath` to its own result changes nothing. |
| Paths.AutoExeCommutes | binloader.go:127-131 | `ExecPath(n).AutoExe()` and `AutoExe().ExecPath(n)` store the same name, whatever the flag was before. |
| Paths.LastIndex | binloader.go:255-256 | The position of the last `c` in `s`, or -1; no `c` comes after it. |
| Paths.SplitAtLast | binloader.go:255-256 | Splitting `head + [c] + tail` at its last `c`, when `tail` has no `c`, returns `tail` as the last segment and `head` as the rest. |
| Paths.LocationSplits | binloader.go:105-109 | For a non-empty destination and a one-element name, the path `path()` returns splits back into that destination (including ".") and that name. |
| Paths.JoinDropsDot | binloader.go:105-109 | On every system, `Join(".", n)` drops the ".", while `path()` keeps "." followed by the separator and `n`. This is why the source special-cases ".". |
| FileSystem.Host.Stat | binloader.go:134-136 | Succeeds iff the path exists and the stat is not failed. Otherwise the error is "does not exist", except for an injected failure or a path below a regular file ("not a directory", for which `os.IsNotExist` is false). Nothing is logged. |
| FileSystem.Host.ReadDir | binloader.go:196 | Returns the directory's listing, or the error for a missing path, a file or a failure. Nothing changes. |
| FileSystem.Host.MkdirAll | binloader.go:241 | The result and new world follow `Attempt`/`After` for `MkdirAll`, and the call is logged. |
| FileSystem.Host.OpenFile | binloader.go:258 | The same for creating or truncating the target file. |
| FileSystem.Host.Get | binloader.go:273 | Returns the status the server answers, or a transport error for an unreachable URL. The call is logged. |
| FileSystem.Host.Copy | binloader.go:285 | The same for copying the body into the file. |
| FileSystem.Host.Unarchive | binloader.go:176 | The same for unpacking an archive into the destination. |
| FileSystem.Host.Remove | binloader.go:175 | The same for removing the downloaded file. |
| FileSystem.Host.Rename | binloader.go:222 | The same for moving one entry into the destination. |
| FileSystem.FileAboveMeaning | binloader.go:134-136 | A path lies below a regular file exactly when one of its prefixes ending before a separator holds a file. |
| FileSystem.Host.RemoveAll | binloader.go:230 | The same for removing a recorded directory. |
| FileSystem.LookupFound | binloader.go:134 | What `Lookup` finds is stored in the first pair for that path. |
| FileSystem.LookupAppend | binloader.go:176 | In a list placed in front, the first pairs hide what comes after them. |
| FileSystem.RemoveTreeLookup | binloader.go:230 | Removing a tree empties exactly the paths within it and keeps every other path. |
| FileSystem.RemovePathLookup | binloader.go:175 | Removing a path empties exactly that path and keeps every other path. |
| FileSystem.RebaseLookup | binloader.go:222 | Re-rooting stores at `target + t` what was at `source + t`, for every `t` that stays within `source`, and nothing at `target + t` for any other `t`. |
| FileSystem.RebaseOutside | binloader.go:222 | Re-rooting stores nothing outside `target`. |
| FileSystem.RenameMoves | binloader.go:222 | A successful `os.Rename(a, b)` moves the whole tree: every path `a + t` within `a` then holds at `b + t`. |
| FileSystem.RenameFrame | binloader.go:222 | A successful rename between different paths leaves every path outside both source and target as it was. A path within the source but outside the target is left empty. |
| FileSystem.RenameVacates | binloader.go:222 | After a successful rename to a path that does not contain `a`, nothing is left at `a`. |
| FileSystem.RemoveAllEmpties | binloader.go:230 | A successful `os.RemoveAll(p)` empties exactly the paths within `p` and keeps every other path. |
| FileSystem.RemoveEmpties | binloader.go:175 | A successful `os.Remove(p)` empties exactly `p` and keeps every other path. |
| FileSystem.RemoveRefusesNonEmpty | binloader.go:175 | `os.Remove` fails on a directory that still holds something, and then changes nothing. |
| FileSystem.RenameRefuses | binloader.go:222 | `os.Rename` fails, changing nothing, on any directory target (an empty one, and the source itself), on a target inside the source, and when a directory would replace a file. |
| FileSystem.MkdirAllCreates | binloader.go:241 | A successful `os.MkdirAll(p)` leaves a directory at `p`, creates an empty one only when nothing was there, and changes no other path. |
| FileSystem.OpenFileCreates | binloader.go:258 | A successful create-and-truncate leaves a regular file at `p` and changes no other path. |
| FileSystem.UnarchiveOverlays | binloader.go:176 | A successful unpack of a file into a destination lays the archive's tree for that pair over the filesystem: each path holds the archive's node if it has one, and its old node otherwise. |
| FileSystem.UnarchiveFailureLeavesPartial | binloader.go:176-180 | A failed unpack may leave part of its tree: it lays its partial tree for that pair, if any, over the filesystem, and otherwise changes nothing. |
| Plans.FirstDir | binloader.go:202-212 | The index of the first directory entry in listing order: it is a directory and none comes before it. `None` when there is no directory. |
| Plans.DefaultDest | binloader.go:237-239 | The destination `downloadFile` uses is never empty. It is "." when none was set, and the configured one otherwise. |
| Plans.RunUntilErrorNext | binloader.go:221-227 | After renames that all succeeded, the next rename either fails, stopping the run with its error, or succeeds and moves the world on. |
| Plans.RunUntilErrorStops | binloader.go:221-227 | Once a prefix of the renames has failed, none of the remaining renames is performed. |
| Loader.Src.constructor | binloader.go:34-36 | A new source has every field empty. |
| Loader.Src.URL | binloader.go:39-42 | Sets the URL and returns the same source. |
| Loader.Src.Os | binloader.go:45-48 | Sets the OS and returns the same source. |
| Loader.Src.Arch | binloader.go:51-54 | Sets the architecture and returns the same source. |
| Loader.Src.ExecPath | binloader.go:57-60 | Sets the executable override and returns the same source. |
| Loader.BinLoader.constructor | binloader.go:63-65 | A new loader has no sources, an empty destination and name, strip 0 and auto-exe off. |
| Loader.BinLoader.AddSrc | binloader.go:68-71 | Appends the source at the end of the list and returns the same loader. |
| Loader.BinLoader.Dest | binloader.go:74-77 | Sets the destination and returns the same loader. |
| Loader.BinLoader.Strip | binloader.go:80-83 | Sets the strip count and returns the same loader. |
| Loader.BinLoader.ExecPath | binloader.go:113-125 | Stores the auto-exe normalisation of the name (see `Paths.NormaliseMeaning`). |
| Loader.BinLoader.AutoExe | binloader.go:127-131 | Sets the flag and stores the current name normalised with auto-exe on. |
| Loader.BinLoader.LocalPath | binloader.go:98-110 | Applies the selected source's non-empty override through `ExecPath`. Returns "." + separator + name when the destination is ".", and `Join(dest, name)` otherwise. |
| Loader.BinLoader.FindExisting | binloader.go:133-144 | Does exactly what `FindPlan` does: its result, its effects in order, the world and configuration it leaves. |
| Loader.BinLoader.Path | binloader.go:86-96 | Does exactly what `PathPlan` does, on a host whose separator is the platform's. |
| Loader.BinLoader.Download | binloader.go:146-172 | Does exactly what `DownloadPlan` does. |
| Loader.BinLoader.Install | binloader.go:161-171 | Extracts, then applies the source's override only when extraction succeeded (`InstallPlan`). |
| Loader.BinLoader.ExtractFile | binloader.go:174-188 | Does exactly what `ExtractPlan` does. |
| Loader.BinLoader.StripDir | binloader.go:190-234 | Does exactly what `StripPlan` does. |
| Loader.BinLoader.DescendFrom | binloader.go:191-213 | The first loop computes `Descend` from the destination, and only reads the filesystem. |
| Loader.BinLoader.FirstDirIndex | binloader.go:202-212 | The inner search returns `FirstDir` of the listing. |
| Loader.BinLoader.MoveEntries | binloader.go:221-227 | The rename loop renames each entry, stopping at the first error (`RunUntilError` of the renames). |
| Loader.BinLoader.RemoveDirs | binloader.go:229-231 | The removal loop removes every recorded directory in order, ignoring errors. |
| Loader.BinLoader.DownloadFile | binloader.go:236-257 | Sets the destination to "." when it was empty, and does exactly what `DownloadFilePlan` does. |
| Loader.BinLoader.Fetch | binloader.go:258-288 | Opens the target file, then receives the body (`FetchPlan`). A failed open stops before any request. |
| Loader.BinLoader.Receive | binloader.go:273-288 | Gets the URL, rejects a status outside [200, 400) before copying, then copies the body into the file (`ReceivePlan`). |
| Properties.ResolvedIdempotent | binloader.go:98-103 | Applying `path()`'s override a second time changes nothing. |
| Properties.ResolvedOverride | binloader.go:98-103 | `path()` changes only the executable name. When the selected source has a non-empty override, the name becomes that override, normalised. The name is kept when there is no override. With auto-exe on "windows" an override gets the ".exe" extension. |
| Properties.PathWithoutSources | binloader.go:86-95 | With no sources, `Path` returns `path()` without any effect and leaves the world unchanged. |
| Properties.PathWhenPresent | binloader.go:86-144 | With sources and the binary in place, `Path` returns its path without any effect and without downloading. |
| Properties.PathStatError | binloader.go:133-144 | A stat error other than "does not exist" is returned unchanged, before any effect. |
| Properties.PathDownloadsWhenMissing | binloader.go:86-144 | When the binary does not exist, `Path` performs exactly the download's effects. It returns the download's error, or on success the path computed afresh. |
| Properties.PathEffectsNeedDownload | binloader.go:86-144 | If `Path` performs any effect, there were sources and the stat reported "does not exist". |
| Properties.DownloadUnsupported | binloader.go:146-151 | Without a matching source, `download` fails before any effect and changes nothing. |
| Properties.DownloadOutcome | binloader.go:146-172 | With a source, `download` first creates the destination ("." if unset), and the download's and extraction's errors propagate. The override is applied only when both succeed. The destination becomes "." even on failure. |
| Properties.DownloadFileStartsWithMkdir | binloader.go:236-245 | `downloadFile` always starts by creating its destination, "." when none was set. |
| Properties.DownloadFileSuccess | binloader.go:236-288 | A successful download created the destination, opened `Join(dest, last "/"-segment of the URL path)`, got an accepted status and copied the body into that file, in that order. |
| Properties.DownloadFileStatus | binloader.go:273-287 | Once the file is open, a status outside [200, 400) fails with nothing copied. An accepted status with a working copy succeeds. |
| Properties.ExtractAlwaysRemoves | binloader.go:174-188 | On every path the first effect unpacks the archive and the last removes the downloaded file. |
| Properties.ExtractErrorSkipsStrip | binloader.go:176-181 | A failed unpack returns its error after removing the file, with no stripping. What the archiver wrote before failing stays. |
| Properties.ExtractWithoutStrip | binloader.go:183-185 | With strip 0 the extracted tree is left as unpacked; only the download is removed. |
| Properties.RunUntilErrorPrefix | binloader.go:221-227 | The renames performed are a prefix of the entries' renames: all of them when none fails, at least one when one fails. |
| Properties.RunUntilErrorFailure | binloader.go:221-227 | On failure, every rename before the last one performed succeeded, and the last one failed with the error returned. |
| Properties.DescendStaysWithoutDirectory | binloader.go:195-213 | A level with no directory entry keeps the descent where it is for all remaining levels. |
| Properties.DescentStep | binloader.go:202-211 | One step into the first directory keeps the descent's invariant: `dest` is not recorded, and recorded directories lie above the current one. |
| Properties.DescendRecordsAncestors | binloader.go:195-213 | The descent never records `dest`, every recorded directory lies strictly above the final one, and it records at most one fewer directory than the levels it runs. |
| Properties.StripRemovesOnlyAncestors | binloader.go:190-231 | From the destination, the directories `stripDir` removes are strict ancestors of the one it empties, are never `dest`, and number fewer than `strip`. A strip of 0 or less stays at `dest`. |
| Properties.StripOutcome | binloader.go:215-233 | `stripDir` succeeds iff every rename of the final directory's entries into `dest` succeeds, and then the recorded directories are removed. A failed rename aborts with no removal, and its error is the one returned. |
| Properties.StripListingError | binloader.go:195-200 | A failed listing during the descent aborts `stripDir` before any effect. |
| Properties.StripFinalListingError | binloader.go:215-219 | A failed listing of the directory the descent ends in aborts `stripDir` with that error, before any effect. |
| Properties.NegativeStripRefusesDirectory | binloader.go:190-226 | With a negative strip whose destination's first entry is a directory, `stripDir` makes one rename of that entry onto itself, which fails, and returns that error with the world unchanged. |
| Scenario.NewSource | binloader_test.go:56-58 | `NewSrc().URL(u).Os(o).Arch(a)` yields a fresh source with those fields and no override. |
| Scenario.WebpLoader | binloader_test.go:54-81 | The test's builder chain gives five sources, the first being the darwin one, and the configuration below. |
| Scenario.AddRest | binloader_test.go:59-78 | The other four sources are appended after the existing ones in the test's order: Linux x86, Linux x64, Windows x64, Windows x86, with their URLs. |
| Scenario.Configure | binloader_test.go:79-81 | `Strip(2).Dest("deps/cwebp").ExecPath("cwebp").AutoExe()` leaves strip 2, destination "deps/cwebp" and auto-exe on. The name is "cwebp.exe" on "windows" and "cwebp" elsewhere. |

## Left out

- The source selector `osFilterObj` is not part of this model: it is called at binloader.go:99 and binloader.go:147 but defined elsewhere. It is a parameter of the platform (`Platform.select`), and no matching rule is asserted for it.
- `runtime.GOOS` is a parameter of the platform; the path separator follows from it.
- `url.Parse` is a parameter (`Platform.parseUrl`) that gives the URL's path or fails.
- The HTTP transport, the redirect hook, response bodies and closing them are left out. A request has an abstract outcome: the status served for the URL, or a transport error.
- `io.Copy` and the data written are left out. A copy succeeds unless it is an injected failure, and file contents are not modelled.
- `archiver.Unarchive` and format detection are left out. Each file that unpacks into a given destination has an abstract tree for that pair, written over the filesystem. Any other unpack fails, and a failed unpack writes its abstract partial tree for that pair, if there is one.
- `filepath.Join` and `filepath.Clean` are modelled only for clean inputs. Empty elements are dropped and a leading "." disappears. Other cleaning, such as "..", duplicate separators or trailing separators, is not modelled.
- `strings.ToLower` is treated as ASCII lower-casing. That is exact for the comparison with ".exe", but not for other Unicode text.
- `ioutil.ReadDir` sorts entries by name. The model uses each directory's stored listing order instead.
- Listings are data of their own. `MkdirAll`, `OpenFile`, `Rename` and `RemoveAll` change which paths exist but do not update parent listings, `MkdirAll` does not create missing parents, and `Unarchive` writes its tree's listings as given.
- `fmt.Printf` progress messages, file permission bits and `file.Close` are left out.
- The errors of `os.Remove` in the deferred cleanup and of `os.RemoveAll` are ignored, as in the source. Both still take effect when they succeed.
- The error values are abstract (`NotExist`, `Failed(call)`, `Unsupported`, `BadUrl`, `BadStatus`). Go's error texts are not modelled.
- Concurrency is left out. Other programs do not change the filesystem during a call.
- `os.Rename` follows Go's Unix implementation. A missing source is "does not exist". A directory target is refused, and so are a target inside the source, a directory replacing a file, and a target below a file. A file replaces a file or itself. Go's Windows implementation is not modelled.
- Paths are compared as literal strings. With destination ".", `path()` stats "./n" while the download writes to `Join(".", n)`, which is "n". Go's `os.Stat` resolves both to the same file, but in the model they are different keys. So with destination "." the model's `Path` downloads again when only "n" exists, where Go finds the cached binary.
- `ioutil.ReadDir` of a path below a regular file reports "does not exist" rather than "not a directory". Its only caller, `stripDir`, returns every listing error unchanged, so the two are not told apart.
- The host's path separator (`World.sep`, used to decide which paths lie within others) is required to be the platform's separator (used by `Join`) on `Path`, `FindExisting` and `Download`. The plan functions take the separator as a parameter.
- Loader.BinLoader.DownloadFile: the part after the destination is the methods `Fetch` and `Receive`, which it calls in order; together they perform `downloadFile`'s effects in order. On a failed copy, Go returns the file name together with the error. The model returns only the error, because the only caller drops the name whenever the error is set.
- Loader.BinLoader.Download: the `download` logic is split between `Download` and `Install` to keep each proof small. The effects and their order are those of the single Go function.
- Loader.BinLoader.StripDir: `stripDir`'s three loops are the methods `DescendFrom`, `MoveEntries` and `RemoveDirs`, which it calls in order. Each loop is unchanged.
- Scenario.WebpLoader: adds the first source itself and leaves the other four to `AddRest`, which states their values.
