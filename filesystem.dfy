/**
 * The loader's environment: an abstract filesystem together with the outcomes
 * of its external collaborators (the HTTP client and the archive extractor).
 *
 * The filesystem is a list of path-node pairs. The first pair for a path is
 * the one that counts, so a write puts a new pair in front. A directory node
 * holds its entries in a fixed listing order. Every external effect is a
 * `Call`; `Attempt` says whether it succeeds in a given world and `After`
 * gives the world it leaves behind (a failed call changes nothing). Failures
 * that do not follow from the state (I/O errors, a truncated download) are
 * injected through the world's `faults`.
 */
module FileSystem {

  datatype Option<T> = None | Some(value: T)

  /** One entry of a directory listing (Go's `os.FileInfo`, name and kind). */
  datatype Entry = Entry(name: string, isDir: bool)

  datatype Node = File | Dir(entries: seq<Entry>)

  /** The external calls the loader makes. */
  datatype Call =
    | Stat(path: string)
    | ReadDir(path: string)
    | MkdirAll(path: string)
    | OpenFile(path: string)
    | Get(url: string)
    | Copy(url: string, path: string)
    | Unarchive(file: string, dest: string)
    | Remove(path: string)
    | Rename(source: string, target: string)
    | RemoveAll(path: string)

  datatype Error =
    | NotExist(path: string)  // an error for which `os.IsNotExist` holds
    | Failed(call: Call)      // any other error, identified by the call that returned it
    | Unsupported             // no source matches the running system
    | BadUrl(url: string)     // `url.Parse` rejected the source URL
    | BadStatus(url: string)  // the HTTP status is outside [200, 400)

  datatype Result<T> = Ok(value: T) | Err(error: Error)

  datatype Reply = Done | Listing(entries: seq<Entry>) | Status(code: int)

  /** Paths with what is stored there, the first pair for a path being the one that counts. */
  type Nodes = seq<(string, Node)>

  /**
   * `nodes` is the filesystem, `faults` the calls that fail with an I/O error,
   * `responses` the HTTP status served for each reachable URL (an absent URL
   * is a transport error), `archives` the tree the archiver writes when it
   * unpacks a file into a destination, `partials` what it leaves behind when
   * that unpacking fails part-way, and `sep` the path separator.
   */
  datatype World = World(
    nodes: Nodes,
    faults: set<Call>,
    responses: map<string, int>,
    archives: map<(string, string), Nodes>,
    partials: map<(string, string), Nodes>,
    sep: char)

  /** What is stored at `p`, if anything. */
  function Lookup(nodes: Nodes, p: string): Option<Node>
    decreases |nodes|
  {
    if nodes == [] then None
    else if nodes[0].0 == p then Some(nodes[0].1)
    else Lookup(nodes[1..], p)
  }

  /** What `Lookup` finds is the node of the first pair for `p`. */
  lemma {:induction false} LookupFound(nodes: Nodes, p: string) returns (i: nat)
    requires Lookup(nodes, p).Some?
    ensures i < |nodes| && nodes[i] == (p, Lookup(nodes, p).value)
    ensures forall j :: 0 <= j < i ==> nodes[j].0 != p
    decreases |nodes|
  {
    if nodes[0].0 == p {
      i := 0;
    } else {
      var t := LookupFound(nodes[1..], p);
      i := t + 1;
    }
  }

  /** `k` is `p` itself or a path below it. */
  predicate Within(k: string, p: string, sep: char) {
    k == p || (|p| < |k| && k[..|p|] == p && k[|p|] == sep)
  }

  /** The filesystem without `p` and everything below it. */
  function RemoveTree(nodes: Nodes, p: string, sep: char): Nodes
    decreases |nodes|
  {
    if nodes == [] then []
    else if Within(nodes[0].0, p, sep) then RemoveTree(nodes[1..], p, sep)
    else [nodes[0]] + RemoveTree(nodes[1..], p, sep)
  }

  /** The filesystem without the pairs for exactly `p`. */
  function RemovePath(nodes: Nodes, p: string): Nodes
    decreases |nodes|
  {
    if nodes == [] then []
    else if nodes[0].0 == p then RemovePath(nodes[1..], p)
    else [nodes[0]] + RemovePath(nodes[1..], p)
  }

  /** The pairs at and below `source`, re-rooted at `target`. */
  function Rebase(nodes: Nodes, source: string, target: string, sep: char): Nodes
    decreases |nodes|
  {
    if nodes == [] then []
    else if Within(nodes[0].0, source, sep) then
      [(target + nodes[0].0[|source|..], nodes[0].1)] + Rebase(nodes[1..], source, target, sep)
    else Rebase(nodes[1..], source, target, sep)
  }

  /** The filesystem with the tree at `source` moved to `target`, replacing what was there. */
  function MoveTree(nodes: Nodes, source: string, target: string, sep: char): Nodes {
    Rebase(nodes, source, target, sep) + RemoveTree(RemoveTree(nodes, source, sep), target, sep)
  }

  /** Something is stored strictly below `p`. */
  predicate HasBelow(nodes: Nodes, p: string, sep: char)
    decreases |nodes|
  {
    nodes != [] && ((nodes[0].0 != p && Within(nodes[0].0, p, sep)) || HasBelow(nodes[1..], p, sep))
  }

  /** A directory is stored at `p`. */
  predicate IsDir(nodes: Nodes, p: string) {
    Lookup(nodes, p).Some? && Lookup(nodes, p).value.Dir?
  }

  /** The directory `p` exists and holds something below it. */
  predicate NonEmptyDir(nodes: Nodes, p: string, sep: char) {
    IsDir(nodes, p) && HasBelow(nodes, p, sep)
  }

  /** One of the directory prefixes `p[..i]` of `p`, for `0 < i < n`, is a regular file. */
  predicate FileAbove(nodes: Nodes, p: string, sep: char, n: nat)
    decreases n
  {
    0 < n <= |p|
    && ((n > 1 && p[n - 1] == sep && Lookup(nodes, p[..n - 1]) == Some(File)) || FileAbove(nodes, p, sep, n - 1))
  }

  /** `p` lies below a regular file, so the system answers "not a directory" for it. */
  predicate BelowFile(nodes: Nodes, p: string, sep: char) {
    FileAbove(nodes, p, sep, |p|)
  }

  /** `FileAbove` finds exactly the prefixes of `p` that end before a separator and hold a file. */
  lemma {:induction false} FileAboveMeaning(nodes: Nodes, p: string, sep: char, n: nat)
    requires n <= |p|
    ensures FileAbove(nodes, p, sep, n) <==>
      exists i :: 0 < i < n && p[i] == sep && Lookup(nodes, p[..i]) == Some(File)
    decreases n
  {
    if n > 0 {
      FileAboveMeaning(nodes, p, sep, n - 1);
      if n > 1 && p[n - 1] == sep && Lookup(nodes, p[..n - 1]) == Some(File) {
        assert 0 < n - 1 < n && p[n - 1] == sep;
      }
    }
  }

  /** The first pairs win: what `x` stores at `k` hides what `y` stores there. */
  lemma {:induction false} LookupAppend(x: Nodes, y: Nodes, k: string)
    ensures Lookup(x + y, k) == if Lookup(x, k).Some? then Lookup(x, k) else Lookup(y, k)
    decreases |x|
  {
    if x == [] {
      assert x + y == y;
    } else {
      assert (x + y)[1..] == x[1..] + y;
      LookupAppend(x[1..], y, k);
    }
  }

  /** `RemoveTree` empties exactly the paths within `p`. */
  lemma {:induction false} RemoveTreeLookup(nodes: Nodes, p: string, sep: char, k: string)
    ensures Lookup(RemoveTree(nodes, p, sep), k) == if Within(k, p, sep) then None else Lookup(nodes, k)
    decreases |nodes|
  {
    if nodes != [] {
      RemoveTreeLookup(nodes[1..], p, sep, k);
      if !Within(nodes[0].0, p, sep) {
        assert ([nodes[0]] + RemoveTree(nodes[1..], p, sep))[1..] == RemoveTree(nodes[1..], p, sep);
      }
    }
  }

  /** `RemovePath` empties exactly the path `p`. */
  lemma {:induction false} RemovePathLookup(nodes: Nodes, p: string, k: string)
    ensures Lookup(RemovePath(nodes, p), k) == if k == p then None else Lookup(nodes, k)
    decreases |nodes|
  {
    if nodes != [] {
      RemovePathLookup(nodes[1..], p, k);
      if nodes[0].0 != p {
        assert ([nodes[0]] + RemovePath(nodes[1..], p))[1..] == RemovePath(nodes[1..], p);
      }
    }
  }

  /** A path within `source` split into `source` and the rest. */
  lemma WithinSplits(k: string, source: string, sep: char)
    requires Within(k, source, sep)
    ensures k == source + k[|source|..]
  {
    if k != source {
      assert k == k[..|source|] + k[|source|..];
    }
  }

  /** `Rebase` stores at `target + t` what was stored at `source + t`, for every `t` that keeps within `source`. */
  lemma {:induction false} RebaseLookup(nodes: Nodes, source: string, target: string, sep: char, t: string)
    ensures Lookup(Rebase(nodes, source, target, sep), target + t) ==
      if Within(source + t, source, sep) then Lookup(nodes, source + t) else None
    decreases |nodes|
  {
    if nodes != [] {
      var k := nodes[0].0;
      var rest := Rebase(nodes[1..], source, target, sep);
      RebaseLookup(nodes[1..], source, target, sep, t);
      if Within(k, source, sep) {
        WithinSplits(k, source, sep);
        var moved := target + k[|source|..];
        assert ([(moved, nodes[0].1)] + rest)[1..] == rest;
        if moved == target + t {
          assert moved[|target|..] == k[|source|..];
          assert (target + t)[|target|..] == t;
        }
      }
    }
  }

  /** `Rebase` stores nothing outside `target`. */
  lemma {:induction false} RebaseOutside(nodes: Nodes, source: string, target: string, sep: char, k: string)
    requires !Within(k, target, sep)
    ensures Lookup(Rebase(nodes, source, target, sep), k) == None
    decreases |nodes|
  {
    if nodes != [] {
      var rest := Rebase(nodes[1..], source, target, sep);
      RebaseOutside(nodes[1..], source, target, sep, k);
      var key := nodes[0].0;
      if Within(key, source, sep) {
        var moved := target + key[|source|..];
        assert ([(moved, nodes[0].1)] + rest)[1..] == rest;
        if key != source {
          assert moved[..|target|] == target && moved[|target|] == key[|source|];
        }
      }
    }
  }

  /** Whether the call `c` succeeds in world `w`, and what it answers. */
  function Attempt(w: World, c: Call): Result<Reply> {
    var failed := Err(Failed(c));
    match c
    case Stat(p) =>
      if c in w.faults then failed
      else if Lookup(w.nodes, p).Some? then Ok(Done)
      else if BelowFile(w.nodes, p, w.sep) then failed
      else Err(NotExist(p))
    case ReadDir(p) =>
      (match ListingOf(w, p)
        case Err(e) => Err(e)
        case Ok(entries) => Ok(Listing(entries)))
    case MkdirAll(p) =>
      if c in w.faults || Lookup(w.nodes, p) == Some(File) || BelowFile(w.nodes, p, w.sep) then failed else Ok(Done)
    case OpenFile(p) =>
      if c in w.faults || IsDir(w.nodes, p) || BelowFile(w.nodes, p, w.sep) then failed else Ok(Done)
    case Get(u) =>
      if u in w.responses then Ok(Status(w.responses[u])) else failed
    case Copy(_, _) =>
      if c in w.faults then failed else Ok(Done)
    case Unarchive(f, d) =>
      if c in w.faults || (f, d) !in w.archives then failed else Ok(Done)
    case Remove(p) =>
      if c in w.faults then failed
      else if Lookup(w.nodes, p).None? then Err(NotExist(p))
      else if NonEmptyDir(w.nodes, p, w.sep) then failed
      else Ok(Done)
    case Rename(a, b) =>
      if c in w.faults then failed
      else if Lookup(w.nodes, a).None? then Err(NotExist(a))
      // Go refuses every directory target, `a` itself included
      else if IsDir(w.nodes, b) then failed
      else if b != a && Within(b, a, w.sep) then failed
      // a directory cannot replace a file
      else if IsDir(w.nodes, a) && Lookup(w.nodes, b).Some? then failed
      else if BelowFile(w.nodes, b, w.sep) then failed
      else Ok(Done)
    case RemoveAll(_) =>
      if c in w.faults then failed else Ok(Done)
  }

  /**
   * The world the call `c` leaves behind. A failed call leaves `w` as it was,
   * except a failed unpack, which may have written part of its tree.
   */
  function After(w: World, c: Call): (r: World)
    ensures r.faults == w.faults && r.responses == w.responses
    ensures r.archives == w.archives && r.partials == w.partials && r.sep == w.sep
    ensures Attempt(w, c).Err? && !c.Unarchive? ==> r == w
    ensures c.Stat? || c.ReadDir? || c.Get? || c.Copy? ==> r == w
  {
    if Attempt(w, c).Err? then
      if c.Unarchive? && (c.file, c.dest) in w.partials then w.(nodes := w.partials[(c.file, c.dest)] + w.nodes)
      else w
    else match c
      case MkdirAll(p) => if Lookup(w.nodes, p).Some? then w else w.(nodes := [(p, Dir([]))] + w.nodes)
      case OpenFile(p) => w.(nodes := [(p, File)] + w.nodes)
      case Unarchive(f, d) => w.(nodes := w.archives[(f, d)] + w.nodes)
      case Remove(p) => w.(nodes := RemovePath(w.nodes, p))
      case Rename(a, b) => if a == b then w else w.(nodes := MoveTree(w.nodes, a, b, w.sep))
      case RemoveAll(p) => w.(nodes := RemoveTree(w.nodes, p, w.sep))
      case _ => w
  }

  /** A successful rename moves the whole tree at `a` to `b`. */
  lemma RenameMoves(w: World, a: string, b: string, t: string)
    requires Attempt(w, Rename(a, b)).Ok? && Within(a + t, a, w.sep)
    ensures Lookup(After(w, Rename(a, b)).nodes, b + t) == Lookup(w.nodes, a + t)
  {
    if a != b {
      var moved := Rebase(w.nodes, a, b, w.sep);
      var rest := RemoveTree(RemoveTree(w.nodes, a, w.sep), b, w.sep);
      LookupAppend(moved, rest, b + t);
      RebaseLookup(w.nodes, a, b, w.sep, t);
      RemoveTreeLookup(RemoveTree(w.nodes, a, w.sep), b, w.sep, b + t);
      if t != [] {
        assert (b + t)[..|b|] == b && (b + t)[|b|] == (a + t)[|a|];
      }
    }
  }

  /** After a successful rename to another path outside it, nothing is left at `a`. */
  lemma RenameVacates(w: World, a: string, b: string)
    requires Attempt(w, Rename(a, b)).Ok? && !Within(a, b, w.sep)
    ensures Lookup(After(w, Rename(a, b)).nodes, a) == None
  {
    var moved := Rebase(w.nodes, a, b, w.sep);
    var inner := RemoveTree(w.nodes, a, w.sep);
    LookupAppend(moved, RemoveTree(inner, b, w.sep), a);
    RebaseOutside(w.nodes, a, b, w.sep, a);
    RemoveTreeLookup(inner, b, w.sep, a);
    RemoveTreeLookup(w.nodes, a, w.sep, a);
  }

  /**
   * What a successful rename leaves alone: a path outside both `a` and `b`
   * keeps what it had, and one within `a` but outside `b` is vacated.
   */
  lemma RenameFrame(w: World, a: string, b: string, k: string)
    requires Attempt(w, Rename(a, b)).Ok? && a != b
    ensures !Within(k, a, w.sep) && !Within(k, b, w.sep) ==> Lookup(After(w, Rename(a, b)).nodes, k) == Lookup(w.nodes, k)
    ensures Within(k, a, w.sep) && !Within(k, b, w.sep) ==> Lookup(After(w, Rename(a, b)).nodes, k) == None
  {
    var moved := Rebase(w.nodes, a, b, w.sep);
    var inner := RemoveTree(w.nodes, a, w.sep);
    LookupAppend(moved, RemoveTree(inner, b, w.sep), k);
    if !Within(k, b, w.sep) {
      RebaseOutside(w.nodes, a, b, w.sep, k);
    }
    RemoveTreeLookup(inner, b, w.sep, k);
    RemoveTreeLookup(w.nodes, a, w.sep, k);
  }

  /** `os.RemoveAll` empties exactly the paths within `p`, unless it fails. */
  lemma RemoveAllEmpties(w: World, p: string, k: string)
    requires Attempt(w, RemoveAll(p)).Ok?
    ensures Lookup(After(w, RemoveAll(p)).nodes, k) == if Within(k, p, w.sep) then None else Lookup(w.nodes, k)
  {
    RemoveTreeLookup(w.nodes, p, w.sep, k);
  }

  /** `os.Remove` empties exactly the path `p`, unless it fails. */
  lemma RemoveEmpties(w: World, p: string, k: string)
    requires Attempt(w, Remove(p)).Ok?
    ensures Lookup(After(w, Remove(p)).nodes, k) == if k == p then None else Lookup(w.nodes, k)
  {
    RemovePathLookup(w.nodes, p, k);
  }

  /** Unpacking lays the archive's tree over the filesystem. */
  lemma UnarchiveOverlays(w: World, f: string, d: string, k: string)
    requires Attempt(w, Unarchive(f, d)).Ok?
    ensures (f, d) in w.archives
    ensures var tree := w.archives[(f, d)];
      Lookup(After(w, Unarchive(f, d)).nodes, k) == if Lookup(tree, k).Some? then Lookup(tree, k) else Lookup(w.nodes, k)
  {
    LookupAppend(w.archives[(f, d)], w.nodes, k);
  }

  /** A failed unpack lays what it wrote before failing, if anything, over the filesystem. */
  lemma UnarchiveFailureLeavesPartial(w: World, f: string, d: string, k: string)
    requires Attempt(w, Unarchive(f, d)).Err?
    ensures var partial := if (f, d) in w.partials then w.partials[(f, d)] else [];
      Lookup(After(w, Unarchive(f, d)).nodes, k) == if Lookup(partial, k).Some? then Lookup(partial, k) else Lookup(w.nodes, k)
  {
    if (f, d) in w.partials {
      LookupAppend(w.partials[(f, d)], w.nodes, k);
    }
  }

  /** `os.MkdirAll` leaves a directory at `p`, creating an empty one when nothing was there, and changes no other path. */
  lemma MkdirAllCreates(w: World, p: string, k: string)
    requires Attempt(w, MkdirAll(p)).Ok?
    ensures IsDir(After(w, MkdirAll(p)).nodes, p)
    ensures Lookup(After(w, MkdirAll(p)).nodes, k) ==
      if k == p && Lookup(w.nodes, p).None? then Some(Dir([])) else Lookup(w.nodes, k)
  {
  }

  /** `os.OpenFile` with create and truncate leaves a regular file at `p` and changes no other path. */
  lemma OpenFileCreates(w: World, p: string, k: string)
    requires Attempt(w, OpenFile(p)).Ok?
    ensures Lookup(After(w, OpenFile(p)).nodes, k) == if k == p then Some(File) else Lookup(w.nodes, k)
  {
  }

  /** `os.Remove` refuses a directory that still holds something. */
  lemma RemoveRefusesNonEmpty(w: World, p: string)
    requires NonEmptyDir(w.nodes, p, w.sep)
    ensures Attempt(w, Remove(p)).Err? && After(w, Remove(p)) == w
  {
  }

  /**
   * `os.Rename` refuses a directory target, even an empty one and even the
   * source itself, a target inside the source, and a file target for a
   * directory; a refused rename changes nothing.
   */
  lemma RenameRefuses(w: World, a: string, b: string)
    requires Lookup(w.nodes, a).Some?
    requires IsDir(w.nodes, b) || (b != a && Within(b, a, w.sep)) || (IsDir(w.nodes, a) && Lookup(w.nodes, b).Some?)
    ensures Attempt(w, Rename(a, b)).Err? && After(w, Rename(a, b)) == w
  {
  }

  /**
   * The entries `ioutil.ReadDir(dir)` returns, in listing order. It fails
   * for a missing path, a regular file or an injected failure.
   */
  function ListingOf(w: World, dir: string): (r: Result<seq<Entry>>)
    ensures r.Ok? <==> ReadDir(dir) !in w.faults && IsDir(w.nodes, dir)
    ensures r.Ok? ==> Lookup(w.nodes, dir) == Some(Dir(r.value))
    ensures r.Err? && ReadDir(dir) !in w.faults && Lookup(w.nodes, dir).None? ==> r.error == NotExist(dir)
  {
    if ReadDir(dir) in w.faults then Err(Failed(ReadDir(dir)))
    else match Lookup(w.nodes, dir)
      case None => Err(NotExist(dir))
      case Some(File) => Err(Failed(ReadDir(dir)))
      case Some(Dir(entries)) => Ok(entries)
  }

  /** Drops the reply of a call whose caller only looks at its error. */
  function Unit(r: Result<Reply>): Result<()> {
    if r.Err? then Err(r.error) else Ok(())
  }

  /** The host the loader runs on: the current world and the effects performed so far. */
  class Host {
    var world: World
    var log: seq<Call>

    constructor (w: World)
      ensures world == w && log == []
    {
      world := w;
      log := [];
    }

    /** The effect `c` was performed: the world moved on and the call was logged. */
    twostate predicate Performed(c: Call)
      reads this
    {
      world == After(old(world), c) && log == old(log) + [c]
    }

    method Perform(c: Call) returns (r: Result<Reply>)
      modifies this
      ensures r == Attempt(old(world), c) && Performed(c)
    {
      r := Attempt(world, c);
      world := After(world, c);
      log := log + [c];
    }

    /** `os.Stat`: only reads, so nothing is logged. */
    method Stat(path: string) returns (r: Result<()>)
      ensures r.Ok? <==> Lookup(world.nodes, path).Some? && Call.Stat(path) !in world.faults
      ensures r.Err? ==>
                r.error == if Call.Stat(path) in world.faults || BelowFile(world.nodes, path, world.sep)
                           then Failed(Call.Stat(path)) else NotExist(path)
    {
      r := Unit(Attempt(world, Call.Stat(path)));
    }

    /** `ioutil.ReadDir`: only reads, so nothing is logged. */
    method ReadDir(path: string) returns (r: Result<seq<Entry>>)
      ensures r == ListingOf(world, path)
    {
      r := ListingOf(world, path);
    }

    method MkdirAll(path: string) returns (r: Result<()>)
      modifies this
      ensures r == Unit(Attempt(old(world), Call.MkdirAll(path))) && Performed(Call.MkdirAll(path))
    {
      var reply := Perform(Call.MkdirAll(path));
      r := Unit(reply);
    }

    /** `os.OpenFile` with create and truncate. */
    method OpenFile(path: string) returns (r: Result<()>)
      modifies this
      ensures r == Unit(Attempt(old(world), Call.OpenFile(path))) && Performed(Call.OpenFile(path))
    {
      var reply := Perform(Call.OpenFile(path));
      r := Unit(reply);
    }

    /** An HTTP GET: the status code, or a transport error. */
    method Get(url: string) returns (r: Result<int>)
      modifies this
      ensures Performed(Call.Get(url))
      ensures r == if url in old(world).responses then Ok(old(world).responses[url]) else Err(Failed(Call.Get(url)))
    {
      var reply := Perform(Call.Get(url));
      r := if reply.Ok? then Ok(reply.value.code) else Err(reply.error);
    }

    /** `io.Copy` of the response body into the opened file. */
    method Copy(url: string, path: string) returns (r: Result<()>)
      modifies this
      ensures r == Unit(Attempt(old(world), Call.Copy(url, path))) && Performed(Call.Copy(url, path))
    {
      var reply := Perform(Call.Copy(url, path));
      r := Unit(reply);
    }

    /** `archiver.Unarchive`: writes the archive's tree, or fails. */
    method Unarchive(file: string, dest: string) returns (r: Result<()>)
      modifies this
      ensures r == Unit(Attempt(old(world), Call.Unarchive(file, dest))) && Performed(Call.Unarchive(file, dest))
    {
      var reply := Perform(Call.Unarchive(file, dest));
      r := Unit(reply);
    }

    method Remove(path: string) returns (r: Result<()>)
      modifies this
      ensures r == Unit(Attempt(old(world), Call.Remove(path))) && Performed(Call.Remove(path))
    {
      var reply := Perform(Call.Remove(path));
      r := Unit(reply);
    }

    method Rename(source: string, target: string) returns (r: Result<()>)
      modifies this
      ensures r == Unit(Attempt(old(world), Call.Rename(source, target))) && Performed(Call.Rename(source, target))
    {
      var reply := Perform(Call.Rename(source, target));
      r := Unit(reply);
    }

    method RemoveAll(path: string) returns (r: Result<()>)
      modifies this
      ensures r == Unit(Attempt(old(world), Call.RemoveAll(path))) && Performed(Call.RemoveAll(path))
    {
      var reply := Perform(Call.RemoveAll(path));
      r := Unit(reply);
    }
  }
}
