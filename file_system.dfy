/** The part of the disk the package manager touches, as a value (FsState)
    and as the object that Node's `fs` calls update in place (Disk).
    Models FileSystemService.ensureDirectory/saveFile
    (src/services/fileSystem.ts) and the `fs.promises` readdir, stat,
    readFile, unlink and rmdir calls of the downloader. */
module FileSystem {
  import opened Wrappers
  import opened PathUtils

  newtype byte = x: int | 0 <= x < 256
  type Bytes = seq<byte>

  /** Regular files with their contents, directories, and the order in
      which the existing entries were created (the order `readdir` lists
      them in). */
  datatype FsState = FsState(files: map<Path, Bytes>, dirs: set<Path>, order: seq<Path>)

  predicate Exists(s: FsState, p: Path) {
    p in s.files || p in s.dirs
  }

  /** The creation order lists exactly the existing entries. */
  ghost predicate Valid(s: FsState) {
    forall p :: p in s.order <==> Exists(s, p)
  }

  function Listed(order: seq<Path>, p: Path): (r: seq<Path>)
    ensures forall q :: q in r <==> q in order || q == p
  {
    if p in order then order else order + [p]
  }

  function Without(order: seq<Path>, p: Path): (r: seq<Path>)
    ensures forall q :: q in r <==> q in order && q != p
  {
    if order == [] then []
    else if order[0] == p then Without(order[1..], p)
    else [order[0]] + Without(order[1..], p)
  }

  /** `q` is an entry directly inside directory `d`. */
  predicate IsChild(q: Path, d: Path) {
    LastIndex(q, '/').Some? && Dirname(q) == d
  }

  /** `mkdir(p, {recursive: true})` when `p` is missing: `p` and every
      missing ancestor are created, outermost first. */
  function Ensured(s: FsState, p: Path): (r: FsState)
    decreases |p|
    ensures r.files == s.files && s.dirs <= r.dirs
    ensures p != "" ==> p in r.dirs
    ensures forall d :: d in r.dirs && d !in s.dirs ==> d == p || IsUnder(p, d)
    ensures forall q :: q in s.order ==> q in r.order
  {
    if p == "" || p in s.dirs then s
    else
      var parent := Dirname(p);
      var s1 := Ensured(s, parent);
      assert forall d :: d in s1.dirs && d !in s.dirs ==> IsUnder(p, d) by {
        if LastIndex(p, '/').Some? {
          UnderDirname(p);
          forall d | d in s1.dirs && d !in s.dirs && d != parent ensures IsUnder(p, d) {
            UnderTransitive(p, parent, d);
          }
        }
      }
      FsState(s1.files, s1.dirs + {p}, Listed(s1.order, p))
  }

  /** `FileSystemService.saveFile(p, content)`: ensure the parent directory,
      then write (create or overwrite) the file. */
  function Written(s: FsState, p: Path, content: Bytes): (r: FsState)
    ensures r.files == s.files[p := content]
    ensures s.dirs <= r.dirs && forall q :: q in s.order ==> q in r.order
  {
    var s1 := Ensured(s, Dirname(p));
    FsState(s1.files[p := content], s1.dirs, Listed(s1.order, p))
  }

  /** `fs.promises.unlink(p)`. */
  function Unlinked(s: FsState, p: Path): (r: FsState)
    ensures r.files == s.files - {p} && r.dirs == s.dirs
  {
    FsState(s.files - {p}, s.dirs, Without(s.order, p))
  }

  /** No existing entry lies directly inside `p`. */
  predicate IsEmptyDir(s: FsState, p: Path) {
    && (forall q | q in s.files :: !IsChild(q, p))
    && (forall q | q in s.dirs :: !IsChild(q, p))
  }

  /** `fs.promises.rmdir(p)`: only an existing, empty directory goes. */
  function Removed(s: FsState, p: Path): (r: Result<FsState>)
    ensures r.Ok? <==> p in s.dirs && IsEmptyDir(s, p)
    ensures r.Ok? ==> r.value.files == s.files && r.value.dirs == s.dirs - {p}
  {
    if p !in s.dirs then Err("ENOENT: no such file or directory, rmdir '" + p + "'")
    else if !IsEmptyDir(s, p) then Err("ENOTEMPTY: directory not empty, rmdir '" + p + "'")
    else Ok(FsState(s.files, s.dirs - {p}, Without(s.order, p)))
  }

  /** The existing entries of `order` directly inside `d`, in order. */
  function ChildrenIn(s: FsState, order: seq<Path>, d: Path): (r: seq<Path>)
    ensures forall q :: q in r <==> q in order && Exists(s, q) && IsChild(q, d)
  {
    if order == [] then []
    else
      var rest := ChildrenIn(s, order[1..], d);
      if Exists(s, order[0]) && IsChild(order[0], d) then [order[0]] + rest else rest
  }

  /** `fs.promises.readdir(d)`, giving full paths rather than names. */
  function ReadDir(s: FsState, d: Path): (r: Result<seq<Path>>)
    ensures r.Ok? <==> d in s.dirs
    ensures r.Ok? ==> forall q :: q in r.value ==> Exists(s, q) && IsChild(q, d)
  {
    if d in s.dirs then Ok(ChildrenIn(s, s.order, d))
    else if d in s.files then Err("ENOTDIR: not a directory, scandir '" + d + "'")
    else Err("ENOENT: no such file or directory, scandir '" + d + "'")
  }

  // ---------------------------------------------------------------------
  // The creation order stays in step with the entries
  // ---------------------------------------------------------------------

  lemma {:induction false} EnsuredValid(s: FsState, p: Path)
    requires Valid(s)
    ensures Valid(Ensured(s, p))
    decreases |p|
  {
    if p != "" && p !in s.dirs {
      EnsuredValid(s, Dirname(p));
    }
  }

  /** Writing a file keeps the creation order listing exactly what exists. */
  lemma WrittenValid(s: FsState, p: Path, content: Bytes)
    requires Valid(s)
    ensures Valid(Written(s, p, content))
  {
    EnsuredValid(s, Dirname(p));
  }

  /** Unlinking and removing a directory keep it too. */
  lemma RemovalsValid(s: FsState, p: Path)
    requires Valid(s)
    ensures p !in s.dirs ==> Valid(Unlinked(s, p))
    ensures Removed(s, p).Ok? && p !in s.files ==> Valid(Removed(s, p).value)
  {
  }

  /** In a valid state readdir lists every entry of the directory. */
  lemma ReadDirComplete(s: FsState, d: Path, q: Path)
    requires Valid(s) && d in s.dirs
    requires Exists(s, q) && IsChild(q, d)
    ensures q in ReadDir(s, d).value
  {
  }

  // ---------------------------------------------------------------------
  // No entry is listed twice
  // ---------------------------------------------------------------------

  /** No path appears twice in the creation order. */
  predicate NoRepeats(order: seq<Path>) {
    forall i, j | 0 <= i < j < |order| :: order[i] != order[j]
  }

  lemma ConsNoRepeats(x: Path, rest: seq<Path>)
    requires NoRepeats(rest) && x !in rest
    ensures NoRepeats([x] + rest)
  {
    var r := [x] + rest;
    forall i, j | 0 <= i < j < |r| ensures r[i] != r[j] {
      if i > 0 {
        assert r[i] == rest[i - 1] && r[j] == rest[j - 1];
      } else {
        assert r[j] == rest[j - 1];
      }
    }
  }

  lemma HeadNotInTail(order: seq<Path>)
    requires NoRepeats(order) && order != []
    ensures order[0] !in order[1..] && NoRepeats(order[1..])
  {
    forall i, j | 0 <= i < j < |order[1..]| ensures order[1..][i] != order[1..][j] {
      assert order[1..][i] == order[i + 1] && order[1..][j] == order[j + 1];
    }
  }

  lemma ListedNoRepeats(order: seq<Path>, p: Path)
    requires NoRepeats(order)
    ensures NoRepeats(Listed(order, p))
  {
    if p !in order {
      var r := order + [p];
      forall i, j | 0 <= i < j < |r| ensures r[i] != r[j] {
        if j == |order| {
          assert r[i] == order[i];
        } else {
          assert r[i] == order[i] && r[j] == order[j];
        }
      }
    }
  }

  lemma {:induction false} WithoutNoRepeats(order: seq<Path>, p: Path)
    requires NoRepeats(order)
    ensures NoRepeats(Without(order, p))
    decreases |order|
  {
    if order != [] {
      HeadNotInTail(order);
      WithoutNoRepeats(order[1..], p);
      if order[0] != p {
        ConsNoRepeats(order[0], Without(order[1..], p));
      }
    }
  }

  lemma {:induction false} ChildrenInNoRepeats(s: FsState, order: seq<Path>, d: Path)
    requires NoRepeats(order)
    ensures NoRepeats(ChildrenIn(s, order, d))
    decreases |order|
  {
    if order != [] {
      HeadNotInTail(order);
      ChildrenInNoRepeats(s, order[1..], d);
      if Exists(s, order[0]) && IsChild(order[0], d) {
        ConsNoRepeats(order[0], ChildrenIn(s, order[1..], d));
      }
    }
  }

  lemma {:induction false} EnsuredNoRepeats(s: FsState, p: Path)
    requires NoRepeats(s.order)
    ensures NoRepeats(Ensured(s, p).order)
    decreases |p|
  {
    if p != "" && p !in s.dirs {
      EnsuredNoRepeats(s, Dirname(p));
      ListedNoRepeats(Ensured(s, Dirname(p)).order, p);
    }
  }

  /** Every operation on the disk keeps the creation order free of
      repeats. */
  lemma UpdatesNoRepeats(s: FsState, p: Path, content: Bytes)
    requires NoRepeats(s.order)
    ensures NoRepeats(Written(s, p, content).order)
    ensures NoRepeats(Unlinked(s, p).order)
    ensures Removed(s, p).Ok? ==> NoRepeats(Removed(s, p).value.order)
  {
    EnsuredNoRepeats(s, Dirname(p));
    ListedNoRepeats(Ensured(s, Dirname(p)).order, p);
    WithoutNoRepeats(s.order, p);
  }

  /** So readdir lists every entry once. */
  lemma ReadDirNoRepeats(s: FsState, d: Path)
    requires NoRepeats(s.order) && d in s.dirs
    ensures NoRepeats(ReadDir(s, d).value)
  {
    ChildrenInNoRepeats(s, s.order, d);
  }

  // ---------------------------------------------------------------------
  // The disk as an object updated in place
  // ---------------------------------------------------------------------

  class Disk {
    var files: map<Path, Bytes>
    var dirs: set<Path>
    var order: seq<Path>

    function State(): FsState
      reads this
    {
      FsState(files, dirs, order)
    }

    constructor (s: FsState)
      ensures State() == s
    {
      files, dirs, order := s.files, s.dirs, s.order;
    }

    /** `FileSystemService.ensureDirectory`. */
    method EnsureDirectory(p: Path)
      modifies this
      decreases |p|
      ensures State() == Ensured(old(State()), p)
    {
      if p == "" || p in dirs {
        return;
      }
      EnsureDirectory(Dirname(p));
      dirs := dirs + {p};
      order := Listed(order, p);
    }

    /** `FileSystemService.saveFile` (never appending). */
    method SaveFile(p: Path, content: Bytes)
      modifies this
      ensures State() == Written(old(State()), p, content)
    {
      EnsureDirectory(Dirname(p));
      files := files[p := content];
      order := Listed(order, p);
    }

    method Unlink(p: Path)
      modifies this
      ensures State() == Unlinked(old(State()), p)
    {
      files := files - {p};
      order := Without(order, p);
    }

    method Rmdir(p: Path) returns (r: Outcome)
      modifies this
      ensures var removed := Removed(old(State()), p);
        if removed.Ok? then r == Pass && State() == removed.value
        else r == Fail(removed.message) && State() == old(State())
    {
      var removed := Removed(State(), p);
      if removed.Ok? {
        files, dirs, order := removed.value.files, removed.value.dirs, removed.value.order;
        r := Pass;
      } else {
        r := Fail(removed.message);
      }
    }
  }
}
