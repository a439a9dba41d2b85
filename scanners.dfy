/** Workspace detection (src/utils/scanners.ts): from the first workspace
    folder, walk the directory tree depth-first in listing order and
    remember the last directory named `pawno` and the last named `qawno`
    (ignoring case), without looking inside either. The tree is given as
    a value: what `readdirSync` with file types lists, level by level. */
module Scanners {
  import opened Wrappers
  import opened PathUtils

  /** One entry of a directory listing: a directory with its own listing,
      or any other kind of entry. */
  datatype Node = Dir(name: string, children: seq<Node>) | Other(name: string)

  datatype WorkspacePaths = WorkspacePaths(rootPath: Path, pawnoPath: Option<Path>, qawnoPath: Option<Path>)

  /** The two directory names the walk stops at. */
  predicate IsToolDir(name: string) {
    Lower(name) == "pawno" || Lower(name) == "qawno"
  }

  /** Reference definition of what the walk meets: the full paths of the
      directories whose lower-cased name is `target`, in the order the
      walk from `dirPath` over `entries` reaches them. The contents of a
      `pawno` or `qawno` directory are never looked at. */
  function Found(dirPath: Path, entries: seq<Node>, target: string): seq<Path>
    decreases entries
  {
    if entries == [] then []
    else Found(dirPath, entries[..|entries| - 1], target) + FoundAt(dirPath, entries[|entries| - 1], target)
  }

  function FoundAt(dirPath: Path, e: Node, target: string): seq<Path>
    decreases e
  {
    match e
    case Other(_) => []
    case Dir(name, children) =>
      if IsToolDir(name) then
        if Lower(name) == target then [Join(dirPath, name)] else []
      else Found(Join(dirPath, name), children, target)
  }

  /** The last element of `s`, or `otherwise` when `s` is empty. */
  function LastOr(s: seq<Path>, otherwise: Option<Path>): (r: Option<Path>)
    ensures s != [] ==> r.Some? && r.value in s
  {
    if s == [] then otherwise else Some(s[|s| - 1])
  }

  lemma LastOrAppend(a: seq<Path>, b: seq<Path>, otherwise: Option<Path>)
    ensures LastOr(a + b, otherwise) == LastOr(b, LastOr(a, otherwise))
  {
  }

  /** The walk meets the entries of a listing one after the other: the
      hits of `a + b` are those of `a` followed by those of `b`. */
  lemma {:induction false} FoundAppend(dirPath: Path, a: seq<Node>, b: seq<Node>, target: string)
    ensures Found(dirPath, a + b, target) == Found(dirPath, a, target) + Found(dirPath, b, target)
    decreases |b|
  {
    if b != [] {
      var ab := a + b;
      assert ab[..|ab| - 1] == a + b[..|b| - 1];
      assert ab[|ab| - 1] == b[|b| - 1];
      FoundAppend(dirPath, a, b[..|b| - 1], target);
    } else {
      assert a + b == a;
    }
  }

  /** Every hit lies strictly below the directory the walk starts from, so
      the starting directory itself is never a hit. */
  lemma {:induction false} FoundIsBelow(dirPath: Path, entries: seq<Node>, target: string)
    ensures forall p :: p in Found(dirPath, entries, target) ==> IsUnder(p, dirPath)
    decreases entries
  {
    if entries != [] {
      FoundIsBelow(dirPath, entries[..|entries| - 1], target);
      FoundAtIsBelow(dirPath, entries[|entries| - 1], target);
    }
  }

  lemma {:induction false} FoundAtIsBelow(dirPath: Path, e: Node, target: string)
    ensures forall p :: p in FoundAt(dirPath, e, target) ==> IsUnder(p, dirPath)
    decreases e
  {
    match e
    case Other(_) =>
    case Dir(name, children) =>
      JoinIsUnder(dirPath, name);
      if !IsToolDir(name) {
        var sub := Join(dirPath, name);
        FoundIsBelow(sub, children, target);
        forall p | p in Found(sub, children, target) ensures IsUnder(p, dirPath) {
          UnderTransitive(p, sub, dirPath);
        }
      }
  }

  /** Listing entries never contain a separator, at any depth. */
  predicate Named(entries: seq<Node>)
    decreases entries
  {
    forall i :: 0 <= i < |entries| ==> NodeNamed(entries[i])
  }

  predicate NodeNamed(e: Node)
    decreases e
  {
    && (forall j :: 0 <= j < |e.name| ==> e.name[j] != '/')
    && (e.Dir? ==> Named(e.children))
  }

  /** Every hit is a directory whose own name, lower-cased, is the target. */
  lemma {:induction false} FoundIsNamed(dirPath: Path, entries: seq<Node>, target: string)
    requires Named(entries)
    ensures forall p :: p in Found(dirPath, entries, target) ==> Lower(Basename(p)) == target
    decreases entries
  {
    if entries != [] {
      FoundIsNamed(dirPath, entries[..|entries| - 1], target);
      FoundAtIsNamed(dirPath, entries[|entries| - 1], target);
    }
  }

  lemma {:induction false} FoundAtIsNamed(dirPath: Path, e: Node, target: string)
    requires NodeNamed(e)
    ensures forall p :: p in FoundAt(dirPath, e, target) ==> Lower(Basename(p)) == target
    decreases e
  {
    match e
    case Other(_) =>
    case Dir(name, children) =>
      if IsToolDir(name) {
        JoinSplitsBack(dirPath, name);
      } else {
        FoundIsNamed(Join(dirPath, name), children, target);
      }
  }

  /** Some directory in the tree, at any depth and whether or not the walk
      reaches it, has lower-cased name `target`. */
  predicate HasDir(entries: seq<Node>, target: string)
    decreases entries
  {
    exists i :: 0 <= i < |entries| && NodeHasDir(entries[i], target)
  }

  predicate NodeHasDir(e: Node, target: string)
    decreases e
  {
    e.Dir? && (Lower(e.name) == target || HasDir(e.children, target))
  }

  /** A tree without such a directory yields no hit. */
  lemma {:induction false} NoDirNoHit(dirPath: Path, entries: seq<Node>, target: string)
    requires !HasDir(entries, target)
    ensures Found(dirPath, entries, target) == []
    decreases entries
  {
    if entries != [] {
      var init := entries[..|entries| - 1];
      var last := entries[|entries| - 1];
      assert !NodeHasDir(last, target);
      assert !HasDir(init, target) by {
        forall i | 0 <= i < |init| ensures !NodeHasDir(init[i], target) {
          assert init[i] == entries[i];
        }
      }
      NoDirNoHit(dirPath, init, target);
      match last
      case Other(_) =>
      case Dir(name, children) =>
        if !IsToolDir(name) {
          NoDirNoHit(Join(dirPath, name), children, target);
        }
    }
  }

  /** `scanWorkspace` as a value: no folder is an error; otherwise the
      root is the first folder and each of the two paths is the last hit
      of the walk over the root's listing, if any. */
  function Scan(folders: seq<Path>, entries: seq<Node>): Result<WorkspacePaths> {
    if folders == [] then Err("No workspace folder found")
    else
      var root := folders[0];
      Ok(WorkspacePaths(root, LastOr(Found(root, entries, "pawno"), None),
                        LastOr(Found(root, entries, "qawno"), None)))
  }

  /** The root itself is never matched against the two names: a match lies
      strictly below it. A match is named `pawno` (or `qawno`) in some
      case. */
  lemma ScanFindsBelowRoot(folders: seq<Path>, entries: seq<Node>)
    requires Named(entries)
    ensures var r := Scan(folders, entries);
      r.Ok? ==>
        && (r.value.pawnoPath.Some? ==>
              IsUnder(r.value.pawnoPath.value, r.value.rootPath) && Lower(Basename(r.value.pawnoPath.value)) == "pawno")
        && (r.value.qawnoPath.Some? ==>
              IsUnder(r.value.qawnoPath.value, r.value.rootPath) && Lower(Basename(r.value.qawnoPath.value)) == "qawno")
  {
    if folders != [] {
      FoundIsBelow(folders[0], entries, "pawno");
      FoundIsBelow(folders[0], entries, "qawno");
      FoundIsNamed(folders[0], entries, "pawno");
      FoundIsNamed(folders[0], entries, "qawno");
    }
  }

  /** Without any directory of that name the path stays undefined. */
  lemma ScanWithoutDir(folders: seq<Path>, entries: seq<Node>)
    requires folders != []
    ensures !HasDir(entries, "pawno") ==> Scan(folders, entries).value.pawnoPath == None
    ensures !HasDir(entries, "qawno") ==> Scan(folders, entries).value.qawnoPath == None
  {
    if !HasDir(entries, "pawno") {
      NoDirNoHit(folders[0], entries, "pawno");
    }
    if !HasDir(entries, "qawno") {
      NoDirNoHit(folders[0], entries, "qawno");
    }
  }

  /** Later matches overwrite earlier ones: when the later part of the
      root listing has a hit, the earlier part does not matter. */
  lemma LaterMatchWins(folders: seq<Path>, a: seq<Node>, b: seq<Node>)
    requires folders != []
    ensures Found(folders[0], b, "pawno") != [] ==>
      Scan(folders, a + b).value.pawnoPath == Scan(folders, b).value.pawnoPath
    ensures Found(folders[0], b, "qawno") != [] ==>
      Scan(folders, a + b).value.qawnoPath == Scan(folders, b).value.qawnoPath
  {
    var root := folders[0];
    FoundAppend(root, a, b, "pawno");
    FoundAppend(root, a, b, "qawno");
    LastOrAppend(Found(root, a, "pawno"), Found(root, b, "pawno"), None);
    LastOrAppend(Found(root, a, "qawno"), Found(root, b, "qawno"), None);
  }

  /** A directory named `pawno` in any case at the top of the workspace is
      found (unless a later one overrides it). */
  lemma TopLevelPawnoIsFound(folders: seq<Path>, entries: seq<Node>, i: nat)
    requires folders != [] && i < |entries|
    requires entries[i].Dir? && Lower(entries[i].name) == "pawno"
    ensures Scan(folders, entries).value.pawnoPath.Some?
  {
    var root := folders[0];
    assert entries == entries[..i] + ([entries[i]] + entries[i + 1..]);
    FoundAppend(root, entries[..i], [entries[i]] + entries[i + 1..], "pawno");
    FoundAppend(root, [entries[i]], entries[i + 1..], "pawno");
    assert [entries[i]][..0] == [];
    assert Join(root, entries[i].name) in Found(root, [entries[i]], "pawno");
  }

  /** What a `pawno` or `qawno` directory holds is never looked at: the
      scan is the same whatever its children are. */
  lemma ToolDirIsOpaque(folders: seq<Path>, a: seq<Node>, b: seq<Node>, name: string, c1: seq<Node>, c2: seq<Node>)
    requires folders != [] && IsToolDir(name)
    ensures Scan(folders, a + [Dir(name, c1)] + b) == Scan(folders, a + [Dir(name, c2)] + b)
  {
    ToolDirFoundSame(folders[0], a, b, name, c1, c2, "pawno");
    ToolDirFoundSame(folders[0], a, b, name, c1, c2, "qawno");
  }

  lemma ToolDirFoundSame(dirPath: Path, a: seq<Node>, b: seq<Node>, name: string, c1: seq<Node>, c2: seq<Node>,
                         target: string)
    requires IsToolDir(name)
    ensures Found(dirPath, a + [Dir(name, c1)] + b, target) == Found(dirPath, a + [Dir(name, c2)] + b, target)
  {
    FoundAppend(dirPath, a + [Dir(name, c1)], b, target);
    FoundAppend(dirPath, a + [Dir(name, c2)], b, target);
    assert (a + [Dir(name, c1)])[..|a|] == a;
    assert (a + [Dir(name, c2)])[..|a|] == a;
  }

  /** The state of one `scanWorkspace` call: the two variables the inner
      `scanDirectory` closure assigns. */
  class Scanner {
    var pawnoPath: Option<Path>
    var qawnoPath: Option<Path>

    constructor ()
      ensures pawnoPath == None && qawnoPath == None
    {
      pawnoPath, qawnoPath := None, None;
    }

    /** `scanDirectory`: each directory entry in listing order either
        records its path (pawno, qawno) or is walked into. */
    method ScanDirectory(dirPath: Path, entries: seq<Node>)
      modifies this
      decreases entries
      ensures pawnoPath == LastOr(Found(dirPath, entries, "pawno"), old(pawnoPath))
      ensures qawnoPath == LastOr(Found(dirPath, entries, "qawno"), old(qawnoPath))
    {
      for i := 0 to |entries|
        invariant pawnoPath == LastOr(Found(dirPath, entries[..i], "pawno"), old(pawnoPath))
        invariant qawnoPath == LastOr(Found(dirPath, entries[..i], "qawno"), old(qawnoPath))
      {
        assert entries[..i + 1][..i] == entries[..i];
        ghost var p0, q0 := pawnoPath, qawnoPath;
        match entries[i]
        case Other(_) =>
        case Dir(name, children) =>
          var fullPath := Join(dirPath, name);
          if Lower(name) == "pawno" {
            pawnoPath := Some(fullPath);
          } else if Lower(name) == "qawno" {
            qawnoPath := Some(fullPath);
          } else {
            ScanDirectory(fullPath, children);
          }
        LastOrAppend(Found(dirPath, entries[..i], "pawno"), FoundAt(dirPath, entries[i], "pawno"), old(pawnoPath));
        LastOrAppend(Found(dirPath, entries[..i], "qawno"), FoundAt(dirPath, entries[i], "qawno"), old(qawnoPath));
      }
      assert entries[..|entries|] == entries;
    }
  }

  /** `scanWorkspace`: `folders` are the workspace folders' file-system
      paths and `entries` the listing of the first one. */
  method ScanWorkspace(folders: seq<Path>, entries: seq<Node>) returns (r: Result<WorkspacePaths>)
    ensures r == Scan(folders, entries)
  {
    if folders == [] {
      return Err("No workspace folder found");
    }
    var rootPath := folders[0];
    var scanner := new Scanner();
    scanner.ScanDirectory(rootPath, entries);
    r := Ok(WorkspacePaths(rootPath, scanner.pawnoPath, scanner.qawnoPath));
  }
}
