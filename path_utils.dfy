/** File-name classification and path helpers (src/utils/pathUtils.ts).
    Paths are `/`-separated strings; the platform separator of
    `normalizeFilePath` is a parameter. */
module PathUtils {
  import opened Wrappers

  type Path = string

  // ---------------------------------------------------------------------
  // ASCII lower-casing (String.prototype.toLowerCase on ASCII letters)
  // ---------------------------------------------------------------------

  function LowerChar(c: char): char {
    if 'A' <= c <= 'Z' then (c as int + 32) as char else c
  }

  function Lower(s: string): (r: string)
    ensures |r| == |s|
  {
    if s == [] then [] else Lower(s[..|s| - 1]) + [LowerChar(s[|s| - 1])]
  }

  /** Lower-casing works character by character. */
  lemma {:induction false} LowerAt(s: string)
    ensures forall i :: 0 <= i < |s| ==> Lower(s)[i] == LowerChar(s[i])
  {
    if s != [] {
      LowerAt(s[..|s| - 1]);
    }
  }

  /** Lower-casing never creates or removes a separator or a dot. */
  lemma LowerCharKeepsPunctuation(c: char)
    ensures LowerChar(c) == '/' <==> c == '/'
    ensures LowerChar(c) == '.' <==> c == '.'
    ensures LowerChar(LowerChar(c)) == LowerChar(c)
  {
  }

  lemma LowerIdempotent(s: string)
    ensures Lower(Lower(s)) == Lower(s)
  {
    LowerAt(s);
    LowerAt(Lower(s));
    forall i | 0 <= i < |s| ensures Lower(Lower(s))[i] == Lower(s)[i] {
      LowerCharKeepsPunctuation(s[i]);
    }
  }

  lemma {:induction false} LowerSuffix(s: string, i: nat)
    requires i <= |s|
    ensures Lower(s[i..]) == Lower(s)[i..]
  {
    if i < |s| {
      var p := s[..|s| - 1];
      var t := s[i..];
      assert t[..|t| - 1] == p[i..];
      LowerSuffix(p, i);
      var lp := Lower(p);
      assert Lower(s)[i..] == lp[i..] + [LowerChar(s[|s| - 1])];
    }
  }

  /** A string without capitals is its own lower-case form. */
  lemma LowerOfLowercase(s: string)
    requires forall i :: 0 <= i < |s| ==> !('A' <= s[i] <= 'Z')
    ensures Lower(s) == s
  {
    LowerAt(s);
  }

  // ---------------------------------------------------------------------
  // Searching from the end
  // ---------------------------------------------------------------------

  /** The index of the last occurrence of `c` in `s`, if any. */
  function LastIndex(s: string, c: char): (r: Option<nat>)
    ensures r.Some? ==> r.value < |s| && s[r.value] == c
  {
    if s == [] then None
    else if s[|s| - 1] == c then Some(|s| - 1)
    else LastIndex(s[..|s| - 1], c)
  }

  /** No occurrence of `c` follows the one found, and none exists when
      nothing is found. */
  lemma {:induction false} LastIndexIsLast(s: string, c: char)
    ensures LastIndex(s, c).Some? ==> forall j :: LastIndex(s, c).value < j < |s| ==> s[j] != c
    ensures LastIndex(s, c).None? ==> forall j :: 0 <= j < |s| ==> s[j] != c
  {
    if s != [] && s[|s| - 1] != c {
      LastIndexIsLast(s[..|s| - 1], c);
    }
  }

  /** The contract of LastIndex pins its result down. */
  lemma LastIndexAt(s: string, c: char, k: nat)
    requires k < |s| && s[k] == c
    requires forall j :: k < j < |s| ==> s[j] != c
    ensures LastIndex(s, c) == Some(k)
  {
  }

  lemma LastIndexNone(s: string, c: char)
    requires forall j :: 0 <= j < |s| ==> s[j] != c
    ensures LastIndex(s, c) == None
  {
  }

  /** Lower-casing keeps the positions of `/` and `.`. */
  lemma LastIndexLower(s: string, c: char)
    requires c == '/' || c == '.'
    ensures LastIndex(Lower(s), c) == LastIndex(s, c)
  {
    var t := Lower(s);
    LowerAt(s);
    LastIndexIsLast(s, c);
    forall j | 0 <= j < |s| ensures t[j] == c <==> s[j] == c {
      LowerCharKeepsPunctuation(s[j]);
    }
    match LastIndex(s, c)
    case None => LastIndexNone(t, c);
    case Some(k) => LastIndexAt(t, c, k);
  }

  // ---------------------------------------------------------------------
  // path.basename, path.dirname, path.join, path.extname on '/' paths
  // ---------------------------------------------------------------------

  /** The final segment: everything after the last `/`. */
  function Basename(p: Path): (r: Path)
    ensures |r| <= |p|
  {
    match LastIndex(p, '/')
    case None => p
    case Some(i) => p[i + 1..]
  }

  /** The final segment holds no separator. */
  lemma BasenameHasNoSeparator(p: Path)
    ensures forall j :: 0 <= j < |Basename(p)| ==> Basename(p)[j] != '/'
  {
    LastIndexIsLast(p, '/');
  }

  /** Everything before the last `/` ("" when there is none). */
  function Dirname(p: Path): (r: Path)
    ensures |r| < |p| || p == ""
  {
    match LastIndex(p, '/')
    case None => ""
    case Some(i) => p[..i]
  }

  function Join(dir: Path, name: Path): Path {
    dir + "/" + name
  }

  /** `p` lies strictly below directory `d`. */
  predicate IsUnder(p: Path, d: Path) {
    |d| < |p| && p[..|d|] == d && p[|d|] == '/'
  }

  lemma UnderTransitive(p: Path, q: Path, d: Path)
    requires IsUnder(p, q) && IsUnder(q, d)
    ensures IsUnder(p, d)
  {
    assert p[..|q|][..|d|] == p[..|d|];
  }

  lemma JoinIsUnder(d: Path, n: Path)
    ensures IsUnder(Join(d, n), d)
  {
    assert Join(d, n)[..|d|] == d;
  }

  /** A path with a separator lies below its dirname. */
  lemma UnderDirname(p: Path)
    requires LastIndex(p, '/').Some?
    ensures IsUnder(p, Dirname(p))
  {
  }

  /** Joining a single segment: the dirname and basename come back. */
  lemma JoinSplitsBack(d: Path, n: Path)
    requires forall j :: 0 <= j < |n| ==> n[j] != '/'
    ensures LastIndex(Join(d, n), '/') == Some(|d|)
    ensures Dirname(Join(d, n)) == d
    ensures Basename(Join(d, n)) == n
  {
    var p := Join(d, n);
    forall j | |d| < j < |p| ensures p[j] != '/' {
      assert p[j] == n[j - |d| - 1];
    }
    LastIndexAt(p, '/', |d|);
  }

  /** A path with a separator is the join of its dirname and basename. */
  lemma DirnameJoinsBasename(p: Path)
    requires LastIndex(p, '/').Some?
    ensures Join(Dirname(p), Basename(p)) == p
  {
    var i := LastIndex(p, '/').value;
    assert p == p[..i] + [p[i]] + p[i + 1..];
  }

  /** Two different entries of one directory lie apart: nothing at or
      below the one is at or below the other. */
  lemma SiblingsApart(d: Path, e: Path, x: Path)
    requires LastIndex(d, '/').Some? && LastIndex(e, '/').Some?
    requires Dirname(d) == Dirname(e) && d != e
    requires x == e || IsUnder(x, e)
    ensures x != d && !IsUnder(x, d)
  {
    LastIndexIsLast(d, '/');
    LastIndexIsLast(e, '/');
    assert x[..|e|] == e;
    if |d| < |e| {
      assert x[|d|] == e[|d|];
    } else if |e| < |d| && |d| <= |x| {
      assert x[..|d|][|e|] == x[|e|];
    }
  }

  /** In `root/a/n` with `a` and `n` free of separators, the only
      directory strictly between the path and `root` is `root/a`. */
  lemma OnlyDirBetween(root: Path, a: Path, n: Path)
    requires forall j :: 0 <= j < |a| ==> a[j] != '/'
    requires forall j :: 0 <= j < |n| ==> n[j] != '/'
    ensures forall d :: IsUnder(Join(Join(root, a), n), d) && IsUnder(d, root) ==> d == Join(root, a)
  {
    var c := Join(Join(root, a), n);
    var m := |root| + 1 + |a|;
    forall k | |root| < k < |c| && k != m ensures c[k] != '/' {
      if k < m {
        assert c[k] == a[k - |root| - 1];
      } else {
        assert c[k] == n[k - m - 1];
      }
    }
    assert c[..m] == Join(root, a);
  }

  /** The index of the first `/` at or after `j`, or `|p|` when there is
      none. */
  function NextSeparator(p: Path, j: nat): (k: nat)
    requires j <= |p|
    ensures j <= k <= |p| && (k < |p| ==> p[k] == '/')
    decreases |p| - j
  {
    if j == |p| || p[j] == '/' then j else NextSeparator(p, j + 1)
  }

  lemma {:induction false} NextSeparatorIsFirst(p: Path, j: nat)
    requires j <= |p|
    ensures forall m :: j <= m < NextSeparator(p, j) ==> p[m] != '/'
    decreases |p| - j
  {
    if j < |p| && p[j] != '/' {
      NextSeparatorIsFirst(p, j + 1);
    }
  }

  /** The entry of directory `d` on the way down to `p`, which lies below
      `d`: `p` itself when it sits directly in `d`, else the directory that
      holds it. */
  function Toward(p: Path, d: Path): Path
    requires IsUnder(p, d)
  {
    p[..NextSeparator(p, |d| + 1)]
  }

  /** That entry lies directly in `d`, and `p` is it or lies below it. */
  lemma TowardIsChild(p: Path, d: Path)
    requires IsUnder(p, d)
    ensures var e := Toward(p, d);
      && LastIndex(e, '/') == Some(|d|) && Dirname(e) == d && IsUnder(e, d)
      && (e == p || IsUnder(p, e))
  {
    var k := NextSeparator(p, |d| + 1);
    var e := p[..k];
    NextSeparatorIsFirst(p, |d| + 1);
    assert e[..|d|] == d;
    LastIndexAt(e, '/', |d|);
    if k == |p| {
      assert e == p;
    }
  }

  /** Every directory between `d` and `p` is the entry towards `p` or lies
      below it. */
  lemma BetweenIsBelowToward(p: Path, d: Path, x: Path)
    requires IsUnder(p, d) && IsUnder(p, x) && IsUnder(x, d)
    ensures x == Toward(p, d) || IsUnder(x, Toward(p, d))
  {
    var k := NextSeparator(p, |d| + 1);
    NextSeparatorIsFirst(p, |d| + 1);
    assert x == p[..|x|];
    assert p[|x|] == '/';
    assert k <= |x|;
    if k < |x| {
      assert x[..k] == p[..k];
    }
  }

  /** The basename of a join is the basename of its last argument. */
  lemma BasenameOfJoin(d: Path, n: Path)
    ensures Basename(Join(d, n)) == Basename(n)
  {
    var p := Join(d, n);
    LastIndexIsLast(n, '/');
    match LastIndex(n, '/')
    case None =>
      JoinSplitsBack(d, n);
    case Some(k) =>
      forall j | |d| + 1 + k < j < |p| ensures p[j] != '/' {
        assert p[j] == n[j - |d| - 1];
      }
      LastIndexAt(p, '/', |d| + 1 + k);
      assert p[|d| + 1 + k + 1..] == n[k + 1..];
  }

  /** The extension of one segment: from its last dot, empty when there is
      no dot, when the only candidate dot is the leading one, and for "..". */
  function SegmentExtension(b: string): (r: string)
    ensures |r| <= |b|
  {
    match LastIndex(b, '.')
    case None => ""
    case Some(i) => if i == 0 || b == ".." then "" else b[i..]
  }

  /** path.extname: the extension of the final segment. */
  function Extname(p: Path): string {
    SegmentExtension(Basename(p))
  }

  lemma BasenameLower(p: Path)
    ensures Basename(Lower(p)) == Lower(Basename(p))
  {
    LastIndexLower(p, '/');
    match LastIndex(p, '/')
    case None =>
    case Some(i) => LowerSuffix(p, i + 1);
  }

  lemma DotDotLower(b: string)
    ensures Lower(b) == ".." <==> b == ".."
  {
    LowerAt(b);
    LowerOfLowercase("..");
    if |b| == 2 {
      LowerCharKeepsPunctuation(b[0]);
      LowerCharKeepsPunctuation(b[1]);
    }
  }

  lemma SegmentExtensionLower(b: string)
    ensures SegmentExtension(Lower(b)) == Lower(SegmentExtension(b))
  {
    LastIndexLower(b, '.');
    DotDotLower(b);
    match LastIndex(b, '.')
    case None =>
    case Some(i) => LowerSuffix(b, i);
  }

  lemma ExtnameLower(p: Path)
    ensures Extname(Lower(p)) == Lower(Extname(p))
  {
    BasenameLower(p);
    SegmentExtensionLower(Basename(p));
  }

  // ---------------------------------------------------------------------
  // PathUtils.getFileExtension / isPluginFile / isIncludeFile
  // ---------------------------------------------------------------------

  function GetFileExtension(filePath: Path): string {
    Lower(Extname(filePath))
  }

  predicate IsPluginFile(fileName: Path) {
    var ext := GetFileExtension(fileName);
    ext == ".dll" || ext == ".so"
  }

  predicate IsIncludeFile(fileName: Path) {
    GetFileExtension(fileName) == ".inc"
  }

  /** Plugin binary or include header: the files the downloader keeps. */
  predicate Classified(fileName: Path) {
    IsPluginFile(fileName) || IsIncludeFile(fileName)
  }

  /** `b` ends, ignoring case, with the extension `e`, and something comes
      before that extension. */
  predicate EndsWithExtension(b: string, e: string) {
    |b| > |e| && Lower(b[|b| - |e|..]) == e
  }

  /** A lower-case extension with one leading dot and no other dot. */
  predicate PlainExtension(e: string) {
    && |e| >= 2 && e[0] == '.'
    && (forall j :: 1 <= j < |e| ==> e[j] != '.' && e[j] != '/')
    && Lower(e) == e
  }

  /** The extension is `e` exactly when the final segment ends with `e`
      (ignoring case) after a non-empty stem. */
  lemma ExtensionIsSuffix(f: Path, e: string)
    requires PlainExtension(e)
    ensures GetFileExtension(f) == e <==> EndsWithExtension(Basename(f), e)
  {
    var b := Basename(f);
    if GetFileExtension(f) == e {
      var i := LastIndex(b, '.').value;
      assert Extname(f) == b[i..];
      assert |b| - i == |e|;
    }
    if EndsWithExtension(b, e) {
      var k := |b| - |e|;
      LowerAt(b[k..]);
      forall j | k <= j < |b| ensures (b[j] == '.') == (j == k) {
        assert Lower(b[k..])[j - k] == e[j - k];
        LowerCharKeepsPunctuation(b[j]);
      }
      LastIndexAt(b, '.', k);
    }
  }

  /** Reference definition of isPluginFile: the final segment ends in
      `.dll` or `.so`, in any case, after a non-empty stem. */
  lemma PluginFileBySuffix(f: Path)
    ensures IsPluginFile(f) <==>
      EndsWithExtension(Basename(f), ".dll") || EndsWithExtension(Basename(f), ".so")
    ensures IsIncludeFile(f) <==> EndsWithExtension(Basename(f), ".inc")
  {
    KeptExtensionsArePlain();
    ExtensionIsSuffix(f, ".dll");
    ExtensionIsSuffix(f, ".so");
    ExtensionIsSuffix(f, ".inc");
  }

  lemma KeptExtensionsArePlain()
    ensures PlainExtension(".dll") && PlainExtension(".so") && PlainExtension(".inc")
  {
    LowerOfLowercase(".dll");
    LowerOfLowercase(".so");
    LowerOfLowercase(".inc");
  }

  /** Classification ignores case: names equal up to case classify alike. */
  lemma ClassificationIgnoresCase(f: Path, g: Path)
    requires Lower(f) == Lower(g)
    ensures GetFileExtension(f) == GetFileExtension(g)
    ensures IsPluginFile(f) == IsPluginFile(g)
    ensures IsIncludeFile(f) == IsIncludeFile(g)
  {
    ExtnameLower(f);
    ExtnameLower(g);
    LowerIdempotent(Extname(f));
    LowerIdempotent(Extname(g));
  }

  /** Only the final segment decides: a directory prefix changes nothing. */
  lemma ClassificationOfJoin(d: Path, n: Path)
    ensures GetFileExtension(Join(d, n)) == GetFileExtension(n)
    ensures IsPluginFile(Join(d, n)) == IsPluginFile(n)
    ensures IsIncludeFile(Join(d, n)) == IsIncludeFile(n)
  {
    BasenameOfJoin(d, n);
  }

  /** The two roles exclude each other, and a name that is neither keeps
      none of the three extensions. */
  lemma RolesAreExclusive(f: Path)
    ensures !(IsPluginFile(f) && IsIncludeFile(f))
    ensures !Classified(f) <==>
      GetFileExtension(f) != ".dll" && GetFileExtension(f) != ".so" && GetFileExtension(f) != ".inc"
  {
  }

  /** A name without a separator is its own final segment. */
  lemma SegmentIsBasename(n: Path)
    requires forall j :: 0 <= j < |n| ==> n[j] != '/'
    ensures Basename(n) == n
  {
    LastIndexNone(n, '/');
  }

  /** A one-segment name that ends in a plain extension has it. */
  lemma SegmentHasExtension(n: string, e: string)
    requires forall j :: 0 <= j < |n| ==> n[j] != '/'
    requires PlainExtension(e) && EndsWithExtension(n, e)
    ensures GetFileExtension(n) == e
  {
    SegmentIsBasename(n);
    ExtensionIsSuffix(n, e);
  }

  /** A separator-free, non-empty stem followed by a plain extension has
      that extension. */
  lemma StemWithExtension(stem: string, e: string)
    requires |stem| > 0 && forall j :: 0 <= j < |stem| ==> stem[j] != '/'
    requires PlainExtension(e)
    ensures GetFileExtension(stem + e) == e
  {
    var n := stem + e;
    assert n[|n| - |e|..] == e;
    forall j | 0 <= j < |n| ensures n[j] != '/' {
      if j >= |stem| { assert n[j] == e[j - |stem|]; }
    }
    SegmentHasExtension(n, e);
  }

  lemma ExtensionOfFooDll()
    ensures GetFileExtension("foo.dll") == ".dll"
  {
    assert "foo.dll"[3..] == ".dll";
    LowerOfLowercase(".dll");
    SegmentHasExtension("foo.dll", ".dll");
  }

  lemma ExtensionOfZSo()
    ensures GetFileExtension("z.so") == ".so"
  {
    assert "z.so"[1..] == ".so";
    LowerOfLowercase(".so");
    SegmentHasExtension("z.so", ".so");
  }

  /** A leading dot does not start an extension: `.dll` is no plugin. */
  lemma ExtensionOfDotDll()
    ensures GetFileExtension(".dll") == ""
  {
    LeadingDotOnly(".dll");
    assert Lower("") == "";
  }

  /** A one-segment name whose only dot is its first character has no
      extension. */
  lemma LeadingDotOnly(n: string)
    requires |n| > 0 && n[0] == '.'
    requires forall j :: 0 < j < |n| ==> n[j] != '.' && n[j] != '/'
    ensures Extname(n) == ""
  {
    SegmentIsBasename(n);
    LastIndexAt(n, '.', 0);
  }

  /** Worked cases: whatever the directory part, even one that looks like
      an include file (`x/y.inc/z.so`), only the last segment decides. */
  lemma ClassificationByLastSegment(dir: Path)
    ensures IsPluginFile(Join(dir, "foo.dll"))
    ensures IsPluginFile(Join(dir, "z.so")) && !IsIncludeFile(Join(dir, "z.so"))
  {
    ClassificationOfJoin(dir, "foo.dll");
    ClassificationOfJoin(dir, "z.so");
    ExtensionOfFooDll();
    ExtensionOfZSo();
  }

  // ---------------------------------------------------------------------
  // String.prototype.split / Array.prototype.join with one-character
  // separators, and PathUtils.normalizeFilePath
  // ---------------------------------------------------------------------

  /** `s.split(sep)`: the pieces between separators (always at least one). */
  function Split(s: string, sep: char): (parts: seq<string>)
    ensures |parts| >= 1
  {
    if s == [] then [[]]
    else
      var rest := Split(s[1..], sep);
      if s[0] == sep then [[]] + rest
      else [[s[0]] + rest[0]] + rest[1..]
  }

  /** `parts.join(sep)`. */
  function JoinParts(parts: seq<string>, sep: char): string
    requires |parts| >= 1
  {
    if |parts| == 1 then parts[0]
    else parts[0] + [sep] + JoinParts(parts[1..], sep)
  }

  /** Every character equal to `from` replaced by `to`. */
  predicate IsReplacement(s: string, r: string, from: char, to: char) {
    |r| == |s| && forall i :: 0 <= i < |s| ==> r[i] == (if s[i] == from then to else s[i])
  }

  /** Splitting on `sep` and joining with `to` replaces each `sep` by `to`. */
  lemma {:induction false} SplitJoinReplaces(s: string, sep: char, to: char)
    ensures IsReplacement(s, JoinParts(Split(s, sep), to), sep, to)
  {
    if s != [] {
      var rest := Split(s[1..], sep);
      SplitJoinReplaces(s[1..], sep, to);
      var r := JoinParts(Split(s, sep), to);
      if s[0] == sep {
        assert r == [to] + JoinParts(rest, to);
      } else if |rest| == 1 {
        assert r == [s[0]] + JoinParts(rest, to);
      } else {
        assert JoinParts(rest, to) == rest[0] + [to] + JoinParts(rest[1..], to);
        assert r == [s[0]] + JoinParts(rest, to);
      }
    }
  }

  /** `s.split(sep).join(sep) == s`. */
  lemma SplitJoinRoundTrip(s: string, sep: char)
    ensures JoinParts(Split(s, sep), sep) == s
  {
    SplitJoinReplaces(s, sep, sep);
  }

  /** No piece of a split contains the separator. */
  lemma {:induction false} SplitPiecesAreSeparatorFree(s: string, sep: char)
    ensures forall k, j :: 0 <= k < |Split(s, sep)| && 0 <= j < |Split(s, sep)[k]| ==>
      Split(s, sep)[k][j] != sep
  {
    if s != [] {
      SplitPiecesAreSeparatorFree(s[1..], sep);
    }
  }

  /** When `s` contains the separator it splits into at least two pieces,
      the first of which is the text before the first separator. */
  lemma {:induction false} SplitAtSeparator(s: string, sep: char)
    requires exists j :: 0 <= j < |s| && s[j] == sep
    ensures |Split(s, sep)| >= 2
    ensures |Split(s, sep)[0]| < |s| && s[..|Split(s, sep)[0]| + 1] == Split(s, sep)[0] + [sep]
  {
    var rest := Split(s[1..], sep);
    if s[0] != sep {
      var j :| 0 <= j < |s| && s[j] == sep;
      assert s[1..][j - 1] == sep;
      SplitAtSeparator(s[1..], sep);
      assert s[..|rest[0]| + 2] == [s[0]] + s[1..][..|rest[0]| + 1];
    }
  }

  /** The first piece of a split is the longest separator-free prefix: it
      is followed by the separator or by the end of `s`. */
  lemma {:induction false} SplitFirst(s: string, sep: char)
    ensures var h := Split(s, sep)[0];
      && |h| <= |s| && s[..|h|] == h
      && (|h| < |s| <==> |Split(s, sep)| >= 2)
      && (|h| < |s| ==> s[|h|] == sep)
      && forall j :: 0 <= j < |h| ==> h[j] != sep
  {
    if s != [] && s[0] != sep {
      SplitFirst(s[1..], sep);
      var h := Split(s, sep)[0];
      assert h == [s[0]] + Split(s[1..], sep)[0];
      assert s[..|h|] == [s[0]] + s[1..][..|h| - 1];
    }
  }

  /** The pieces after the first are the split of what follows the first
      separator. */
  lemma {:induction false} SplitRest(s: string, sep: char)
    requires |Split(s, sep)| >= 2
    ensures |Split(s, sep)[0]| < |s|
    ensures Split(s, sep)[1..] == Split(s[|Split(s, sep)[0]| + 1..], sep)
  {
    SplitFirst(s, sep);
    if s[0] != sep {
      var rest := Split(s[1..], sep);
      SplitRest(s[1..], sep);
      assert s[1..][|rest[0]| + 1..] == s[|rest[0]| + 2..];
    }
  }

  /** `filePath.split(path.sep).join('/')`. */
  function NormalizeFilePath(filePath: Path, sep: char): Path {
    JoinParts(Split(filePath, sep), '/')
  }

  /** Normalisation turns every platform separator into `/` and changes
      nothing else; it is idempotent and the identity on POSIX. */
  lemma NormalizeFilePathSpec(filePath: Path, sep: char)
    ensures IsReplacement(filePath, NormalizeFilePath(filePath, sep), sep, '/')
    ensures NormalizeFilePath(NormalizeFilePath(filePath, sep), sep) == NormalizeFilePath(filePath, sep)
    ensures sep == '/' ==> NormalizeFilePath(filePath, sep) == filePath
  {
    var once := NormalizeFilePath(filePath, sep);
    SplitJoinReplaces(filePath, sep, '/');
    SplitJoinReplaces(once, sep, '/');
    assert NormalizeFilePath(once, sep) == once;
    if sep == '/' {
      assert once == filePath;
    }
  }
}
