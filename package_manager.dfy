/** The package manager (src/services/packageManager.ts): locate the
    workspace, pick the include and plugins directories, fetch a package
    from GitHub or from a custom source, fall back to the mirrors, record
    the package in the installed list and the manifest, and sweep loose
    files into place.

    As in the downloader, each step is first a function from the state to
    what it does; the class below runs the steps against the disk, the
    network and the installed list, and is proved to follow them. */
module PackageManager {
  import opened Wrappers
  import opened PathUtils
  import opened FileSystem
  import opened Remote
  import opened AlternativeDownloader
  import opened Scanners

  // ---------------------------------------------------------------------
  // The installed-package list (saveInstalledPackage, isPackageInstalled)
  // ---------------------------------------------------------------------

  /** The list after recording `id`: appended when absent, else unchanged. */
  function Recorded(ledger: seq<string>, id: string): seq<string> {
    if id in ledger then ledger else ledger + [id]
  }

  predicate NoDuplicates(ledger: seq<string>) {
    forall i, j :: 0 <= i < j < |ledger| ==> ledger[i] != ledger[j]
  }

  /** Recording keeps the list's order and entries, adds exactly `id`,
      never creates a duplicate, and a second identical call changes
      nothing. */
  lemma RecordedIsSetInsert(ledger: seq<string>, id: string)
    ensures var r := Recorded(ledger, id);
      && r[..|ledger|] == ledger
      && (forall x :: x in r <==> x in ledger || x == id)
      && (NoDuplicates(ledger) ==> NoDuplicates(r))
      && Recorded(r, id) == r
      && |r| == if id in ledger then |ledger| else |ledger| + 1
  {
  }

  // ---------------------------------------------------------------------
  // The manifest (updatePackageConfig)
  // ---------------------------------------------------------------------

  /** PackageConfig (src/types/index.ts) as held in `pawn-package.json`:
      the dependency table, absent when the file has no `dependencies`
      key, and every other top-level key with its JSON text, kept as is. */
  datatype Manifest = Manifest(dependencies: Option<map<string, string>>, rest: map<string, string>)

  const EmptyManifest: Manifest := Manifest(Some(map[]), map[])

  /** What the update starts from: the parsed file, or an empty manifest
      when the file is missing or does not parse. */
  function Loaded(s: FsState, configPath: Path, parse: Bytes -> Option<Manifest>): Manifest {
    if configPath in s.files && parse(s.files[configPath]).Some? then parse(s.files[configPath]).value
    else EmptyManifest
  }

  /** `config.dependencies = config.dependencies || {}` followed by
      `config.dependencies[packageId] = '*'`. */
  function WithDependency(m: Manifest, id: string): Manifest {
    var deps := if m.dependencies.Some? then m.dependencies.value else map[];
    Manifest(Some(deps[id := "*"]), m.rest)
  }

  /** The whole update: load, add the dependency, save. */
  function Configured(s: FsState, configPath: Path, id: string,
                      parse: Bytes -> Option<Manifest>, render: Manifest -> Bytes): FsState
  {
    Written(s, configPath, render(WithDependency(Loaded(s, configPath, parse), id)))
  }

  /** The dependency is set to "*", every other dependency and every other
      key are kept, a missing table is created, and setting it twice is
      setting it once. */
  lemma WithDependencySetsStar(m: Manifest, id: string)
    ensures var r := WithDependency(m, id);
      && r.dependencies.Some? && id in r.dependencies.value && r.dependencies.value[id] == "*"
      && r.rest == m.rest
      && (m.dependencies.Some? ==>
            forall k :: k != id ==>
              (k in r.dependencies.value <==> k in m.dependencies.value)
              && (k in m.dependencies.value ==> r.dependencies.value[k] == m.dependencies.value[k]))
      && (m.dependencies.None? ==> r.dependencies.value == map[id := "*"])
      && WithDependency(r, id) == r
  {
    var r := WithDependency(m, id);
    assert r.dependencies.value[id := "*"] == r.dependencies.value;
  }

  /** A missing or unreadable manifest is replaced by one holding only the
      new dependency. */
  lemma MissingManifestStartsEmpty(s: FsState, configPath: Path, id: string,
                                   parse: Bytes -> Option<Manifest>)
    requires configPath !in s.files || parse(s.files[configPath]).None?
    ensures WithDependency(Loaded(s, configPath, parse), id) == Manifest(Some(map[id := "*"]), map[])
  {
  }

  /** Saving the same bytes at the same path again changes nothing. */
  lemma WrittenTwice(s: FsState, p: Path, content: Bytes)
    ensures Written(Written(s, p, content), p, content) == Written(s, p, content)
  {
    var once := Written(s, p, content);
    assert Ensured(once, Dirname(p)) == once;
  }

  /** updatePackageConfig is idempotent, given that the JSON text it writes
      reads back as the manifest it wrote. */
  lemma ConfiguredIdempotent(s: FsState, configPath: Path, id: string,
                             parse: Bytes -> Option<Manifest>, render: Manifest -> Bytes)
    requires var m := WithDependency(Loaded(s, configPath, parse), id); parse(render(m)) == Some(m)
    ensures var once := Configured(s, configPath, id, parse, render);
      Configured(once, configPath, id, parse, render) == once
  {
    var m := WithDependency(Loaded(s, configPath, parse), id);
    var once := Configured(s, configPath, id, parse, render);
    assert Loaded(once, configPath, parse) == m;
    WithDependencySetsStar(Loaded(s, configPath, parse), id);
    WrittenTwice(s, configPath, render(m));
  }

  // ---------------------------------------------------------------------
  // The two target directories (getIncludePath, getPluginsPath)
  // ---------------------------------------------------------------------

  /** `include` inside the pawno directory if there is one, else inside the
      qawno directory; an empty path counts as none. */
  function IncludePath(w: WorkspacePaths): Result<Path> {
    if w.pawnoPath.Some? && w.pawnoPath.value != "" then Ok(Join(w.pawnoPath.value, "include"))
    else if w.qawnoPath.Some? && w.qawnoPath.value != "" then Ok(Join(w.qawnoPath.value, "include"))
    else Err("No Pawno or Qawno directory found")
  }

  function PluginsPath(w: WorkspacePaths): Path {
    Join(w.rootPath, "plugins")
  }

  function ManifestPath(w: WorkspacePaths): Path {
    Join(w.rootPath, "pawn-package.json")
  }

  /** The found directories lie below the root. */
  predicate Shaped(w: WorkspacePaths) {
    && (w.pawnoPath.Some? ==> IsUnder(w.pawnoPath.value, w.rootPath))
    && (w.qawnoPath.Some? ==> IsUnder(w.qawnoPath.value, w.rootPath))
  }

  lemma ScanIsShaped(folders: seq<Path>, entries: seq<Node>)
    requires Scan(folders, entries).Ok?
    ensures Shaped(Scan(folders, entries).value)
  {
    FoundIsBelow(folders[0], entries, "pawno");
    FoundIsBelow(folders[0], entries, "qawno");
  }

  /** On a scanned workspace, the include directory is inside pawno when a
      pawno directory was found, else inside qawno when one was found, and
      the lookup fails exactly when neither was found. The plugins
      directory is `plugins` directly in the root. */
  lemma TargetDirectories(folders: seq<Path>, entries: seq<Node>)
    requires Scan(folders, entries).Ok?
    ensures var w := Scan(folders, entries).value;
      && (w.pawnoPath.Some? ==> IncludePath(w) == Ok(Join(w.pawnoPath.value, "include")))
      && (w.pawnoPath.None? && w.qawnoPath.Some? ==> IncludePath(w) == Ok(Join(w.qawnoPath.value, "include")))
      && (IncludePath(w).Err? <==> w.pawnoPath.None? && w.qawnoPath.None?)
      && (IncludePath(w).Err? ==> IncludePath(w).message == "No Pawno or Qawno directory found")
      && (IncludePath(w).Ok? ==> IsUnder(IncludePath(w).value, w.rootPath))
      && PluginsPath(w) == w.rootPath + "/plugins"
  {
    var w := Scan(folders, entries).value;
    ScanIsShaped(folders, entries);
    if w.pawnoPath.Some? {
      JoinIsUnder(w.pawnoPath.value, "include");
      UnderTransitive(Join(w.pawnoPath.value, "include"), w.pawnoPath.value, w.rootPath);
    } else if w.qawnoPath.Some? {
      JoinIsUnder(w.qawnoPath.value, "include");
      UnderTransitive(Join(w.qawnoPath.value, "include"), w.qawnoPath.value, w.rootPath);
    }
  }

  // ---------------------------------------------------------------------
  // downloadFromGithub
  // ---------------------------------------------------------------------

  /** A release asset or a contents entry, as the two loops read it. */
  datatype Download = Download(name: string, url: Url)

  function AssetDownloads(assets: seq<Asset>): (ds: seq<Download>)
    ensures |ds| == |assets|
  {
    if assets == [] then []
    else
      var a := assets[|assets| - 1];
      AssetDownloads(assets[..|assets| - 1]) + [Download(a.name, a.browserDownloadUrl)]
  }

  function ContentDownloads(contents: seq<Content>): (ds: seq<Download>)
    ensures |ds| == |contents|
  {
    if contents == [] then []
    else
      var c := contents[|contents| - 1];
      ContentDownloads(contents[..|contents| - 1]) + [Download(c.name, c.downloadUrl)]
  }

  lemma {:induction false} AssetDownloadsAt(assets: seq<Asset>, i: nat)
    requires i < |assets|
    ensures AssetDownloads(assets)[i] == Download(assets[i].name, assets[i].browserDownloadUrl)
  {
    if i < |assets| - 1 {
      AssetDownloadsAt(assets[..|assets| - 1], i);
    }
  }

  lemma {:induction false} ContentDownloadsAt(contents: seq<Content>, i: nat)
    requires i < |contents|
    ensures ContentDownloads(contents)[i] == Download(contents[i].name, contents[i].downloadUrl)
  {
    if i < |contents| - 1 {
      ContentDownloadsAt(contents[..|contents| - 1], i);
    }
  }

  /** One loop: in order, each item whose name passes `keep` is downloaded
      and saved as `dir/name`; the first failed download ends the loop with
      its error. The release loop keeps plugin binaries (`IsPluginFile`),
      the contents loop include files (`IsIncludeFile`). */
  function SaveAll(fetch: Url -> Result<Bytes>, s: FsState, items: seq<Download>, dir: Path, keep: string -> bool): Run
    decreases |items|
  {
    if items == [] then Run(Pass, s, [])
    else SaveOne(fetch, SaveAll(fetch, s, items[..|items| - 1], dir, keep), items[|items| - 1], dir, keep)
  }

  /** One item of the loop, after the earlier ones gave `prev`. */
  function SaveOne(fetch: Url -> Result<Bytes>, prev: Run, it: Download, dir: Path, keep: string -> bool): Run {
    if prev.outcome.Fail? || !keep(it.name) then prev
    else match fetch(it.url)
      case Err(m) => Run(Fail(m), prev.fs, prev.fetched + [it.url])
      case Ok(b) => Run(Pass, Written(prev.fs, Join(dir, it.name), b), prev.fetched + [it.url])
  }

  /** What one item does to the files: a kept item whose download succeeds
      is saved at `dir/name`, and nothing else changes. */
  lemma SaveOneFiles(fetch: Url -> Result<Bytes>, prev: Run, it: Download, dir: Path, keep: string -> bool)
    ensures var r := SaveOne(fetch, prev, it, dir, keep);
      if prev.outcome.Pass? && keep(it.name) && fetch(it.url).Ok? then
        r.fs.files == prev.fs.files[Join(dir, it.name) := fetch(it.url).value]
        && r.outcome.Pass? && r.fetched == prev.fetched + [it.url]
      else
        r.fs.files == prev.fs.files
        && (r.outcome.Pass? <==> prev.outcome.Pass? && !keep(it.name))
        && r.fetched == prev.fetched + (if prev.outcome.Pass? && keep(it.name) then [it.url] else [])
  {
  }

  /** The download URLs of the wanted items, in order. */
  function WantedUrls(items: seq<Download>, keep: string -> bool): seq<Url> {
    if items == [] then []
    else
      var it := items[|items| - 1];
      WantedUrls(items[..|items| - 1], keep) + (if keep(it.name) then [it.url] else [])
  }

  /** Once the loop has failed, later items change nothing. */
  lemma {:induction false} SaveAllStaysFailed(fetch: Url -> Result<Bytes>, s: FsState, items: seq<Download>,
                                              dir: Path, keep: string -> bool, k: nat)
    requires k <= |items| && SaveAll(fetch, s, items[..k], dir, keep).outcome.Fail?
    ensures SaveAll(fetch, s, items, dir, keep) == SaveAll(fetch, s, items[..k], dir, keep)
    decreases |items|
  {
    if k < |items| {
      var init := items[..|items| - 1];
      assert init[..k] == items[..k];
      SaveAllStaysFailed(fetch, s, init, dir, keep, k);
    } else {
      assert items[..k] == items;
    }
  }

  /** `p` holds `content` because some kept item saved it there. */
  predicate SavedFrom(fetch: Url -> Result<Bytes>, items: seq<Download>, dir: Path, keep: string -> bool,
                      p: Path, content: Bytes)
  {
    exists i :: 0 <= i < |items| && keep(items[i].name) && p == Join(dir, items[i].name) && fetch(items[i].url) == Ok(content)
  }

  /** Every file that differs between `before` and `after` was saved
      there by a kept item. */
  ghost predicate OnlySaved(before: FsState, after: FsState, fetch: Url -> Result<Bytes>, items: seq<Download>,
                            dir: Path, keep: string -> bool)
  {
    forall p :: !Preserved(before, after, p) ==> p in after.files && SavedFrom(fetch, items, dir, keep, p, after.files[p])
  }

  /** Every file the loop changes is `dir/name` for a kept item, and holds
      what that item's URL served. */
  lemma {:induction false} SaveAllWritesKept(fetch: Url -> Result<Bytes>, s: FsState, items: seq<Download>,
                                             dir: Path, keep: string -> bool)
    ensures OnlySaved(s, SaveAll(fetch, s, items, dir, keep).fs, fetch, items, dir, keep)
    decreases |items|
  {
    if items != [] {
      var init := items[..|items| - 1];
      var it := items[|items| - 1];
      var prev := SaveAll(fetch, s, init, dir, keep);
      var r := SaveOne(fetch, prev, it, dir, keep);
      assert SaveAll(fetch, s, items, dir, keep) == r;
      SaveAllWritesKept(fetch, s, init, dir, keep);
      SaveOneFiles(fetch, prev, it, dir, keep);
      forall p | !Preserved(s, r.fs, p)
        ensures p in r.fs.files && SavedFrom(fetch, items, dir, keep, p, r.fs.files[p])
      {
        if prev.outcome.Pass? && keep(it.name) && fetch(it.url).Ok? && p == Join(dir, it.name) {
          assert items[|items| - 1] == it;
        } else {
          assert Preserved(prev.fs, r.fs, p);
          assert !Preserved(s, prev.fs, p);
          assert p in prev.fs.files && SavedFrom(fetch, init, dir, keep, p, prev.fs.files[p]);
          var i :| 0 <= i < |init| && keep(init[i].name) && p == Join(dir, init[i].name)
            && fetch(init[i].url) == Ok(prev.fs.files[p]);
          assert items[i] == init[i];
        }
      }
    }
  }

  /** A loop that succeeds has requested exactly the kept items' URLs in
      order and saved every kept item. */
  lemma {:induction false} SaveAllSavesEveryKept(fetch: Url -> Result<Bytes>, s: FsState, items: seq<Download>,
                                                 dir: Path, keep: string -> bool)
    ensures var r := SaveAll(fetch, s, items, dir, keep);
      r.outcome.Pass? ==>
        && r.fetched == WantedUrls(items, keep)
        && forall i :: 0 <= i < |items| && keep(items[i].name) ==> Join(dir, items[i].name) in r.fs.files
    decreases |items|
  {
    if items != [] {
      var init := items[..|items| - 1];
      var it := items[|items| - 1];
      var prev := SaveAll(fetch, s, init, dir, keep);
      var r := SaveOne(fetch, prev, it, dir, keep);
      assert SaveAll(fetch, s, items, dir, keep) == r;
      SaveAllSavesEveryKept(fetch, s, init, dir, keep);
      SaveOneFiles(fetch, prev, it, dir, keep);
      if r.outcome.Pass? {
        assert WantedUrls(items, keep) == WantedUrls(init, keep) + (if keep(it.name) then [it.url] else []);
        forall i | 0 <= i < |items| && keep(items[i].name) ensures Join(dir, items[i].name) in r.fs.files {
          if i < |init| {
            assert items[i] == init[i];
          }
        }
      }
    }
  }

  /** `downloadFromGithub`: both API requests are made; an error from
      either (the release's first) is the result; otherwise the plugin
      assets go to the plugins directory, then the include files of the
      repository's top level to the include directory. */
  function Github(web: Web, s: FsState, owner: string, repo: string, pluginsPath: Path, includePath: Path): Run {
    var api := [ReleaseUrl(owner, repo), ContentsUrl(owner, repo)];
    var release := web.releases(ReleaseUrl(owner, repo));
    var contents := web.listings(ContentsUrl(owner, repo));
    if release.Err? then Run(Fail(release.message), s, api)
    else if contents.Err? then Run(Fail(contents.message), s, api)
    else
      var a := SaveAll(web.fetch, s, AssetDownloads(release.value.assets), pluginsPath, IsPluginFile);
      if a.outcome.Fail? then Run(a.outcome, a.fs, api + a.fetched)
      else
        var c := SaveAll(web.fetch, a.fs, ContentDownloads(contents.value), includePath, IsIncludeFile);
        Run(c.outcome, c.fs, api + a.fetched + c.fetched)
  }

  /** Only plugin assets are saved, each as `pluginsPath/asset.name`, and
      only include files of the contents listing, each as
      `includePath/content.name`, with the bytes their URL served. */
  lemma GithubSavesOnlyClassified(web: Web, s: FsState, owner: string, repo: string,
                                  pluginsPath: Path, includePath: Path)
    ensures var g := Github(web, s, owner, repo, pluginsPath, includePath);
      forall p :: !Preserved(s, g.fs, p) ==>
        && p in g.fs.files
        && (|| (exists a :: a in web.releases(ReleaseUrl(owner, repo)).value.assets && IsPluginFile(a.name)
                  && p == Join(pluginsPath, a.name) && web.fetch(a.browserDownloadUrl) == Ok(g.fs.files[p]))
            || (exists c :: c in web.listings(ContentsUrl(owner, repo)).value && IsIncludeFile(c.name)
                  && p == Join(includePath, c.name) && web.fetch(c.downloadUrl) == Ok(g.fs.files[p])))
  {
    var g := Github(web, s, owner, repo, pluginsPath, includePath);
    var release := web.releases(ReleaseUrl(owner, repo));
    var contents := web.listings(ContentsUrl(owner, repo));
    if release.Ok? && contents.Ok? {
      var assets := release.value.assets;
      var ds := AssetDownloads(assets);
      var a := SaveAll(web.fetch, s, ds, pluginsPath, IsPluginFile);
      SaveAllWritesKept(web.fetch, s, ds, pluginsPath, IsPluginFile);
      var cs := ContentDownloads(contents.value);
      var c := SaveAll(web.fetch, a.fs, cs, includePath, IsIncludeFile);
      SaveAllWritesKept(web.fetch, a.fs, cs, includePath, IsIncludeFile);
      assert g.fs == if a.outcome.Pass? then c.fs else a.fs;
      forall p | !Preserved(s, g.fs, p)
        ensures p in g.fs.files
        ensures || (exists x :: x in assets && IsPluginFile(x.name)
                      && p == Join(pluginsPath, x.name) && web.fetch(x.browserDownloadUrl) == Ok(g.fs.files[p]))
                || (exists x :: x in contents.value && IsIncludeFile(x.name)
                      && p == Join(includePath, x.name) && web.fetch(x.downloadUrl) == Ok(g.fs.files[p]))
      {
        if a.outcome.Pass? && !Preserved(a.fs, c.fs, p) {
          assert p in c.fs.files && SavedFrom(web.fetch, cs, includePath, IsIncludeFile, p, c.fs.files[p]);
          var i :| 0 <= i < |cs| && IsIncludeFile(cs[i].name) && p == Join(includePath, cs[i].name)
            && web.fetch(cs[i].url) == Ok(c.fs.files[p]);
          ContentDownloadsAt(contents.value, i);
          assert contents.value[i] in contents.value;
        } else {
          assert Preserved(a.fs, g.fs, p);
          assert !Preserved(s, a.fs, p);
          assert p in a.fs.files && SavedFrom(web.fetch, ds, pluginsPath, IsPluginFile, p, a.fs.files[p]);
          var i :| 0 <= i < |ds| && IsPluginFile(ds[i].name) && p == Join(pluginsPath, ds[i].name)
            && web.fetch(ds[i].url) == Ok(a.fs.files[p]);
          AssetDownloadsAt(assets, i);
          assert assets[i] in assets;
        }
      }
    }
  }

  // ---------------------------------------------------------------------
  // downloadPackage, as a value
  // ---------------------------------------------------------------------

  /** `const [owner, repo] = input.split('/')`. */
  function Owner(input: string): string {
    Split(input, '/')[0]
  }

  function Repo(input: string): string
    requires '/' in input
  {
    var parts := Split(input, '/');
    assert |parts| >= 2 by {
      SplitFirst(input, '/');
      forall k | 0 <= k < |parts[0]|
        ensures input[k] != '/'
      {
        assert input[..|parts[0]|][k] == input[k];
      }
    }
    parts[1]
  }

  /** The owner is the text before the first `/` and the repository the
      text after it, up to the next `/` or the end. */
  lemma OwnerAndRepo(input: string)
    requires '/' in input
    ensures var o := Owner(input); var r := Repo(input);
      && (forall j :: 0 <= j < |o| ==> o[j] != '/')
      && (forall j :: 0 <= j < |r| ==> r[j] != '/')
      && |o| + 1 + |r| <= |input|
      && input[..|o| + 1 + |r|] == o + "/" + r
      && (|o| + 1 + |r| < |input| ==> input[|o| + 1 + |r|] == '/')
  {
    var o := Owner(input);
    var r := Repo(input);
    SplitFirst(input, '/');
    SplitRest(input, '/');
    var t := input[|o| + 1..];
    assert Split(t, '/')[0] == r;
    SplitFirst(t, '/');
    assert input[..|o| + 1 + |r|] == input[..|o| + 1] + t[..|r|];
  }

  /** The first attempt: GitHub for `owner/repo`, the custom source for any
      identifier without a `/`. */
  function Primary(web: Web, unzip: Unzip, s: FsState, input: string, pluginsPath: Path, includePath: Path): Run {
    if '/' in input then Github(web, s, Owner(input), Repo(input), pluginsPath, includePath)
    else CustomSource(web.fetch, unzip, s, input, pluginsPath, includePath)
  }

  function AllSourcesFailed(message: string): string {
    "Failed to download package from all sources: " + message
  }

  /** What a download does before the sweep: its outcome, the disk, the
      requests made and the installed list. */
  datatype Acquired = Acquired(outcome: Outcome, fs: FsState, fetched: seq<Url>, installed: seq<string>)

  /** `downloadPackage` after a successful `initialize`, up to the sweep:
      resolve the include directory (or fail before any request), ensure
      both directories, try the primary source, and on its failure the
      mirrors. A primary success records the package and updates the
      manifest; a mirror success only records it; when both fail the
      primary's error is reported and nothing is recorded. */
  function Acquire(web: Web, unzip: Unzip, parse: Bytes -> Option<Manifest>, render: Manifest -> Bytes,
                   s: FsState, installed: seq<string>, w: WorkspacePaths, input: string): Acquired
  {
    match IncludePath(w)
    case Err(m) => Acquired(Fail(m), s, [], installed)
    case Ok(includePath) =>
      var pluginsPath := PluginsPath(w);
      var ready := Ensured(Ensured(s, includePath), pluginsPath);
      var p := Primary(web, unzip, ready, input, pluginsPath, includePath);
      if p.outcome.Pass? then
        Acquired(Pass, Configured(p.fs, ManifestPath(w), input, parse, render), p.fetched, Recorded(installed, input))
      else
        var m := Mirror(web.fetch, p.fs, input, pluginsPath);
        if m.outcome.Pass? then Acquired(Pass, m.fs, p.fetched + m.fetched, Recorded(installed, input))
        else Acquired(Fail(AllSourcesFailed(p.outcome.message)), m.fs, p.fetched + m.fetched, installed)
  }

  /** The include directory is resolved before anything else: without a
      pawno or qawno directory nothing is requested and nothing changes.
      Otherwise the mirrors are tried only after the primary source failed,
      the package is recorded exactly when the download succeeded, and
      when both fail the primary's error is reported and the disk is as
      the primary left it. */
  lemma AcquireOutcomes(web: Web, unzip: Unzip, parse: Bytes -> Option<Manifest>, render: Manifest -> Bytes,
                        s: FsState, installed: seq<string>, w: WorkspacePaths, input: string)
    ensures var a := Acquire(web, unzip, parse, render, s, installed, w, input);
      && (IncludePath(w).Err? ==> a == Acquired(Fail("No Pawno or Qawno directory found"), s, [], installed))
      && (a.installed == if a.outcome.Pass? then Recorded(installed, input) else installed)
      && (IncludePath(w).Ok? ==>
            var includePath := IncludePath(w).value;
            var pluginsPath := PluginsPath(w);
            var p := Primary(web, unzip, Ensured(Ensured(s, includePath), pluginsPath), input, pluginsPath, includePath);
            var m := Mirror(web.fetch, p.fs, input, pluginsPath);
            && (p.outcome.Pass? ==> a.outcome.Pass? && a.fetched == p.fetched)
            && (p.outcome.Fail? ==> a.fetched == p.fetched + m.fetched && (a.outcome.Pass? <==> m.outcome.Pass?))
            && (a.outcome.Fail? ==>
                  a.outcome == Fail(AllSourcesFailed(p.outcome.message)) && a.fs == p.fs
                  && a.fetched == p.fetched + MirrorUrls(input)))
  {
    if IncludePath(w).Ok? {
      var includePath := IncludePath(w).value;
      var pluginsPath := PluginsPath(w);
      var p := Primary(web, unzip, Ensured(Ensured(s, includePath), pluginsPath), input, pluginsPath, includePath);
      MirrorLadder(web.fetch, p.fs, input, pluginsPath, 0);
    }
  }

  /** The manifest sits directly in the root, so it is inside neither
      target directory. */
  lemma ManifestOutsideTargets(w: WorkspacePaths, includePath: Path)
    requires IsUnder(includePath, w.rootPath)
    ensures var mp := ManifestPath(w);
      && Dirname(mp) == w.rootPath
      && Dirname(mp) != PluginsPath(w) && Dirname(mp) != includePath
      && !IsUnder(mp, PluginsPath(w)) && !IsUnder(mp, includePath)
  {
    var root := w.rootPath;
    var mp := ManifestPath(w);
    var name := "pawn-package.json";
    forall j | 0 <= j < |name| ensures name[j] != '/' {
    }
    JoinSplitsBack(root, name);
    forall j | |root| < j < |mp| ensures mp[j] != '/' {
      assert mp[j] == name[j - |root| - 1];
    }
    assert !IsUnder(mp, includePath) by {
      if |includePath| < |mp| {
        assert mp[|includePath|] != '/';
      }
    }
    var plug := PluginsPath(w);
    assert !IsUnder(mp, plug) by {
      assert mp[..|plug|][|root| + 2] == 'a' != plug[|root| + 2];
    }
  }

  /** The include directory of a shaped workspace lies below the root. */
  lemma IncludeBelowRoot(w: WorkspacePaths)
    requires Shaped(w) && IncludePath(w).Ok?
    ensures IsUnder(IncludePath(w).value, w.rootPath)
  {
    if w.pawnoPath.Some? && w.pawnoPath.value != "" {
      JoinIsUnder(w.pawnoPath.value, "include");
      UnderTransitive(IncludePath(w).value, w.pawnoPath.value, w.rootPath);
    } else {
      JoinIsUnder(w.qawnoPath.value, "include");
      UnderTransitive(IncludePath(w).value, w.qawnoPath.value, w.rootPath);
    }
  }

  /** The GitHub path writes nothing outside the two target directories. */
  lemma GithubStaysInside(web: Web, ready: FsState, owner: string, repo: string,
                          pluginsPath: Path, includePath: Path, q: Path)
    requires !IsUnder(q, pluginsPath) && !IsUnder(q, includePath)
    ensures Preserved(ready, Github(web, ready, owner, repo, pluginsPath, includePath).fs, q)
  {
    var release := web.releases(ReleaseUrl(owner, repo));
    var contents := web.listings(ContentsUrl(owner, repo));
    if release.Ok? && contents.Ok? {
      GithubSavesOnlyClassified(web, ready, owner, repo, pluginsPath, includePath);
      forall x | x in release.value.assets ensures q != Join(pluginsPath, x.name) {
        JoinIsUnder(pluginsPath, x.name);
      }
      forall x | x in contents.value ensures q != Join(includePath, x.name) {
        JoinIsUnder(includePath, x.name);
      }
    }
  }

  /** Neither primary source touches the manifest. */
  lemma PrimaryKeepsManifest(web: Web, unzip: Unzip, ready: FsState, w: WorkspacePaths, input: string)
    requires Shaped(w) && IncludePath(w).Ok?
    ensures var includePath := IncludePath(w).value;
      var pluginsPath := PluginsPath(w);
      Preserved(ready, Primary(web, unzip, ready, input, pluginsPath, includePath).fs, ManifestPath(w))
  {
    var includePath := IncludePath(w).value;
    var pluginsPath := PluginsPath(w);
    IncludeBelowRoot(w);
    ManifestOutsideTargets(w, includePath);
    if '/' in input {
      GithubStaysInside(web, ready, Owner(input), Repo(input), pluginsPath, includePath, ManifestPath(w));
    } else {
      CustomSourceConfined(web.fetch, unzip, ready, input, pluginsPath, includePath);
    }
  }

  /** Downloads write only inside the target directories, so the manifest
      is updated only after the primary source succeeded: then it holds the
      old manifest plus the dependency; after a mirror-only success or a
      failure it is untouched. */
  lemma ManifestOnlyAfterPrimary(web: Web, unzip: Unzip, parse: Bytes -> Option<Manifest>, render: Manifest -> Bytes,
                                 s: FsState, installed: seq<string>, w: WorkspacePaths, input: string)
    requires Shaped(w) && IncludePath(w).Ok?
    ensures var a := Acquire(web, unzip, parse, render, s, installed, w, input);
      var includePath := IncludePath(w).value;
      var pluginsPath := PluginsPath(w);
      var mp := ManifestPath(w);
      var p := Primary(web, unzip, Ensured(Ensured(s, includePath), pluginsPath), input, pluginsPath, includePath);
      && (p.outcome.Pass? ==> mp in a.fs.files && a.fs.files[mp] == render(WithDependency(Loaded(s, mp, parse), input)))
      && (p.outcome.Fail? ==> Preserved(s, a.fs, mp))
  {
    var includePath := IncludePath(w).value;
    var pluginsPath := PluginsPath(w);
    var mp := ManifestPath(w);
    var ready := Ensured(Ensured(s, includePath), pluginsPath);
    var p := Primary(web, unzip, ready, input, pluginsPath, includePath);
    assert Preserved(s, ready, mp);
    PrimaryKeepsManifest(web, unzip, ready, w, input);
    if p.outcome.Fail? {
      IncludeBelowRoot(w);
      ManifestOutsideTargets(w, includePath);
      MirrorLadder(web.fetch, p.fs, input, pluginsPath, 0);
    }
  }

  /** The plugins directory is an entry of the root. */
  lemma PluginsInRoot(w: WorkspacePaths)
    ensures IsChild(PluginsPath(w), w.rootPath)
  {
    var name := "plugins";
    forall j | 0 <= j < |name| ensures name[j] != '/' {
    }
    JoinSplitsBack(w.rootPath, name);
  }

  /** The sweep from the root reaches the plugins directory as one of the
      root's entries, and every plugin file in it names that directory as
      its target: moving it onto its own path and then unlinking the old
      path deletes it. So a plugin that sits directly in the plugins
      directory, with no file of its name elsewhere in the workspace, is
      gone after a sweep that succeeds, the very files the download had
      just placed there included. */
  lemma SweepEmptiesPlugins(s: FsState, w: WorkspacePaths, p: Path)
    requires Shaped(w) && IncludePath(w).Ok?
    requires Valid(s) && w.rootPath in s.dirs
    requires PluginsPath(w) in s.dirs && PluginsPath(w) !in s.files
    requires p in s.files && IsChild(p, PluginsPath(w)) && IsPluginFile(Basename(p))
    requires OnlyOfName(s, w.rootPath, p)
    requires Sweep(s, w.rootPath, PluginsPath(w), IncludePath(w).value).outcome.Pass?
    ensures p !in Sweep(s, w.rootPath, PluginsPath(w), IncludePath(w).value).fs.files
  {
    var root, pluginsPath, includePath := w.rootPath, PluginsPath(w), IncludePath(w).value;
    PluginsInRoot(w);
    IncludeBelowRoot(w);
    var bound := SweepBound(s, pluginsPath, includePath);
    SweepEmptiesTargetEntry(s, root, pluginsPath, includePath, bound, pluginsPath, p);
  }

  // ---------------------------------------------------------------------
  // The PackageManager object
  // ---------------------------------------------------------------------

  class PackageManager {
    const disk: Disk
    const web: Web
    /** The archive decoder the custom source hands archives to. */
    const unzip: Unzip
    /** JSON.parse and JSON.stringify on the manifest. */
    const parse: Bytes -> Option<Manifest>
    const render: Manifest -> Bytes
    /** The workspace folders' paths and the listing of the first one. */
    const folders: seq<Path>
    const tree: seq<Node>
    /** The `installedPackages` entry of the extension's global state. */
    var installed: seq<string>
    /** Set by `initialize`. */
    var workspacePaths: Option<WorkspacePaths>

    constructor (disk: Disk, web: Web, unzip: Unzip, parse: Bytes -> Option<Manifest>, render: Manifest -> Bytes,
                 folders: seq<Path>, tree: seq<Node>, installed: seq<string>)
      ensures this.disk == disk && this.web == web && this.unzip == unzip
      ensures this.parse == parse && this.render == render
      ensures this.folders == folders && this.tree == tree
      ensures this.installed == installed && workspacePaths == None
    {
      this.disk, this.web, this.unzip := disk, web, unzip;
      this.parse, this.render := parse, render;
      this.folders, this.tree := folders, tree;
      this.installed := installed;
      workspacePaths := None;
    }

    function IsPackageInstalled(packageId: string): bool
      reads this
    {
      packageId in installed
    }

    method SaveInstalledPackage(packageId: string)
      modifies this
      ensures installed == Recorded(old(installed), packageId)
      ensures workspacePaths == old(workspacePaths)
      ensures forall x :: IsPackageInstalled(x) <==> x in old(installed) || x == packageId
    {
      if packageId !in installed {
        installed := installed + [packageId];
      }
    }

    /** `updatePackageConfig`: a file that exists is parsed, a missing or
        unparseable one counts as an empty manifest. */
    method UpdatePackageConfig(configPath: Path, packageId: string)
      modifies disk
      ensures disk.State() == Configured(old(disk.State()), configPath, packageId, parse, render)
    {
      var config := EmptyManifest;
      if configPath in disk.files {
        var parsed := parse(disk.files[configPath]);
        if parsed.Some? {
          config := parsed.value;
        }
      }
      var dependencies := if config.dependencies.Some? then config.dependencies.value else map[];
      config := config.(dependencies := Some(dependencies[packageId := "*"]));
      disk.SaveFile(configPath, render(config));
    }

    /** `initialize`: scan the workspace; a root path that is empty is
        refused after it was stored. */
    method Initialize() returns (r: Outcome)
      modifies this
      ensures installed == old(installed)
      ensures match Scan(folders, tree)
        case Err(m) => r == Fail(m) && workspacePaths == old(workspacePaths)
        case Ok(w) => workspacePaths == Some(w) && r == if w.rootPath == "" then Fail("No workspace folder found") else Pass
    {
      var scanned := ScanWorkspace(folders, tree);
      if scanned.Err? {
        return Fail(scanned.message);
      }
      workspacePaths := Some(scanned.value);
      if scanned.value.rootPath == "" {
        return Fail("No workspace folder found");
      }
      r := Pass;
    }

    /** One loop of `downloadFromGithub`, saves run one after the other. */
    method SaveKept(items: seq<Download>, dir: Path, keep: string -> bool) returns (r: Outcome)
      modifies disk, web
      ensures Performed(SaveAll(web.fetch, old(disk.State()), items, dir, keep), r, disk.State(),
                        old(web.requests), web.requests)
    {
      ghost var s0 := disk.State();
      ghost var log0 := web.requests;
      for i := 0 to |items|
        invariant SaveAll(web.fetch, s0, items[..i], dir, keep).outcome == Pass
        invariant Performed(SaveAll(web.fetch, s0, items[..i], dir, keep), Pass, disk.State(), log0, web.requests)
      {
        ghost var prev := SaveAll(web.fetch, s0, items[..i], dir, keep);
        assert items[..i + 1][..i] == items[..i];
        assert SaveAll(web.fetch, s0, items[..i + 1], dir, keep) == SaveOne(web.fetch, prev, items[i], dir, keep);
        if keep(items[i].name) {
          var bytes := web.Get(items[i].url);
          AppendAssoc(log0, prev.fetched, [items[i].url]);
          if bytes.Err? {
            SaveAllStaysFailed(web.fetch, s0, items, dir, keep, i + 1);
            return Fail(bytes.message);
          }
          disk.SaveFile(Join(dir, items[i].name), bytes.value);
        }
      }
      assert items[..|items|] == items;
      r := Pass;
    }

    /** `downloadFromGithub`. */
    method DownloadFromGithub(owner: string, repo: string, pluginsPath: Path, includePath: Path)
      returns (r: Outcome)
      modifies disk, web
      ensures Performed(Github(web, old(disk.State()), owner, repo, pluginsPath, includePath), r, disk.State(),
                        old(web.requests), web.requests)
    {
      ghost var s0 := disk.State();
      ghost var log0 := web.requests;
      ghost var g := Github(web, s0, owner, repo, pluginsPath, includePath);
      ghost var releaseUrl, contentsUrl := ReleaseUrl(owner, repo), ContentsUrl(owner, repo);
      var release := web.GetLatestRelease(owner, repo);
      var contents := web.GetRepositoryContent(owner, repo);
      AppendAssoc(log0, [releaseUrl], [contentsUrl]);
      assert web.requests == log0 + [releaseUrl, contentsUrl];
      if release.Err? {
        assert g == Run(Fail(release.message), s0, [releaseUrl, contentsUrl]);
        return Fail(release.message);
      }
      if contents.Err? {
        assert g == Run(Fail(contents.message), s0, [releaseUrl, contentsUrl]);
        return Fail(contents.message);
      }
      ghost var a := SaveAll(web.fetch, s0, AssetDownloads(release.value.assets), pluginsPath, IsPluginFile);
      r := SaveKept(AssetDownloads(release.value.assets), pluginsPath, IsPluginFile);
      AppendAssoc(log0, [releaseUrl, contentsUrl], a.fetched);
      if r.Fail? {
        assert g == Run(a.outcome, a.fs, [releaseUrl, contentsUrl] + a.fetched);
        return;
      }
      ghost var c := SaveAll(web.fetch, a.fs, ContentDownloads(contents.value), includePath, IsIncludeFile);
      r := SaveKept(ContentDownloads(contents.value), includePath, IsIncludeFile);
      AppendAssoc(log0, [releaseUrl, contentsUrl] + a.fetched, c.fetched);
      assert g == Run(c.outcome, c.fs, [releaseUrl, contentsUrl] + a.fetched + c.fetched);
    }

    /** A package given as `owner/repo` comes from GitHub, any other from
        the custom source. */
    method DownloadFromPrimary(input: string, pluginsPath: Path, includePath: Path) returns (r: Outcome)
      modifies disk, web
      ensures Performed(Primary(web, unzip, old(disk.State()), input, pluginsPath, includePath), r, disk.State(),
                        old(web.requests), web.requests)
    {
      if '/' in input {
        r := DownloadFromGithub(Owner(input), Repo(input), pluginsPath, includePath);
      } else {
        r := DownloadFromCustomSource(disk, web, unzip, input, pluginsPath, includePath);
      }
    }

    /** The part of `downloadPackage` between `initialize` and the sweep. */
    method AcquirePackage(w: WorkspacePaths, input: string) returns (r: Outcome)
      modifies this, disk, web
      ensures var a := Acquire(web, unzip, parse, render, old(disk.State()), old(installed), w, input);
        && r == a.outcome && disk.State() == a.fs && installed == a.installed
        && web.requests == old(web.requests) + a.fetched
      ensures workspacePaths == old(workspacePaths)
    {
      ghost var s0, log0, installed0 := disk.State(), web.requests, installed;
      ghost var a := Acquire(web, unzip, parse, render, s0, installed0, w, input);
      var resolved := IncludePath(w);
      if resolved.Err? {
        assert a == Acquired(Fail(resolved.message), s0, [], installed0);
        assert log0 + [] == log0;
        return Fail(resolved.message);
      }
      var includePath := resolved.value;
      var pluginsPath := PluginsPath(w);
      disk.EnsureDirectory(includePath);
      disk.EnsureDirectory(pluginsPath);
      ghost var p := Primary(web, unzip, disk.State(), input, pluginsPath, includePath);
      var primary := DownloadFromPrimary(input, pluginsPath, includePath);
      if primary.Pass? {
        SaveInstalledPackage(input);
        UpdatePackageConfig(ManifestPath(w), input);
        assert a == Acquired(Pass, disk.State(), p.fetched, installed);
        return Pass;
      }
      ghost var m := Mirror(web.fetch, p.fs, input, pluginsPath);
      var mirror := DownloadFromMirror(disk, web, input, pluginsPath);
      AppendAssoc(log0, p.fetched, m.fetched);
      if mirror.Fail? {
        assert a == Acquired(Fail(AllSourcesFailed(primary.message)), m.fs, p.fetched + m.fetched, installed0);
        return Fail(AllSourcesFailed(primary.message));
      }
      SaveInstalledPackage(input);
      assert a == Acquired(Pass, m.fs, p.fetched + m.fetched, installed);
      r := Pass;
    }

    /** The last step of `downloadPackage`: sweep the workspace from its
        root into the plugins and include directories. */
    method SweepWorkspace(w: WorkspacePaths) returns (r: Outcome)
      requires IncludePath(w).Ok?
      modifies disk
      ensures var sweep := Sweep(old(disk.State()), w.rootPath, PluginsPath(w), IncludePath(w).value);
        r == sweep.outcome && disk.State() == sweep.fs
    {
      var pluginsPath, includePath := PluginsPath(w), IncludePath(w).value;
      ghost var bound := SweepBound(disk.State(), pluginsPath, includePath);
      r := ScanAndOrganizeFiles(disk, w.rootPath, pluginsPath, includePath, bound);
    }

    /** `downloadPackage` once the workspace is known: acquire the package
        and, on success, sweep the workspace from its root. */
    method Install(w: WorkspacePaths, input: string) returns (r: Outcome)
      modifies this, disk, web
      ensures var a := Acquire(web, unzip, parse, render, old(disk.State()), old(installed), w, input);
        && installed == a.installed
        && web.requests == old(web.requests) + a.fetched
        && (a.outcome.Fail? ==> r == a.outcome && disk.State() == a.fs)
        && (a.outcome.Pass? ==>
              var sweep := Sweep(a.fs, w.rootPath, PluginsPath(w), IncludePath(w).value);
              r == sweep.outcome && disk.State() == sweep.fs)
      ensures workspacePaths == old(workspacePaths)
    {
      r := AcquirePackage(w, input);
      if r.Fail? {
        return;
      }
      assert IncludePath(w).Ok?;
      r := SweepWorkspace(w);
    }

    /** `downloadPackage`: initialize, then install. */
    method DownloadPackage(input: string) returns (r: Outcome)
      modifies this, disk, web
      ensures var scanned := Scan(folders, tree);
        if scanned.Err? || scanned.value.rootPath == "" then
          && r == Fail("No workspace folder found") && installed == old(installed)
          && disk.State() == old(disk.State()) && web.requests == old(web.requests)
        else
          var w := scanned.value;
          var a := Acquire(web, unzip, parse, render, old(disk.State()), old(installed), w, input);
          && workspacePaths == Some(w)
          && installed == a.installed
          && web.requests == old(web.requests) + a.fetched
          && (a.outcome.Fail? ==> r == a.outcome && disk.State() == a.fs)
          && (a.outcome.Pass? ==>
                var sweep := Sweep(a.fs, w.rootPath, PluginsPath(w), IncludePath(w).value);
                r == sweep.outcome && disk.State() == sweep.fs)
    {
      var init := Initialize();
      if init.Fail? {
        return init;
      }
      r := Install(workspacePaths.value, input);
    }
  }
}
