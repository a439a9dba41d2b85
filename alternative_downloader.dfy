/** The fallback downloader (src/services/alternativeDownloader.ts): direct
    links dispatched on their extension, archives flattened into the
    plugins and include directories, a fixed ladder of guessed URLs, a
    fixed list of mirrors, and the sweep that moves loose plugin and
    include files out of a directory tree.

    Each download step is first given as a function from the disk state to
    a Run (what it returns, the disk afterwards and the URLs it requested);
    the methods below run the same steps against a Disk and a Web and are
    proved to do exactly what those functions say. */
module AlternativeDownloader {
  import opened Wrappers
  import opened PathUtils
  import opened FileSystem
  import opened Remote

  /** One archive entry: its path inside the archive and its bytes. */
  datatype Entry = Entry(entryName: Path, data: Bytes)

  /** The archive decoder (AdmZip): entries in archive order, or an error. */
  type Unzip = Bytes -> Result<seq<Entry>>

  /** The result of a download step, the disk after it, and the URLs it
      requested in order. */
  datatype Run = Run(outcome: Outcome, fs: FsState, fetched: seq<Url>)

  /** A method call did what `run` describes. */
  predicate Performed(run: Run, r: Outcome, after: FsState, log0: seq<Url>, log1: seq<Url>) {
    r == run.outcome && after == run.fs && log1 == log0 + run.fetched
  }

  /** File `p` is the same (present with the same bytes, or absent) in both. */
  predicate Preserved(a: FsState, b: FsState, p: Path) {
    (p in a.files <==> p in b.files) && (p in a.files ==> a.files[p] == b.files[p])
  }

  /** Every file that differs between `a` and `b` sits directly in one of
      the two directories. */
  ghost predicate Confined(a: FsState, b: FsState, pluginsPath: Path, includePath: Path) {
    forall p :: !Preserved(a, b, p) ==> Dirname(p) == pluginsPath || Dirname(p) == includePath
  }

  lemma ConfinedTransitive(a: FsState, b: FsState, c: FsState, pluginsPath: Path, includePath: Path)
    requires Confined(a, b, pluginsPath, includePath) && Confined(b, c, pluginsPath, includePath)
    ensures Confined(a, c, pluginsPath, includePath)
  {
  }

  /** Saving `dir/basename(x)` for `dir` one of the two directories. */
  lemma WrittenConfined(s: FsState, dir: Path, x: Path, content: Bytes, pluginsPath: Path, includePath: Path)
    requires dir == pluginsPath || dir == includePath
    ensures Confined(s, Written(s, Join(dir, Basename(x)), content), pluginsPath, includePath)
  {
    BasenameHasNoSeparator(x);
    JoinSplitsBack(dir, Basename(x));
  }

  // ---------------------------------------------------------------------
  // downloadBinaryDirect
  // ---------------------------------------------------------------------

  /** Fetch `url` and save it as `pluginsPath/basename(url)`; a fetch error
      is rethrown as "Failed to download binary: ...". */
  function BinaryDirect(fetch: Url -> Result<Bytes>, s: FsState, url: Url, pluginsPath: Path): Run {
    match fetch(url)
    case Err(m) => Run(Fail("Failed to download binary: " + m), s, [url])
    case Ok(body) => Run(Pass, Written(s, Join(pluginsPath, Basename(url)), body), [url])
  }

  // ---------------------------------------------------------------------
  // downloadAndExtractArchive
  // ---------------------------------------------------------------------

  /** Where an archive entry goes: plugins by their basename into the
      plugins directory, include files into the include directory,
      anything else nowhere. */
  function EntryTarget(entryName: Path, pluginsPath: Path, includePath: Path): Option<Path> {
    if IsPluginFile(entryName) then Some(Join(pluginsPath, Basename(entryName)))
    else if IsIncludeFile(entryName) then Some(Join(includePath, Basename(entryName)))
    else None
  }

  function PlaceEntry(s: FsState, e: Entry, pluginsPath: Path, includePath: Path): FsState {
    match EntryTarget(e.entryName, pluginsPath, includePath)
    case None => s
    case Some(target) => Written(s, target, e.data)
  }

  /** The entries saved one after another, in archive order. */
  function Placed(s: FsState, entries: seq<Entry>, pluginsPath: Path, includePath: Path): FsState
    decreases |entries|
  {
    if entries == [] then s
    else Placed(PlaceEntry(s, entries[0], pluginsPath, includePath), entries[1..], pluginsPath, includePath)
  }

  function ExtractArchive(fetch: Url -> Result<Bytes>, unzip: Unzip, s: FsState, url: Url,
                          pluginsPath: Path, includePath: Path): Run
  {
    match fetch(url)
    case Err(m) => Run(Fail("Failed to process archive: " + m), s, [url])
    case Ok(body) =>
      match unzip(body)
      case Err(m) => Run(Fail("Failed to process archive: " + m), s, [url])
      case Ok(entries) => Run(Pass, Placed(s, entries, pluginsPath, includePath), [url])
  }

  /** A direct binary requests its URL once and, when it arrives, writes
      exactly `pluginsPath/basename(url)` and nothing else; a failed fetch
      is reported with the binary prefix and changes nothing. */
  lemma BinaryDirectWritesOne(fetch: Url -> Result<Bytes>, s: FsState, url: Url, pluginsPath: Path)
    ensures var r := BinaryDirect(fetch, s, url, pluginsPath);
      var target := Join(pluginsPath, Basename(url));
      && r.fetched == [url]
      && (fetch(url).Err? ==> r == Run(Fail("Failed to download binary: " + fetch(url).message), s, [url]))
      && (fetch(url).Ok? ==>
            && r.outcome == Pass && target in r.fs.files && r.fs.files[target] == fetch(url).value
            && forall p :: p != target ==> Preserved(s, r.fs, p))
  {
  }

  /** An archive that cannot be fetched or decoded is reported with the
      archive prefix and writes nothing; a decoded one places its entries. */
  lemma ExtractArchiveOutcomes(fetch: Url -> Result<Bytes>, unzip: Unzip, s: FsState, url: Url,
                               pluginsPath: Path, includePath: Path)
    ensures var r := ExtractArchive(fetch, unzip, s, url, pluginsPath, includePath);
      && r.fetched == [url]
      && (fetch(url).Err? ==> r == Run(Fail("Failed to process archive: " + fetch(url).message), s, [url]))
      && (fetch(url).Ok? && unzip(fetch(url).value).Err? ==>
            r == Run(Fail("Failed to process archive: " + unzip(fetch(url).value).message), s, [url]))
      && (fetch(url).Ok? && unzip(fetch(url).value).Ok? ==>
            r == Run(Pass, Placed(s, unzip(fetch(url).value).value, pluginsPath, includePath), [url]))
  {
  }

  lemma PreservedTransitive(a: FsState, b: FsState, c: FsState, p: Path)
    requires Preserved(a, b, p) && Preserved(b, c, p)
    ensures Preserved(a, c, p)
  {
  }

  /** Placement flattens: a file that no plugin or include entry maps to
      (by `dir/basename(entry)`) is left as it was. */
  lemma {:induction false} PlacedKeepsOthers(s: FsState, entries: seq<Entry>, pluginsPath: Path,
                                             includePath: Path, p: Path)
    requires forall i :: 0 <= i < |entries| ==> EntryTarget(entries[i].entryName, pluginsPath, includePath) != Some(p)
    ensures Preserved(s, Placed(s, entries, pluginsPath, includePath), p)
    decreases |entries|
  {
    if entries != [] {
      var next := PlaceEntry(s, entries[0], pluginsPath, includePath);
      assert Preserved(s, next, p);
      forall j | 0 <= j < |entries[1..]|
        ensures EntryTarget(entries[1..][j].entryName, pluginsPath, includePath) != Some(p)
      {
        assert entries[1..][j] == entries[j + 1];
      }
      PlacedKeepsOthers(next, entries[1..], pluginsPath, includePath, p);
      PreservedTransitive(s, next, Placed(s, entries, pluginsPath, includePath), p);
    }
  }

  /** Later entries overwrite earlier ones: a target holds the bytes of the
      last entry that maps to it. */
  lemma {:induction false} PlacedLastWins(s: FsState, entries: seq<Entry>, pluginsPath: Path,
                                          includePath: Path, i: nat, target: Path)
    requires i < |entries| && EntryTarget(entries[i].entryName, pluginsPath, includePath) == Some(target)
    requires forall j :: i < j < |entries| ==> EntryTarget(entries[j].entryName, pluginsPath, includePath) != Some(target)
    ensures var final := Placed(s, entries, pluginsPath, includePath);
      target in final.files && final.files[target] == entries[i].data
    decreases |entries|
  {
    var next := PlaceEntry(s, entries[0], pluginsPath, includePath);
    assert Placed(s, entries, pluginsPath, includePath) == Placed(next, entries[1..], pluginsPath, includePath);
    if i == 0 {
      assert next == Written(s, target, entries[0].data);
      forall j | 0 <= j < |entries[1..]|
        ensures EntryTarget(entries[1..][j].entryName, pluginsPath, includePath) != Some(target)
      {
        assert entries[1..][j] == entries[j + 1];
      }
      PlacedKeepsOthers(next, entries[1..], pluginsPath, includePath, target);
    } else {
      forall j | i - 1 < j < |entries[1..]|
        ensures EntryTarget(entries[1..][j].entryName, pluginsPath, includePath) != Some(target)
      {
        assert entries[1..][j] == entries[j + 1];
      }
      assert entries[1..][i - 1] == entries[i];
      PlacedLastWins(next, entries[1..], pluginsPath, includePath, i - 1, target);
    }
  }

  /** The entries the extractor keeps. */
  function KeptEntries(entries: seq<Entry>, pluginsPath: Path, includePath: Path): seq<Entry> {
    if entries == [] then []
    else if EntryTarget(entries[0].entryName, pluginsPath, includePath).None? then
      KeptEntries(entries[1..], pluginsPath, includePath)
    else [entries[0]] + KeptEntries(entries[1..], pluginsPath, includePath)
  }

  /** Entries that are neither plugins nor include files are dropped: the
      result is as if the archive had held only the others. */
  lemma {:induction false} PlacedDropsOthers(s: FsState, entries: seq<Entry>, pluginsPath: Path, includePath: Path)
    ensures Placed(s, entries, pluginsPath, includePath)
         == Placed(s, KeptEntries(entries, pluginsPath, includePath), pluginsPath, includePath)
    decreases |entries|
  {
    if entries != [] {
      var next := PlaceEntry(s, entries[0], pluginsPath, includePath);
      PlacedDropsOthers(next, entries[1..], pluginsPath, includePath);
      var kept := KeptEntries(entries, pluginsPath, includePath);
      if EntryTarget(entries[0].entryName, pluginsPath, includePath).Some? {
        assert kept[0] == entries[0] && kept[1..] == KeptEntries(entries[1..], pluginsPath, includePath);
      }
    }
  }

  lemma PlacedConfined(s: FsState, entries: seq<Entry>, pluginsPath: Path, includePath: Path)
    ensures Confined(s, Placed(s, entries, pluginsPath, includePath), pluginsPath, includePath)
  {
    var final := Placed(s, entries, pluginsPath, includePath);
    forall p | Dirname(p) != pluginsPath && Dirname(p) != includePath ensures Preserved(s, final, p) {
      forall i | 0 <= i < |entries|
        ensures EntryTarget(entries[i].entryName, pluginsPath, includePath) != Some(p)
      {
        BasenameHasNoSeparator(entries[i].entryName);
        JoinSplitsBack(pluginsPath, Basename(entries[i].entryName));
        JoinSplitsBack(includePath, Basename(entries[i].entryName));
      }
      PlacedKeepsOthers(s, entries, pluginsPath, includePath, p);
    }
  }

  // ---------------------------------------------------------------------
  // downloadFromDirectLink
  // ---------------------------------------------------------------------

  datatype LinkKind = BinaryLink | ArchiveLink | Unsupported

  /** The `switch` on the lower-cased extension of the URL. */
  function KindOf(url: Url): LinkKind {
    var ext := GetFileExtension(url);
    if ext == ".dll" || ext == ".so" then BinaryLink
    else if ext == ".zip" || ext == ".rar" then ArchiveLink
    else Unsupported
  }

  function DirectLink(fetch: Url -> Result<Bytes>, unzip: Unzip, s: FsState, url: Url,
                      pluginsPath: Path, includePath: Path): Run
  {
    match KindOf(url)
    case BinaryLink => BinaryDirect(fetch, s, url, pluginsPath)
    case ArchiveLink => ExtractArchive(fetch, unzip, s, url, pluginsPath, includePath)
    case Unsupported => Run(Fail("Unsupported file type: " + GetFileExtension(url)), s, [])
  }

  /** Dispatch: plugin-file URLs are downloaded as binaries, `.zip` and
      `.rar` URLs as archives (both through the zip decoder), anything else
      fails without a request or a write. A failed link writes nothing;
      a successful one writes only into the two directories. */
  lemma DirectLinkDispatch(fetch: Url -> Result<Bytes>, unzip: Unzip, s: FsState, url: Url,
                           pluginsPath: Path, includePath: Path)
    ensures var r := DirectLink(fetch, unzip, s, url, pluginsPath, includePath);
      && (KindOf(url) == BinaryLink <==> IsPluginFile(url))
      && (KindOf(url) == Unsupported ==>
            r == Run(Fail("Unsupported file type: " + GetFileExtension(url)), s, []))
      && (KindOf(url) != Unsupported ==> r.fetched == [url])
      && (r.outcome.Fail? ==> r.fs == s)
      && Confined(s, r.fs, pluginsPath, includePath)
  {
    match fetch(url)
    case Err(_) =>
    case Ok(body) =>
      WrittenConfined(s, pluginsPath, url, body, pluginsPath, includePath);
      match unzip(body)
      case Err(_) =>
      case Ok(entries) => PlacedConfined(s, entries, pluginsPath, includePath);
  }

  // ---------------------------------------------------------------------
  // The two ladders: try candidates in order, stop at the first success
  // ---------------------------------------------------------------------

  /** How one candidate URL is tried: through the direct-link dispatch (the
      guessed URLs) or as a binary (the mirrors). */
  datatype Strategy = DirectLinks(includePath: Path) | BinariesOnly

  function Attempt(st: Strategy, fetch: Url -> Result<Bytes>, unzip: Unzip, s: FsState, url: Url, pluginsPath: Path): Run {
    match st
    case DirectLinks(includePath) => DirectLink(fetch, unzip, s, url, pluginsPath, includePath)
    case BinariesOnly => BinaryDirect(fetch, s, url, pluginsPath)
  }

  /** The candidate is requested exactly once when tried. */
  predicate RequestsOnce(st: Strategy, url: Url) {
    st.BinariesOnly? || KindOf(url) != Unsupported
  }

  /** Message of an exhausted ladder; never surfaced, since both callers
      replace it. */
  const Exhausted := "no candidate left"

  /** The candidates' attempts, each against the disk as the ladder found
      it: a candidate that fails writes nothing (AttemptFacts), so every
      candidate up to the first success sees that same disk. */
  function Attempts(st: Strategy, fetch: Url -> Result<Bytes>, unzip: Unzip, s: FsState,
                    urls: seq<Url>, pluginsPath: Path): (runs: seq<Run>)
    ensures |runs| == |urls|
  {
    seq(|urls|, i requires 0 <= i < |urls| => Attempt(st, fetch, unzip, s, urls[i], pluginsPath))
  }

  lemma AttemptsAt(st: Strategy, fetch: Url -> Result<Bytes>, unzip: Unzip, s: FsState,
                   urls: seq<Url>, pluginsPath: Path, i: nat)
    requires i < |urls|
    ensures Attempts(st, fetch, unzip, s, urls, pluginsPath)[i] == Attempt(st, fetch, unzip, s, urls[i], pluginsPath)
  {
  }

  /** The `for ... try { ...; return } catch { continue }` loops, from
      attempt `from` on: the first attempt that succeeds ends the ladder
      with its result; a failed one is logged and the next is tried; when
      none is left the ladder fails on the disk it started from. */
  function FirstSuccess(runs: seq<Run>, from: nat, s: FsState): Run
    requires from <= |runs|
    decreases |runs| - from
  {
    if from == |runs| then Run(Fail(Exhausted), s, [])
    else if runs[from].outcome.Pass? then runs[from]
    else
      var rest := FirstSuccess(runs, from + 1, s);
      Run(rest.outcome, rest.fs, runs[from].fetched + rest.fetched)
  }

  /** Every attempt requested its own candidate and nothing else. */
  predicate Logged(runs: seq<Run>, urls: seq<Url>, from: nat, to: nat)
    requires from <= to <= |runs| == |urls|
  {
    forall j :: from <= j < to ==> runs[j].fetched == [urls[j]]
  }

  /** The ladder stops at the first attempt that succeeds: its result is
      that attempt's, and exactly the candidates up to it were requested. */
  lemma {:induction false} FirstSuccessStops(runs: seq<Run>, urls: seq<Url>, from: nat, k: nat, s: FsState)
    requires from <= k < |runs| == |urls| && Logged(runs, urls, from, k + 1)
    requires forall j :: from <= j < k ==> runs[j].outcome.Fail?
    requires runs[k].outcome.Pass?
    ensures FirstSuccess(runs, from, s) == Run(Pass, runs[k].fs, urls[from..k + 1])
    decreases k - from
  {
    if from == k {
      assert urls[from..k + 1] == [urls[k]];
    } else {
      FirstSuccessStops(runs, urls, from + 1, k, s);
      assert [urls[from]] + urls[from + 1..k + 1] == urls[from..k + 1];
    }
  }

  /** When every attempt fails, all candidates were requested in order and
      the disk is the one the ladder started from. */
  lemma {:induction false} FirstSuccessExhausted(runs: seq<Run>, urls: seq<Url>, from: nat, s: FsState)
    requires from <= |runs| == |urls| && Logged(runs, urls, from, |runs|)
    requires forall j :: from <= j < |runs| ==> runs[j].outcome.Fail?
    ensures FirstSuccess(runs, from, s) == Run(Fail(Exhausted), s, urls[from..])
    decreases |runs| - from
  {
    if from < |runs| {
      FirstSuccessExhausted(runs, urls, from + 1, s);
      assert [urls[from]] + urls[from + 1..] == urls[from..];
    }
  }

  /** The ladder succeeds exactly when some attempt does, and then its
      result is one of the attempts'; otherwise the disk is untouched. */
  lemma {:induction false} FirstSuccessPicks(runs: seq<Run>, from: nat, s: FsState)
    requires from <= |runs|
    ensures var r := FirstSuccess(runs, from, s);
      && (r.outcome.Pass? <==> exists i :: from <= i < |runs| && runs[i].outcome.Pass?)
      && (r.outcome.Fail? ==> r.fs == s)
      && (r.outcome.Pass? ==> exists i :: from <= i < |runs| && runs[i].outcome == r.outcome && runs[i].fs == r.fs)
    decreases |runs| - from
  {
    if from < |runs| {
      FirstSuccessPicks(runs, from + 1, s);
    }
  }

  /** A ladder over candidate URLs. */
  function Ladder(st: Strategy, fetch: Url -> Result<Bytes>, unzip: Unzip, s: FsState,
                  urls: seq<Url>, pluginsPath: Path): Run
  {
    FirstSuccess(Attempts(st, fetch, unzip, s, urls, pluginsPath), 0, s)
  }

  lemma AttemptFacts(st: Strategy, fetch: Url -> Result<Bytes>, unzip: Unzip, s: FsState, url: Url, pluginsPath: Path)
    ensures var a := Attempt(st, fetch, unzip, s, url, pluginsPath);
      && (a.outcome.Fail? ==> a.fs == s)
      && (RequestsOnce(st, url) ==> a.fetched == [url])
      && Confined(s, a.fs, pluginsPath, if st.DirectLinks? then st.includePath else pluginsPath)
  {
    match st
    case DirectLinks(includePath) =>
      DirectLinkDispatch(fetch, unzip, s, url, pluginsPath, includePath);
    case BinariesOnly =>
      if fetch(url).Ok? {
        WrittenConfined(s, pluginsPath, url, fetch(url).value, pluginsPath, pluginsPath);
      }
  }

  /** The attempts of candidates that are each requested once are logged. */
  lemma AttemptsLogged(st: Strategy, fetch: Url -> Result<Bytes>, unzip: Unzip, s: FsState,
                       urls: seq<Url>, pluginsPath: Path)
    requires forall j :: 0 <= j < |urls| ==> RequestsOnce(st, urls[j])
    ensures Logged(Attempts(st, fetch, unzip, s, urls, pluginsPath), urls, 0, |urls|)
  {
    var runs := Attempts(st, fetch, unzip, s, urls, pluginsPath);
    forall j | 0 <= j < |urls| ensures runs[j].fetched == [urls[j]] {
      AttemptsAt(st, fetch, unzip, s, urls, pluginsPath, j);
      AttemptFacts(st, fetch, unzip, s, urls[j], pluginsPath);
    }
  }

  /** The ladder stops at the first candidate that succeeds: its result is
      that candidate's, and exactly the candidates up to it were requested. */
  lemma LadderTakesFirstSuccess(st: Strategy, fetch: Url -> Result<Bytes>, unzip: Unzip, s: FsState,
                                urls: seq<Url>, pluginsPath: Path, k: nat)
    requires k < |urls| && forall j :: 0 <= j < |urls| ==> RequestsOnce(st, urls[j])
    requires forall j :: 0 <= j < k ==> Attempt(st, fetch, unzip, s, urls[j], pluginsPath).outcome.Fail?
    requires Attempt(st, fetch, unzip, s, urls[k], pluginsPath).outcome.Pass?
    ensures Ladder(st, fetch, unzip, s, urls, pluginsPath)
         == Run(Pass, Attempt(st, fetch, unzip, s, urls[k], pluginsPath).fs, urls[..k + 1])
  {
    var runs := Attempts(st, fetch, unzip, s, urls, pluginsPath);
    AttemptsLogged(st, fetch, unzip, s, urls, pluginsPath);
    forall j | 0 <= j <= k ensures runs[j] == Attempt(st, fetch, unzip, s, urls[j], pluginsPath) {
      AttemptsAt(st, fetch, unzip, s, urls, pluginsPath, j);
    }
    FirstSuccessStops(runs, urls, 0, k, s);
    assert urls[0..k + 1] == urls[..k + 1];
  }

  /** When every candidate fails, all of them were requested in order and
      nothing was written. */
  lemma LadderAllFail(st: Strategy, fetch: Url -> Result<Bytes>, unzip: Unzip, s: FsState,
                      urls: seq<Url>, pluginsPath: Path)
    requires forall j :: 0 <= j < |urls| ==> RequestsOnce(st, urls[j])
    requires forall j :: 0 <= j < |urls| ==> Attempt(st, fetch, unzip, s, urls[j], pluginsPath).outcome.Fail?
    ensures Ladder(st, fetch, unzip, s, urls, pluginsPath) == Run(Fail(Exhausted), s, urls)
  {
    var runs := Attempts(st, fetch, unzip, s, urls, pluginsPath);
    AttemptsLogged(st, fetch, unzip, s, urls, pluginsPath);
    forall j | 0 <= j < |urls| ensures runs[j].outcome.Fail? {
      AttemptsAt(st, fetch, unzip, s, urls, pluginsPath, j);
    }
    FirstSuccessExhausted(runs, urls, 0, s);
    assert urls[0..] == urls;
  }

  /** The ladder succeeds exactly when some candidate would, and it only
      writes into the two directories. */
  lemma LadderSucceedsIffSome(st: Strategy, fetch: Url -> Result<Bytes>, unzip: Unzip, s: FsState,
                              urls: seq<Url>, pluginsPath: Path)
    ensures var r := Ladder(st, fetch, unzip, s, urls, pluginsPath);
      && (r.outcome.Pass? <==> exists i :: 0 <= i < |urls| && Attempt(st, fetch, unzip, s, urls[i], pluginsPath).outcome.Pass?)
      && (r.outcome.Fail? ==> r.fs == s)
      && Confined(s, r.fs, pluginsPath, if st.DirectLinks? then st.includePath else pluginsPath)
  {
    var runs := Attempts(st, fetch, unzip, s, urls, pluginsPath);
    var r := FirstSuccess(runs, 0, s);
    FirstSuccessPicks(runs, 0, s);
    forall i | 0 <= i < |urls| ensures runs[i] == Attempt(st, fetch, unzip, s, urls[i], pluginsPath) {
      AttemptsAt(st, fetch, unzip, s, urls, pluginsPath, i);
    }
    if r.outcome.Pass? {
      var i :| 0 <= i < |runs| && runs[i].outcome == r.outcome && runs[i].fs == r.fs;
      AttemptFacts(st, fetch, unzip, s, urls[i], pluginsPath);
    }
  }

  // ---------------------------------------------------------------------
  // downloadFromMirror
  // ---------------------------------------------------------------------

  const MirrorHosts: seq<string> := [
    "https://files.sa-mp.com/plugins",
    "https://assets.open.mp/plugins",
    "https://github.com/samp-plugins-mirror/plugins/raw/main"
  ]

  /** The three mirror URLs, in the order they are tried. */
  function MirrorUrls(pluginName: string): (urls: seq<Url>)
    ensures |urls| == 3 && forall i :: 0 <= i < 3 ==> urls[i] == Join(MirrorHosts[i], pluginName)
  {
    [ "https://files.sa-mp.com/plugins/" + pluginName,
      "https://assets.open.mp/plugins/" + pluginName,
      "https://github.com/samp-plugins-mirror/plugins/raw/main/" + pluginName ]
  }

  /** The mirrors serve binaries only; their attempts never consult an
      archive decoder. */
  const NoArchives: Unzip := _ => Err("not an archive")

  function Mirror(fetch: Url -> Result<Bytes>, s: FsState, pluginName: string, pluginsPath: Path): Run {
    var r := Ladder(BinariesOnly, fetch, NoArchives, s, MirrorUrls(pluginName), pluginsPath);
    if r.outcome.Pass? then r
    else Run(Fail("Failed to download " + pluginName + " from all mirrors"), r.fs, r.fetched)
  }

  /** The mirrors are tried in their fixed order and the first that answers
      wins; every mirror saves to `pluginsPath/basename(pluginName)`; when
      all three fail, all three were requested, nothing was written and the
      error names the plugin. */
  lemma MirrorLadder(fetch: Url -> Result<Bytes>, s: FsState, pluginName: string, pluginsPath: Path, k: nat)
    ensures var urls := MirrorUrls(pluginName);
      var m := Mirror(fetch, s, pluginName, pluginsPath);
      && (m.outcome.Pass? <==> exists i :: 0 <= i < 3 && fetch(urls[i]).Ok?)
      && (m.outcome.Fail? ==> m == Run(Fail("Failed to download " + pluginName + " from all mirrors"), s, urls))
      && (k < 3 && fetch(urls[k]).Ok? && (forall j :: 0 <= j < k ==> fetch(urls[j]).Err?) ==>
            m == Run(Pass, Written(s, Join(pluginsPath, Basename(pluginName)), fetch(urls[k]).value), urls[..k + 1]))
      && Confined(s, m.fs, pluginsPath, pluginsPath)
  {
    var urls := MirrorUrls(pluginName);
    forall i | 0 <= i < 3 ensures Basename(urls[i]) == Basename(pluginName) {
      BasenameOfJoin(MirrorHosts[i], pluginName);
    }
    LadderSucceedsIffSome(BinariesOnly, fetch, NoArchives, s, urls, pluginsPath);
    if forall j :: 0 <= j < 3 ==> fetch(urls[j]).Err? {
      LadderAllFail(BinariesOnly, fetch, NoArchives, s, urls, pluginsPath);
    }
    if k < 3 && fetch(urls[k]).Ok? && (forall j :: 0 <= j < k ==> fetch(urls[j]).Err?) {
      LadderTakesFirstSuccess(BinariesOnly, fetch, NoArchives, s, urls, pluginsPath, k);
    }
  }

  // ---------------------------------------------------------------------
  // downloadFromCustomSource
  // ---------------------------------------------------------------------

  predicate StartsWith(s: string, prefix: string) {
    |prefix| <= |s| && s[..|prefix|] == prefix
  }

  predicate IsHttpUrl(input: string) {
    StartsWith(input, "http://") || StartsWith(input, "https://")
  }

  /** The four guessed URLs, in the order they are tried. */
  function GuessedUrls(input: string): seq<Url> {
    [ "https://github.com/" + input + "/releases/latest/download/plugin.zip",
      "https://github.com/" + input + "/archive/refs/heads/main.zip",
      "https://raw.githubusercontent.com/" + input + "/main/plugin.dll",
      "https://raw.githubusercontent.com/" + input + "/main/plugin.so" ]
  }

  function CustomSource(fetch: Url -> Result<Bytes>, unzip: Unzip, s: FsState, input: string,
                        pluginsPath: Path, includePath: Path): Run
  {
    if IsHttpUrl(input) then DirectLink(fetch, unzip, s, input, pluginsPath, includePath)
    else
      var g := Ladder(DirectLinks(includePath), fetch, unzip, s, GuessedUrls(input), pluginsPath);
      if g.outcome.Pass? then g
      else
        var m := Mirror(fetch, g.fs, input, pluginsPath);
        Run(m.outcome, m.fs, g.fetched + m.fetched)
  }

  /** Any separator-free stem followed by `.zip` names a zip archive. */
  lemma ZipAfterStem(stem: string)
    requires |stem| > 0 && forall j :: 0 <= j < |stem| ==> stem[j] != '/'
    ensures GetFileExtension(stem + ".zip") == ".zip"
  {
    LowerOfLowercase(".zip");
    StemWithExtension(stem, ".zip");
  }

  /** Both guessed archive names end in `.zip`. */
  lemma GuessedArchivesAreZips()
    ensures GetFileExtension("plugin.zip") == ".zip" && GetFileExtension("main.zip") == ".zip"
  {
    var plugin, main := "plugin", "main";
    ZipAfterStem(plugin);
    assert plugin + ".zip" == "plugin.zip";
    ZipAfterStem(main);
    assert main + ".zip" == "main.zip";
  }

  lemma ExtensionOfPluginBinaries()
    ensures GetFileExtension("plugin.dll") == ".dll" && GetFileExtension("plugin.so") == ".so"
  {
    KeptExtensionsArePlain();
    StemWithExtension("plugin", ".dll");
    assert "plugin" + ".dll" == "plugin.dll";
    StemWithExtension("plugin", ".so");
    assert "plugin" + ".so" == "plugin.so";
  }

  /** The first two guesses are archives, the last two binaries. */
  lemma GuessedKinds(input: string)
    ensures var g := GuessedUrls(input);
      KindOf(g[0]) == ArchiveLink && KindOf(g[1]) == ArchiveLink
      && KindOf(g[2]) == BinaryLink && KindOf(g[3]) == BinaryLink
  {
    var g := GuessedUrls(input);
    assert g[0] == Join("https://github.com/" + input + "/releases/latest/download", "plugin.zip");
    assert g[1] == Join("https://github.com/" + input + "/archive/refs/heads", "main.zip");
    assert g[2] == Join("https://raw.githubusercontent.com/" + input + "/main", "plugin.dll");
    assert g[3] == Join("https://raw.githubusercontent.com/" + input + "/main", "plugin.so");
    ClassificationOfJoin("https://github.com/" + input + "/releases/latest/download", "plugin.zip");
    ClassificationOfJoin("https://github.com/" + input + "/archive/refs/heads", "main.zip");
    ClassificationOfJoin("https://raw.githubusercontent.com/" + input + "/main", "plugin.dll");
    ClassificationOfJoin("https://raw.githubusercontent.com/" + input + "/main", "plugin.so");
    GuessedArchivesAreZips();
    ExtensionOfPluginBinaries();
  }

  /** An http(s) input is handled by the direct-link dispatch alone: at
      most that one URL is requested, and its error is the result. */
  lemma HttpInputIsDirectOnly(fetch: Url -> Result<Bytes>, unzip: Unzip, s: FsState, input: string,
                              pluginsPath: Path, includePath: Path)
    requires IsHttpUrl(input)
    ensures var r := CustomSource(fetch, unzip, s, input, pluginsPath, includePath);
      && r == DirectLink(fetch, unzip, s, input, pluginsPath, includePath)
      && (forall u :: u in r.fetched ==> u == input)
  {
    DirectLinkDispatch(fetch, unzip, s, input, pluginsPath, includePath);
  }

  /** Each guess is requested exactly once when tried. */
  lemma GuessesRequestOnce(unzip: Unzip, includePath: Path, input: string)
    ensures var g := GuessedUrls(input);
      forall j :: 0 <= j < |g| ==> RequestsOnce(DirectLinks(includePath), g[j])
  {
    var g := GuessedUrls(input);
    GuessedKinds(input);
    forall j | 0 <= j < |g| ensures KindOf(g[j]) != Unsupported {
      assert j == 0 || j == 1 || j == 2 || j == 3;
    }
  }

  /** Any other input tries the four guesses in order and returns at the
      first that succeeds, having requested exactly the guesses up to it. */
  lemma CustomSourceFirstGuess(fetch: Url -> Result<Bytes>, unzip: Unzip, s: FsState, input: string,
                               pluginsPath: Path, includePath: Path, k: nat)
    requires !IsHttpUrl(input) && k < 4
    requires var g := GuessedUrls(input);
      && DirectLink(fetch, unzip, s, g[k], pluginsPath, includePath).outcome.Pass?
      && forall j :: 0 <= j < k ==> DirectLink(fetch, unzip, s, g[j], pluginsPath, includePath).outcome.Fail?
    ensures var g := GuessedUrls(input);
      CustomSource(fetch, unzip, s, input, pluginsPath, includePath)
        == Run(Pass, DirectLink(fetch, unzip, s, g[k], pluginsPath, includePath).fs, g[..k + 1])
  {
    GuessesRequestOnce(unzip, includePath, input);
    LadderTakesFirstSuccess(DirectLinks(includePath), fetch, unzip, s, GuessedUrls(input), pluginsPath, k);
  }

  /** Only when all four guesses fail does it go on to the mirrors, from
      the untouched disk; the mirrors' result is then the result. */
  lemma CustomSourceFallsBackToMirrors(fetch: Url -> Result<Bytes>, unzip: Unzip, s: FsState, input: string,
                                       pluginsPath: Path, includePath: Path)
    requires !IsHttpUrl(input)
    requires var g := GuessedUrls(input);
      forall j :: 0 <= j < 4 ==> DirectLink(fetch, unzip, s, g[j], pluginsPath, includePath).outcome.Fail?
    ensures var m := Mirror(fetch, s, input, pluginsPath);
      CustomSource(fetch, unzip, s, input, pluginsPath, includePath)
        == Run(m.outcome, m.fs, GuessedUrls(input) + m.fetched)
  {
    GuessesRequestOnce(unzip, includePath, input);
    LadderAllFail(DirectLinks(includePath), fetch, unzip, s, GuessedUrls(input), pluginsPath);
  }

  /** Whatever happens, a custom-source download only writes files directly
      inside the plugins or the include directory. */
  lemma CustomSourceConfined(fetch: Url -> Result<Bytes>, unzip: Unzip, s: FsState, input: string,
                             pluginsPath: Path, includePath: Path)
    ensures Confined(s, CustomSource(fetch, unzip, s, input, pluginsPath, includePath).fs, pluginsPath, includePath)
  {
    if IsHttpUrl(input) {
      DirectLinkDispatch(fetch, unzip, s, input, pluginsPath, includePath);
    } else {
      var g := Ladder(DirectLinks(includePath), fetch, unzip, s, GuessedUrls(input), pluginsPath);
      LadderSucceedsIffSome(DirectLinks(includePath), fetch, unzip, s, GuessedUrls(input), pluginsPath);
      if g.outcome.Fail? {
        MirrorLadder(fetch, g.fs, input, pluginsPath, 0);
        var m := Mirror(fetch, g.fs, input, pluginsPath);
        assert Confined(g.fs, m.fs, pluginsPath, includePath);
      }
    }
  }

  // ---------------------------------------------------------------------
  // The downloads, run against the disk and the network
  // ---------------------------------------------------------------------

  /** `downloadBinaryDirect`. */
  method DownloadBinaryDirect(disk: Disk, web: Web, url: Url, pluginsPath: Path) returns (r: Outcome)
    modifies disk, web
    ensures Performed(BinaryDirect(web.fetch, old(disk.State()), url, pluginsPath),
                      r, disk.State(), old(web.requests), web.requests)
  {
    var response := web.Get(url);
    match response
    case Err(m) =>
      r := Fail("Failed to download binary: " + m);
    case Ok(body) =>
      disk.SaveFile(Join(pluginsPath, Basename(url)), body);
      r := Pass;
  }

  /** `downloadAndExtractArchive`: the entries are saved one by one. */
  method DownloadAndExtractArchive(disk: Disk, web: Web, unzip: Unzip, url: Url,
                                   pluginsPath: Path, includePath: Path) returns (r: Outcome)
    modifies disk, web
    ensures Performed(ExtractArchive(web.fetch, unzip, old(disk.State()), url, pluginsPath, includePath),
                      r, disk.State(), old(web.requests), web.requests)
  {
    var response := web.Get(url);
    if response.Err? {
      return Fail("Failed to process archive: " + response.message);
    }
    var decoded := unzip(response.value);
    if decoded.Err? {
      return Fail("Failed to process archive: " + decoded.message);
    }
    var entries := decoded.value;
    for i := 0 to |entries|
      invariant Placed(disk.State(), entries[i..], pluginsPath, includePath)
             == Placed(old(disk.State()), entries, pluginsPath, includePath)
      invariant web.requests == old(web.requests) + [url]
    {
      var entry := entries[i];
      if IsPluginFile(entry.entryName) {
        disk.SaveFile(Join(pluginsPath, Basename(entry.entryName)), entry.data);
      } else if IsIncludeFile(entry.entryName) {
        disk.SaveFile(Join(includePath, Basename(entry.entryName)), entry.data);
      }
      assert entries[i..][1..] == entries[i + 1..];
    }
    r := Pass;
  }

  /** `downloadFromDirectLink`. */
  method DownloadFromDirectLink(disk: Disk, web: Web, unzip: Unzip, url: Url,
                                pluginsPath: Path, includePath: Path) returns (r: Outcome)
    modifies disk, web
    ensures Performed(DirectLink(web.fetch, unzip, old(disk.State()), url, pluginsPath, includePath),
                      r, disk.State(), old(web.requests), web.requests)
  {
    match KindOf(url)
    case BinaryLink =>
      r := DownloadBinaryDirect(disk, web, url, pluginsPath);
    case ArchiveLink =>
      r := DownloadAndExtractArchive(disk, web, unzip, url, pluginsPath, includePath);
    case Unsupported =>
      r := Fail("Unsupported file type: " + GetFileExtension(url));
  }

  /** The result of a ladder, given the candidates already tried. */
  function Resumed(rest: Run, done: seq<Url>): Run {
    Run(rest.outcome, rest.fs, done + rest.fetched)
  }

  /** Candidate `i` of a ladder, tried as its strategy says: the call does
      what the candidate's attempt describes, requests the candidate once,
      and writes nothing when it fails. */
  method TryAt(disk: Disk, web: Web, st: Strategy, unzip: Unzip, urls: seq<Url>, i: nat,
               pluginsPath: Path) returns (r: Outcome)
    requires i < |urls| && RequestsOnce(st, urls[i])
    modifies disk, web
    ensures var run := Attempts(st, web.fetch, unzip, old(disk.State()), urls, pluginsPath)[i];
      && Performed(run, r, disk.State(), old(web.requests), web.requests)
      && run.fetched == [urls[i]]
      && (r.Fail? ==> disk.State() == old(disk.State()))
  {
    AttemptsAt(st, web.fetch, unzip, disk.State(), urls, pluginsPath, i);
    AttemptFacts(st, web.fetch, unzip, disk.State(), urls[i], pluginsPath);
    match st
    case DirectLinks(includePath) =>
      r := DownloadFromDirectLink(disk, web, unzip, urls[i], pluginsPath, includePath);
    case BinariesOnly =>
      r := DownloadBinaryDirect(disk, web, urls[i], pluginsPath);
  }

  lemma AppendAssoc(a: seq<Url>, b: seq<Url>, c: seq<Url>)
    ensures a + b + c == a + (b + c)
  {
  }

  /** The log after one more candidate. */
  lemma DoneGrows(urls: seq<Url>, i: nat, log: seq<Url>, rest: seq<Url>)
    requires i < |urls|
    ensures log + urls[..i] + [urls[i]] == log + urls[..i + 1]
    ensures urls[..i] + ([urls[i]] + rest) == urls[..i + 1] + rest
  {
    assert urls[..i + 1] == urls[..i] + [urls[i]];
  }

  /** The `for (...) { try { ...; return; } catch { continue; } }` loop
      shared by the mirror list and the guessed URLs. */
  method TryInOrder(disk: Disk, web: Web, st: Strategy, unzip: Unzip, urls: seq<Url>, pluginsPath: Path) returns (r: Outcome)
    requires forall j :: 0 <= j < |urls| ==> RequestsOnce(st, urls[j])
    modifies disk, web
    ensures Performed(Ladder(st, web.fetch, unzip, old(disk.State()), urls, pluginsPath),
                      r, disk.State(), old(web.requests), web.requests)
  {
    ghost var s0 := disk.State();
    ghost var runs := Attempts(st, web.fetch, unzip, s0, urls, pluginsPath);
    for i := 0 to |urls|
      invariant disk.State() == s0
      invariant web.requests == old(web.requests) + urls[..i]
      invariant FirstSuccess(runs, 0, s0) == Resumed(FirstSuccess(runs, i, s0), urls[..i])
    {
      var attempt := TryAt(disk, web, st, unzip, urls, i, pluginsPath);
      if attempt.Pass? {
        AppendAssoc(old(web.requests), urls[..i], runs[i].fetched);
        return Pass;
      }
      DoneGrows(urls, i, old(web.requests), FirstSuccess(runs, i + 1, s0).fetched);
    }
    assert urls[..|urls|] == urls;
    r := Fail(Exhausted);
  }

  /** `downloadFromMirror`. */
  method DownloadFromMirror(disk: Disk, web: Web, pluginName: string, pluginsPath: Path) returns (r: Outcome)
    modifies disk, web
    ensures Performed(Mirror(web.fetch, old(disk.State()), pluginName, pluginsPath),
                      r, disk.State(), old(web.requests), web.requests)
  {
    r := TryInOrder(disk, web, BinariesOnly, NoArchives, MirrorUrls(pluginName), pluginsPath);
    if r.Fail? {
      r := Fail("Failed to download " + pluginName + " from all mirrors");
    }
  }

  /** `downloadFromCustomSource`. */
  method DownloadFromCustomSource(disk: Disk, web: Web, unzip: Unzip, input: string,
                                  pluginsPath: Path, includePath: Path) returns (r: Outcome)
    modifies disk, web
    ensures Performed(CustomSource(web.fetch, unzip, old(disk.State()), input, pluginsPath, includePath),
                      r, disk.State(), old(web.requests), web.requests)
  {
    if IsHttpUrl(input) {
      r := DownloadFromDirectLink(disk, web, unzip, input, pluginsPath, includePath);
      return;
    }
    GuessesRequestOnce(unzip, includePath, input);
    ghost var log0 := web.requests;
    ghost var g := Ladder(DirectLinks(includePath), web.fetch, unzip, disk.State(), GuessedUrls(input), pluginsPath);
    r := TryInOrder(disk, web, DirectLinks(includePath), unzip, GuessedUrls(input), pluginsPath);
    if r.Fail? {
      ghost var m := Mirror(web.fetch, disk.State(), input, pluginsPath);
      r := DownloadFromMirror(disk, web, input, pluginsPath);
      AppendAssoc(log0, g.fetched, m.fetched);
    }
  }

  // ---------------------------------------------------------------------
  // scanAndOrganizeFiles
  // ---------------------------------------------------------------------

  /** One loose file met by the sweep: a plugin or include file is saved
      under its name in the matching directory and then unlinked at its old
      path; any other file stays. */
  function MovedLoose(s: FsState, c: Path, pluginsPath: Path, includePath: Path): FsState
    requires c in s.files
  {
    var name := Basename(c);
    if IsPluginFile(name) then Unlinked(Written(s, Join(pluginsPath, name), s.files[c]), c)
    else if IsIncludeFile(name) then Unlinked(Written(s, Join(includePath, name), s.files[c]), c)
    else s
  }

  /** The directory the sweep moves a file with this name to. */
  function SweepTarget(name: string, pluginsPath: Path, includePath: Path): Option<Path> {
    if IsPluginFile(name) then Some(pluginsPath)
    else if IsIncludeFile(name) then Some(includePath)
    else None
  }

  /** A classified file elsewhere moves: its bytes appear under its name in
      the target directory and its old path is gone, nothing else changes;
      an unclassified file leaves the files as they were. */
  lemma MovedLooseMoves(s: FsState, c: Path, pluginsPath: Path, includePath: Path)
    requires c in s.files
    ensures var r := MovedLoose(s, c, pluginsPath, includePath);
      match SweepTarget(Basename(c), pluginsPath, includePath)
      case None => r.files == s.files
      case Some(dir) =>
        Join(dir, Basename(c)) != c ==>
          && Join(dir, Basename(c)) in r.files && r.files[Join(dir, Basename(c))] == s.files[c]
          && c !in r.files
          && forall p :: p != c && p != Join(dir, Basename(c)) ==> Preserved(s, r, p)
  {
    var name := Basename(c);
    var r := MovedLoose(s, c, pluginsPath, includePath);
    match SweepTarget(name, pluginsPath, includePath)
    case None =>
    case Some(dir) =>
      if Join(dir, name) != c {
        assert r == Unlinked(Written(s, Join(dir, name), s.files[c]), c);
        MoveFacts(s, c, Join(dir, name));
      }
  }

  /** Saving the bytes of `c` at another path `t` and unlinking `c`. */
  lemma MoveFacts(s: FsState, c: Path, t: Path)
    requires c in s.files && t != c
    ensures var r := Unlinked(Written(s, t, s.files[c]), c);
      && t in r.files && r.files[t] == s.files[c] && c !in r.files
      && forall p :: p != c && p != t ==> Preserved(s, r, p)
  {
  }

  /** Writing and then unlinking with no guard for equal paths: a plugin
      file already directly inside the plugins directory (or an include
      file already inside the include directory) is deleted outright. */
  lemma SamePathDeletes(s: FsState, c: Path, pluginsPath: Path, includePath: Path)
    requires c in s.files && LastIndex(c, '/').Some?
    requires SweepTarget(Basename(c), pluginsPath, includePath) == Some(Dirname(c))
    ensures MovedLoose(s, c, pluginsPath, includePath).files == s.files - {c}
  {
    DirnameJoinsBasename(c);
  }

  /** `p` was added or given new bytes. */
  predicate Changed(a: FsState, b: FsState, p: Path) {
    p in b.files && !(p in a.files && a.files[p] == b.files[p])
  }

  /** What a sweep of `sourcePath` may do to the disk: every file it adds
      or rewrites is a plugin or include file directly inside the matching
      directory and holds the bytes of a file with the same name that was
      below `sourcePath`; every file it removes was a plugin or include file
      below `sourcePath`; it removes only directories below `sourcePath`,
      drops nothing else from the creation order, and creates only the two
      target directories and their ancestors. */
  ghost predicate Swept(a: FsState, b: FsState, sourcePath: Path, pluginsPath: Path, includePath: Path) {
    && (forall p :: Changed(a, b, p) ==>
          && SweepTarget(Basename(p), pluginsPath, includePath) == Some(Dirname(p))
          && exists q :: q in a.files && IsUnder(q, sourcePath) && Basename(q) == Basename(p) && a.files[q] == b.files[p])
    && (forall p :: p in a.files && p !in b.files ==>
          IsUnder(p, sourcePath) && SweepTarget(Basename(p), pluginsPath, includePath).Some?)
    && (forall d :: d in a.dirs && d !in b.dirs ==> IsUnder(d, sourcePath))
    && (forall q :: q in a.order && q !in b.order ==> IsUnder(q, sourcePath))
    && (forall d :: d in b.dirs && d !in a.dirs ==>
          d == pluginsPath || d == includePath || IsUnder(pluginsPath, d) || IsUnder(includePath, d))
  }

  /** Files that are neither plugins nor include files are never touched
      by a sweep. */
  lemma SweepKeepsOthers(a: FsState, b: FsState, sourcePath: Path, pluginsPath: Path, includePath: Path, p: Path)
    requires Swept(a, b, sourcePath, pluginsPath, includePath)
    requires !IsPluginFile(Basename(p)) && !IsIncludeFile(Basename(p))
    ensures Preserved(a, b, p)
  {
    assert !Changed(a, b, p);
  }

  /** Files outside the source tree and not directly inside either target
      directory are never touched by a sweep. */
  lemma SweepKeepsOutside(a: FsState, b: FsState, sourcePath: Path, pluginsPath: Path, includePath: Path, p: Path)
    requires Swept(a, b, sourcePath, pluginsPath, includePath)
    requires !IsUnder(p, sourcePath) && Dirname(p) != pluginsPath && Dirname(p) != includePath
    ensures Preserved(a, b, p)
  {
    assert !Changed(a, b, p);
  }

  lemma {:induction false} SweptTransitive(a: FsState, b: FsState, c: FsState, sourcePath: Path,
                                           pluginsPath: Path, includePath: Path)
    requires Swept(a, b, sourcePath, pluginsPath, includePath)
    requires Swept(b, c, sourcePath, pluginsPath, includePath)
    ensures Swept(a, c, sourcePath, pluginsPath, includePath)
  {
    forall p | Changed(a, c, p)
      ensures SweepTarget(Basename(p), pluginsPath, includePath) == Some(Dirname(p))
      ensures exists q :: q in a.files && IsUnder(q, sourcePath) && Basename(q) == Basename(p) && a.files[q] == c.files[p]
    {
      if Changed(b, c, p) {
        var q :| q in b.files && IsUnder(q, sourcePath) && Basename(q) == Basename(p) && b.files[q] == c.files[p];
        if Changed(a, b, q) {
          var q' :| q' in a.files && IsUnder(q', sourcePath) && Basename(q') == Basename(q) && a.files[q'] == b.files[q];
          assert a.files[q'] == c.files[p];
        } else {
          assert a.files[q] == c.files[p];
        }
      } else {
        assert Changed(a, b, p);
      }
    }
  }

  /** A sweep of a subdirectory is a sweep of any directory above it. */
  lemma SweptWiden(a: FsState, b: FsState, sub: Path, sourcePath: Path, pluginsPath: Path, includePath: Path)
    requires Swept(a, b, sub, pluginsPath, includePath) && IsUnder(sub, sourcePath)
    ensures Swept(a, b, sourcePath, pluginsPath, includePath)
  {
    forall p | IsUnder(p, sub) ensures IsUnder(p, sourcePath) {
      UnderTransitive(p, sub, sourcePath);
    }
  }

  /** Moving one loose file below the source is a sweep step. */
  lemma MovedLooseSwept(s: FsState, c: Path, sourcePath: Path, pluginsPath: Path, includePath: Path)
    requires c in s.files && IsUnder(c, sourcePath)
    ensures Swept(s, MovedLoose(s, c, pluginsPath, includePath), sourcePath, pluginsPath, includePath)
  {
    var name := Basename(c);
    match SweepTarget(name, pluginsPath, includePath)
    case None =>
    case Some(dir) =>
      BasenameHasNoSeparator(c);
      JoinSplitsBack(dir, name);
      assert MovedLoose(s, c, pluginsPath, includePath) == Unlinked(Written(s, Join(dir, name), s.files[c]), c);
      MoveSwept(s, c, Join(dir, name), sourcePath, pluginsPath, includePath);
  }

  /** Saving the bytes of `c` under its name in its target directory and
      unlinking `c` is a sweep step. */
  lemma MoveSwept(s: FsState, c: Path, t: Path, sourcePath: Path, pluginsPath: Path, includePath: Path)
    requires c in s.files && IsUnder(c, sourcePath)
    requires Basename(t) == Basename(c) && SweepTarget(Basename(c), pluginsPath, includePath) == Some(Dirname(t))
    ensures Swept(s, Unlinked(Written(s, t, s.files[c]), c), sourcePath, pluginsPath, includePath)
  {
    var r := Unlinked(Written(s, t, s.files[c]), c);
    forall p | Changed(s, r, p)
      ensures SweepTarget(Basename(p), pluginsPath, includePath) == Some(Dirname(p))
      ensures exists q :: q in s.files && IsUnder(q, sourcePath) && Basename(q) == Basename(p) && s.files[q] == r.files[p]
    {
      assert p == t;
      assert s.files[c] == r.files[p];
    }
    assert Dirname(t) == pluginsPath || Dirname(t) == includePath;
  }

  /** Removing a directory below the source is a sweep step. */
  lemma RemovedSwept(s: FsState, d: Path, sourcePath: Path, pluginsPath: Path, includePath: Path)
    requires Removed(s, d).Ok? && IsUnder(d, sourcePath)
    ensures Swept(s, Removed(s, d).value, sourcePath, pluginsPath, includePath)
  {
  }

  /** No directory path is longer than `bound`. */
  ghost predicate DirsBounded(s: FsState, bound: nat) {
    forall d :: d in s.dirs ==> |d| <= bound
  }

  lemma SweptBounded(a: FsState, b: FsState, sourcePath: Path, pluginsPath: Path, includePath: Path, bound: nat)
    requires Swept(a, b, sourcePath, pluginsPath, includePath) && DirsBounded(a, bound)
    requires |pluginsPath| <= bound && |includePath| <= bound
    ensures DirsBounded(b, bound)
  {
  }

  // ---------------------------------------------------------------------
  // The sweep as a function of the disk
  // ---------------------------------------------------------------------

  /** What a sweep ends with and the disk it leaves. */
  datatype Sweeping = Sweeping(outcome: Outcome, fs: FsState)

  /** The length of the longest path in `ps`. */
  ghost function Longest(ps: set<Path>): (n: nat)
    ensures forall p :: p in ps ==> |p| <= n
    decreases |ps|
  {
    if ps == {} then 0
    else
      var p :| p in ps;
      var rest := Longest(ps - {p});
      if |p| > rest then |p| else rest
  }

  /** A length that no directory path reaches during a sweep from `s`. */
  ghost function SweepBound(s: FsState, pluginsPath: Path, includePath: Path): (n: nat)
    ensures DirsBounded(s, n) && |pluginsPath| <= n && |includePath| <= n
  {
    Longest(s.dirs) + |pluginsPath| + |includePath|
  }

  /** `scanAndOrganizeFiles(sourcePath, …)` from `s`: list the directory
      once, then handle the listed entries in order; a listing error is the
      result. The `bound` only serves to show that the recursion ends. */
  function SweepDir(s: FsState, sourcePath: Path, pluginsPath: Path, includePath: Path, bound: nat): (r: Sweeping)
    requires DirsBounded(s, bound) && |pluginsPath| <= bound && |includePath| <= bound
    ensures DirsBounded(r.fs, bound)
    decreases bound - |sourcePath|, 2, 0
  {
    match ReadDir(s, sourcePath)
    case Err(m) => Sweeping(Fail(m), s)
    case Ok(children) => SweepEntries(s, sourcePath, children, 0, pluginsPath, includePath, bound)
  }

  /** The listed entries from index `i` on, one after the other; the first
      failure ends the sweep. */
  function SweepEntries(s: FsState, sourcePath: Path, children: seq<Path>, i: nat,
                        pluginsPath: Path, includePath: Path, bound: nat): (r: Sweeping)
    requires i <= |children| && forall c | c in children :: IsChild(c, sourcePath)
    requires DirsBounded(s, bound) && |pluginsPath| <= bound && |includePath| <= bound
    ensures DirsBounded(r.fs, bound)
    decreases bound - |sourcePath|, 1, |children| - i
  {
    if i == |children| then Sweeping(Pass, s)
    else
      var step := SweepStep(s, sourcePath, children[i], pluginsPath, includePath, bound);
      if step.outcome.Fail? then step
      else SweepEntries(step.fs, sourcePath, children, i + 1, pluginsPath, includePath, bound)
  }

  /** One listed entry: a file is moved if it is a plugin or include file;
      a directory is swept and then removed, a failed removal being
      ignored; an entry that has gone fails the `stat`. */
  function SweepStep(s: FsState, sourcePath: Path, c: Path, pluginsPath: Path, includePath: Path, bound: nat): (r: Sweeping)
    requires IsChild(c, sourcePath)
    requires DirsBounded(s, bound) && |pluginsPath| <= bound && |includePath| <= bound
    ensures DirsBounded(r.fs, bound)
    decreases bound - |sourcePath|, 0, 0
  {
    if c in s.files then
      UnderDirname(c);
      MovedLooseSwept(s, c, sourcePath, pluginsPath, includePath);
      SweptBounded(s, MovedLoose(s, c, pluginsPath, includePath), sourcePath, pluginsPath, includePath, bound);
      Sweeping(Pass, MovedLoose(s, c, pluginsPath, includePath))
    else if c in s.dirs then
      var sub := SweepDir(s, c, pluginsPath, includePath, bound);
      if sub.outcome.Fail? then sub
      else
        match Removed(sub.fs, c)
        case Ok(t) => Sweeping(Pass, t)
        case Err(_) => Sweeping(Pass, sub.fs)
    else Sweeping(Fail("ENOENT: no such file or directory, stat '" + c + "'"), s)
  }

  /** The sweep from the root with a bound that suffices. */
  ghost function Sweep(s: FsState, sourcePath: Path, pluginsPath: Path, includePath: Path): Sweeping {
    SweepDir(s, sourcePath, pluginsPath, includePath, SweepBound(s, pluginsPath, includePath))
  }

  // ---------------------------------------------------------------------
  // What a sweep does
  // ---------------------------------------------------------------------

  /** A sweep only moves plugin and include files from below the source
      into the two directories and removes directories below the source;
      a missing source directory fails before anything changes. */
  lemma {:induction false} SweepDirSwept(s: FsState, sourcePath: Path, pluginsPath: Path, includePath: Path, bound: nat)
    requires DirsBounded(s, bound) && |pluginsPath| <= bound && |includePath| <= bound
    ensures Swept(s, SweepDir(s, sourcePath, pluginsPath, includePath, bound).fs, sourcePath, pluginsPath, includePath)
    ensures sourcePath !in s.dirs ==>
      SweepDir(s, sourcePath, pluginsPath, includePath, bound).outcome.Fail?
      && SweepDir(s, sourcePath, pluginsPath, includePath, bound).fs == s
    decreases bound - |sourcePath|, 2, 0
  {
    match ReadDir(s, sourcePath)
    case Err(_) =>
    case Ok(children) => SweepEntriesSwept(s, sourcePath, children, 0, pluginsPath, includePath, bound);
  }

  lemma {:induction false} SweepEntriesSwept(s: FsState, sourcePath: Path, children: seq<Path>, i: nat,
                                             pluginsPath: Path, includePath: Path, bound: nat)
    requires i <= |children| && forall c | c in children :: IsChild(c, sourcePath)
    requires DirsBounded(s, bound) && |pluginsPath| <= bound && |includePath| <= bound
    ensures Swept(s, SweepEntries(s, sourcePath, children, i, pluginsPath, includePath, bound).fs,
                  sourcePath, pluginsPath, includePath)
    decreases bound - |sourcePath|, 1, |children| - i
  {
    if i < |children| {
      var step := SweepStep(s, sourcePath, children[i], pluginsPath, includePath, bound);
      SweepStepSwept(s, sourcePath, children[i], pluginsPath, includePath, bound);
      if step.outcome.Pass? {
        SweepEntriesSwept(step.fs, sourcePath, children, i + 1, pluginsPath, includePath, bound);
        SweptTransitive(s, step.fs, SweepEntries(step.fs, sourcePath, children, i + 1, pluginsPath, includePath, bound).fs,
                        sourcePath, pluginsPath, includePath);
      }
    }
  }

  lemma {:induction false} SweepStepSwept(s: FsState, sourcePath: Path, c: Path, pluginsPath: Path, includePath: Path, bound: nat)
    requires IsChild(c, sourcePath)
    requires DirsBounded(s, bound) && |pluginsPath| <= bound && |includePath| <= bound
    ensures Swept(s, SweepStep(s, sourcePath, c, pluginsPath, includePath, bound).fs, sourcePath, pluginsPath, includePath)
    decreases bound - |sourcePath|, 0, 0
  {
    UnderDirname(c);
    if c in s.files {
      MovedLooseSwept(s, c, sourcePath, pluginsPath, includePath);
    } else if c in s.dirs {
      var sub := SweepDir(s, c, pluginsPath, includePath, bound);
      SweepDirSwept(s, c, pluginsPath, includePath, bound);
      SweptWiden(s, sub.fs, c, sourcePath, pluginsPath, includePath);
      if sub.outcome.Pass? && Removed(sub.fs, c).Ok? {
        RemovedSwept(sub.fs, c, sourcePath, pluginsPath, includePath);
        SweptTransitive(s, sub.fs, Removed(sub.fs, c).value, sourcePath, pluginsPath, includePath);
      }
    }
  }

  /** An entry's step keeps every file, directory and creation-order slot
      that lies neither at nor below that entry. */
  lemma SweepStepKeeps(s: FsState, sourcePath: Path, c: Path, pluginsPath: Path, includePath: Path, bound: nat, x: Path)
    requires IsChild(c, sourcePath)
    requires DirsBounded(s, bound) && |pluginsPath| <= bound && |includePath| <= bound
    requires SweepStep(s, sourcePath, c, pluginsPath, includePath, bound).outcome.Pass?
    requires x != c && !IsUnder(x, c)
    ensures var t := SweepStep(s, sourcePath, c, pluginsPath, includePath, bound).fs;
      && (x in s.files ==> x in t.files)
      && (x in s.dirs ==> x in t.dirs)
      && (x in s.order ==> x in t.order)
  {
    if c !in s.files {
      SweepDirSwept(s, c, pluginsPath, includePath, bound);
    }
  }

  /** Where `q` now holds bytes it was given by the sweep, a file of the
      same name from below the source held them before. */
  lemma SweptTraces(a: FsState, b: FsState, sourcePath: Path, pluginsPath: Path, includePath: Path, q: Path)
    requires Swept(a, b, sourcePath, pluginsPath, includePath)
    requires q in b.files && IsUnder(q, sourcePath)
    ensures exists q' :: q' in a.files && IsUnder(q', sourcePath) && Basename(q') == Basename(q) && a.files[q'] == b.files[q]
  {
    if !Changed(a, b, q) {
      assert q in a.files && a.files[q] == b.files[q];
    }
  }

  /** `p` is the only file below `sourcePath` with its name. */
  ghost predicate OnlyOfName(s: FsState, sourcePath: Path, p: Path) {
    forall q :: q in s.files && IsUnder(q, sourcePath) && Basename(q) == Basename(p) ==> q == p
  }

  /** A sweep brings no second file of the name of a file that already
      sits in its own target directory, and does not bring that file back
      once it is gone. */
  lemma OnlyOfNameKept(a: FsState, b: FsState, sourcePath: Path, pluginsPath: Path, includePath: Path, p: Path)
    requires Swept(a, b, sourcePath, pluginsPath, includePath) && OnlyOfName(a, sourcePath, p)
    requires LastIndex(p, '/').Some? && SweepTarget(Basename(p), pluginsPath, includePath) == Some(Dirname(p))
    ensures OnlyOfName(b, sourcePath, p)
    ensures p !in a.files ==> p !in b.files
  {
    DirnameJoinsBasename(p);
    forall q | q in b.files && IsUnder(q, sourcePath) && Basename(q) == Basename(p) ensures q == p {
      if Changed(a, b, q) {
        LastIndexIsLast(q, '/');
        DirnameJoinsBasename(q);
      }
    }
  }

  // One step, or the rest of the entries, seen through `Swept`.

  lemma StepTraces(s: FsState, sourcePath: Path, e: Path, pluginsPath: Path, includePath: Path, bound: nat, q: Path)
    requires IsChild(e, sourcePath)
    requires DirsBounded(s, bound) && |pluginsPath| <= bound && |includePath| <= bound
    requires q in SweepStep(s, sourcePath, e, pluginsPath, includePath, bound).fs.files && IsUnder(q, sourcePath)
    ensures var t := SweepStep(s, sourcePath, e, pluginsPath, includePath, bound).fs;
      exists q' :: q' in s.files && IsUnder(q', sourcePath) && Basename(q') == Basename(q) && s.files[q'] == t.files[q]
  {
    SweepStepSwept(s, sourcePath, e, pluginsPath, includePath, bound);
    SweptTraces(s, SweepStep(s, sourcePath, e, pluginsPath, includePath, bound).fs, sourcePath, pluginsPath, includePath, q);
  }

  lemma StepAddsOnlyToTargets(s: FsState, sourcePath: Path, e: Path, pluginsPath: Path, includePath: Path, bound: nat, x: Path)
    requires IsChild(e, sourcePath)
    requires DirsBounded(s, bound) && |pluginsPath| <= bound && |includePath| <= bound
    requires x !in s.files && SweepTarget(Basename(x), pluginsPath, includePath) != Some(Dirname(x))
    ensures x !in SweepStep(s, sourcePath, e, pluginsPath, includePath, bound).fs.files
  {
    SweepStepSwept(s, sourcePath, e, pluginsPath, includePath, bound);
    assert !Changed(s, SweepStep(s, sourcePath, e, pluginsPath, includePath, bound).fs, x);
  }

  lemma StepKeepsOnlyOfName(s: FsState, sourcePath: Path, e: Path, pluginsPath: Path, includePath: Path, bound: nat, p: Path)
    requires IsChild(e, sourcePath)
    requires DirsBounded(s, bound) && |pluginsPath| <= bound && |includePath| <= bound
    requires OnlyOfName(s, sourcePath, p)
    requires LastIndex(p, '/').Some? && SweepTarget(Basename(p), pluginsPath, includePath) == Some(Dirname(p))
    ensures OnlyOfName(SweepStep(s, sourcePath, e, pluginsPath, includePath, bound).fs, sourcePath, p)
  {
    SweepStepSwept(s, sourcePath, e, pluginsPath, includePath, bound);
    OnlyOfNameKept(s, SweepStep(s, sourcePath, e, pluginsPath, includePath, bound).fs, sourcePath, pluginsPath, includePath, p);
  }

  lemma EntriesAddOnlyToTargets(m: FsState, sourcePath: Path, children: seq<Path>, j: nat,
                                pluginsPath: Path, includePath: Path, bound: nat, x: Path)
    requires j <= |children| && forall e | e in children :: IsChild(e, sourcePath)
    requires DirsBounded(m, bound) && |pluginsPath| <= bound && |includePath| <= bound
    requires x !in m.files && SweepTarget(Basename(x), pluginsPath, includePath) != Some(Dirname(x))
    ensures x !in SweepEntries(m, sourcePath, children, j, pluginsPath, includePath, bound).fs.files
  {
    SweepEntriesSwept(m, sourcePath, children, j, pluginsPath, includePath, bound);
    assert !Changed(m, SweepEntries(m, sourcePath, children, j, pluginsPath, includePath, bound).fs, x);
  }

  lemma EntriesKeepOutside(m: FsState, sourcePath: Path, children: seq<Path>, j: nat,
                           pluginsPath: Path, includePath: Path, bound: nat, t: Path)
    requires j <= |children| && forall e | e in children :: IsChild(e, sourcePath)
    requires DirsBounded(m, bound) && |pluginsPath| <= bound && |includePath| <= bound
    requires t in m.files && !IsUnder(t, sourcePath)
    ensures var r := SweepEntries(m, sourcePath, children, j, pluginsPath, includePath, bound).fs;
      && t in r.files
      && (r.files[t] == m.files[t]
          || exists q :: q in m.files && IsUnder(q, sourcePath) && Basename(q) == Basename(t) && m.files[q] == r.files[t])
  {
    SweepEntriesSwept(m, sourcePath, children, j, pluginsPath, includePath, bound);
  }

  lemma EntriesKeepOnlyOfName(m: FsState, sourcePath: Path, children: seq<Path>, j: nat,
                              pluginsPath: Path, includePath: Path, bound: nat, p: Path)
    requires j <= |children| && forall e | e in children :: IsChild(e, sourcePath)
    requires DirsBounded(m, bound) && |pluginsPath| <= bound && |includePath| <= bound
    requires OnlyOfName(m, sourcePath, p) && p !in m.files
    requires LastIndex(p, '/').Some? && SweepTarget(Basename(p), pluginsPath, includePath) == Some(Dirname(p))
    ensures p !in SweepEntries(m, sourcePath, children, j, pluginsPath, includePath, bound).fs.files
  {
    SweepEntriesSwept(m, sourcePath, children, j, pluginsPath, includePath, bound);
    OnlyOfNameKept(m, SweepEntries(m, sourcePath, children, j, pluginsPath, includePath, bound).fs,
                   sourcePath, pluginsPath, includePath, p);
  }

  /** One entry's step: a sweep of the entries from `i` on that succeeds
      has a successful step at `i` and continues from that step's disk. */
  lemma EntriesStep(s: FsState, sourcePath: Path, children: seq<Path>, i: nat,
                    pluginsPath: Path, includePath: Path, bound: nat)
    requires i < |children| && forall e | e in children :: IsChild(e, sourcePath)
    requires DirsBounded(s, bound) && |pluginsPath| <= bound && |includePath| <= bound
    requires SweepEntries(s, sourcePath, children, i, pluginsPath, includePath, bound).outcome.Pass?
    ensures var step := SweepStep(s, sourcePath, children[i], pluginsPath, includePath, bound);
      && step.outcome.Pass?
      && SweepEntries(s, sourcePath, children, i, pluginsPath, includePath, bound)
         == SweepEntries(step.fs, sourcePath, children, i + 1, pluginsPath, includePath, bound)
  {
  }

  /** A classified file listed at index `i` or later, whose target
      directory is not the one being swept, is gone once the entries are
      handled successfully; a target outside the source then holds the
      bytes of a file of the same name from the source. */
  lemma {:induction false} SweepEntriesMoveListed(s: FsState, sourcePath: Path, children: seq<Path>, i: nat,
                                                  pluginsPath: Path, includePath: Path, bound: nat, c: Path, dir: Path, k: nat)
    requires i <= k < |children| && forall e | e in children :: IsChild(e, sourcePath)
    requires DirsBounded(s, bound) && |pluginsPath| <= bound && |includePath| <= bound
    requires children[k] == c && c in s.files
    requires SweepTarget(Basename(c), pluginsPath, includePath) == Some(dir) && dir != sourcePath
    requires SweepEntries(s, sourcePath, children, i, pluginsPath, includePath, bound).outcome.Pass?
    ensures var r := SweepEntries(s, sourcePath, children, i, pluginsPath, includePath, bound).fs;
      && c !in r.files
      && (!IsUnder(Join(dir, Basename(c)), sourcePath) ==>
            && Join(dir, Basename(c)) in r.files
            && exists q :: q in s.files && IsUnder(q, sourcePath) && Basename(q) == Basename(c)
                           && s.files[q] == r.files[Join(dir, Basename(c))])
    decreases |children| - i
  {
    var name, e := Basename(c), children[i];
    var t := Join(dir, name);
    var step := SweepStep(s, sourcePath, e, pluginsPath, includePath, bound);
    var r := SweepEntries(s, sourcePath, children, i, pluginsPath, includePath, bound).fs;
    EntriesStep(s, sourcePath, children, i, pluginsPath, includePath, bound);
    assert IsChild(c, sourcePath) && IsChild(e, sourcePath);
    UnderDirname(c);
    BasenameHasNoSeparator(c);
    JoinSplitsBack(dir, name);
    if e == c {
      MovedLooseMoves(s, c, pluginsPath, includePath);
      EntriesAddOnlyToTargets(step.fs, sourcePath, children, i + 1, pluginsPath, includePath, bound, c);
      if !IsUnder(t, sourcePath) {
        EntriesKeepOutside(step.fs, sourcePath, children, i + 1, pluginsPath, includePath, bound, t);
        if r.files[t] == step.fs.files[t] {
          assert s.files[c] == r.files[t];
        } else {
          var q :| q in step.fs.files && IsUnder(q, sourcePath) && Basename(q) == name && step.fs.files[q] == r.files[t];
          StepTraces(s, sourcePath, e, pluginsPath, includePath, bound, q);
        }
      }
    } else {
      assert i != k;
      SiblingsApart(e, c, c);
      SweepStepKeeps(s, sourcePath, e, pluginsPath, includePath, bound, c);
      SweepEntriesMoveListed(step.fs, sourcePath, children, i + 1, pluginsPath, includePath, bound, c, dir, k);
      if !IsUnder(t, sourcePath) {
        var q :| q in step.fs.files && IsUnder(q, sourcePath) && Basename(q) == name && step.fs.files[q] == r.files[t];
        StepTraces(s, sourcePath, e, pluginsPath, includePath, bound, q);
      }
    }
  }

  /** A plugin or include file listed directly in a swept directory that is
      not its target is gone after a sweep that succeeds; when the target
      lies outside the swept tree it then holds the bytes of a file of that
      name from the tree (the last one moved there). */
  lemma SweepMovesListed(s: FsState, sourcePath: Path, pluginsPath: Path, includePath: Path, bound: nat, c: Path, dir: Path)
    requires DirsBounded(s, bound) && |pluginsPath| <= bound && |includePath| <= bound
    requires ReadDir(s, sourcePath).Ok? && c in ReadDir(s, sourcePath).value && c in s.files
    requires SweepTarget(Basename(c), pluginsPath, includePath) == Some(dir) && dir != sourcePath
    requires SweepDir(s, sourcePath, pluginsPath, includePath, bound).outcome.Pass?
    ensures var r := SweepDir(s, sourcePath, pluginsPath, includePath, bound).fs;
      && c !in r.files
      && (!IsUnder(Join(dir, Basename(c)), sourcePath) ==>
            && Join(dir, Basename(c)) in r.files
            && exists q :: q in s.files && IsUnder(q, sourcePath) && Basename(q) == Basename(c)
                           && s.files[q] == r.files[Join(dir, Basename(c))])
  {
    var children := ReadDir(s, sourcePath).value;
    var k :| 0 <= k < |children| && children[k] == c;
    SweepEntriesMoveListed(s, sourcePath, children, 0, pluginsPath, includePath, bound, c, dir, k);
  }

  /** The step for a file that sits in its own target directory deletes
      it, and the later entries do not bring it back. */
  lemma ResidentStep(s: FsState, sourcePath: Path, children: seq<Path>, i: nat,
                     pluginsPath: Path, includePath: Path, bound: nat, p: Path)
    requires i < |children| && forall e | e in children :: IsChild(e, sourcePath)
    requires DirsBounded(s, bound) && |pluginsPath| <= bound && |includePath| <= bound
    requires children[i] == p && p in s.files
    requires SweepTarget(Basename(p), pluginsPath, includePath) == Some(sourcePath)
    requires OnlyOfName(s, sourcePath, p)
    requires SweepEntries(s, sourcePath, children, i, pluginsPath, includePath, bound).outcome.Pass?
    ensures p !in SweepEntries(s, sourcePath, children, i, pluginsPath, includePath, bound).fs.files
  {
    var step := SweepStep(s, sourcePath, p, pluginsPath, includePath, bound);
    EntriesStep(s, sourcePath, children, i, pluginsPath, includePath, bound);
    assert IsChild(p, sourcePath);
    StepKeepsOnlyOfName(s, sourcePath, p, pluginsPath, includePath, bound, p);
    SamePathDeletes(s, p, pluginsPath, includePath);
    EntriesKeepOnlyOfName(step.fs, sourcePath, children, i + 1, pluginsPath, includePath, bound, p);
  }

  /** Sweeping a directory deletes every file in it that names the
      directory as its own target and has no namesake in the swept tree:
      the write to the same path is undone by the unlink. */
  lemma {:induction false} SweepEntriesDeleteResident(s: FsState, sourcePath: Path, children: seq<Path>, i: nat,
                                                      pluginsPath: Path, includePath: Path, bound: nat, p: Path, k: nat)
    requires i <= k < |children| && forall e | e in children :: IsChild(e, sourcePath)
    requires DirsBounded(s, bound) && |pluginsPath| <= bound && |includePath| <= bound
    requires children[k] == p && p in s.files
    requires SweepTarget(Basename(p), pluginsPath, includePath) == Some(sourcePath)
    requires OnlyOfName(s, sourcePath, p)
    requires SweepEntries(s, sourcePath, children, i, pluginsPath, includePath, bound).outcome.Pass?
    ensures p !in SweepEntries(s, sourcePath, children, i, pluginsPath, includePath, bound).fs.files
    decreases |children| - i
  {
    var e := children[i];
    if e == p {
      ResidentStep(s, sourcePath, children, i, pluginsPath, includePath, bound, p);
    } else {
      var step := SweepStep(s, sourcePath, e, pluginsPath, includePath, bound);
      EntriesStep(s, sourcePath, children, i, pluginsPath, includePath, bound);
      assert IsChild(p, sourcePath) && IsChild(e, sourcePath);
      StepKeepsOnlyOfName(s, sourcePath, e, pluginsPath, includePath, bound, p);
      SiblingsApart(e, p, p);
      SweepStepKeeps(s, sourcePath, e, pluginsPath, includePath, bound, p);
      assert i != k;
      SweepEntriesDeleteResident(step.fs, sourcePath, children, i + 1, pluginsPath, includePath, bound, p, k);
    }
  }

  /** The step for a target directory listed in the swept directory
      deletes the files in it that have no namesake in the tree. */
  lemma TargetEntryStep(s: FsState, sourcePath: Path, pluginsPath: Path, includePath: Path, bound: nat, dir: Path, p: Path)
    requires IsChild(dir, sourcePath)
    requires DirsBounded(s, bound) && |pluginsPath| <= bound && |includePath| <= bound
    requires dir in s.dirs && dir !in s.files
    requires p in s.files && p in s.order && IsChild(p, dir)
    requires SweepTarget(Basename(p), pluginsPath, includePath) == Some(dir)
    requires OnlyOfName(s, sourcePath, p)
    requires SweepStep(s, sourcePath, dir, pluginsPath, includePath, bound).outcome.Pass?
    ensures p !in SweepStep(s, sourcePath, dir, pluginsPath, includePath, bound).fs.files
  {
    var listing := ReadDir(s, dir).value;
    var k :| 0 <= k < |listing| && listing[k] == p;
    UnderDirname(dir);
    forall q | q in s.files && IsUnder(q, dir) && Basename(q) == Basename(p) ensures q == p {
      UnderTransitive(q, dir, sourcePath);
    }
    SweepEntriesDeleteResident(s, dir, listing, 0, pluginsPath, includePath, bound, p, k);
  }

  /** The step for a target directory listed in the swept directory, and
      the later entries after it. */
  lemma TargetEntryThenRest(s: FsState, sourcePath: Path, children: seq<Path>, i: nat,
                            pluginsPath: Path, includePath: Path, bound: nat, dir: Path, p: Path)
    requires i < |children| && forall e | e in children :: IsChild(e, sourcePath)
    requires DirsBounded(s, bound) && |pluginsPath| <= bound && |includePath| <= bound
    requires children[i] == dir && dir in s.dirs && dir !in s.files
    requires p in s.files && p in s.order && IsChild(p, dir)
    requires SweepTarget(Basename(p), pluginsPath, includePath) == Some(dir)
    requires OnlyOfName(s, sourcePath, p)
    requires SweepEntries(s, sourcePath, children, i, pluginsPath, includePath, bound).outcome.Pass?
    ensures p !in SweepEntries(s, sourcePath, children, i, pluginsPath, includePath, bound).fs.files
  {
    var step := SweepStep(s, sourcePath, dir, pluginsPath, includePath, bound);
    EntriesStep(s, sourcePath, children, i, pluginsPath, includePath, bound);
    assert IsChild(dir, sourcePath);
    StepKeepsOnlyOfName(s, sourcePath, dir, pluginsPath, includePath, bound, p);
    TargetEntryStep(s, sourcePath, pluginsPath, includePath, bound, dir, p);
    EntriesKeepOnlyOfName(step.fs, sourcePath, children, i + 1, pluginsPath, includePath, bound, p);
  }

  /** An earlier sibling's step keeps the target directory and the file in
      it in place. */
  lemma SiblingStepKeepsTarget(s: FsState, sourcePath: Path, e: Path,
                               pluginsPath: Path, includePath: Path, bound: nat, dir: Path, p: Path)
    requires IsChild(e, sourcePath) && IsChild(dir, sourcePath) && e != dir
    requires DirsBounded(s, bound) && |pluginsPath| <= bound && |includePath| <= bound
    requires sourcePath != pluginsPath && sourcePath != includePath
    requires dir in s.dirs && dir !in s.files
    requires p in s.files && p in s.order && IsChild(p, dir)
    requires SweepStep(s, sourcePath, e, pluginsPath, includePath, bound).outcome.Pass?
    ensures var t := SweepStep(s, sourcePath, e, pluginsPath, includePath, bound).fs;
      dir in t.dirs && dir !in t.files && p in t.files && p in t.order
  {
    UnderDirname(p);
    SiblingsApart(e, dir, dir);
    SiblingsApart(e, dir, p);
    SweepStepKeeps(s, sourcePath, e, pluginsPath, includePath, bound, dir);
    SweepStepKeeps(s, sourcePath, e, pluginsPath, includePath, bound, p);
    StepAddsOnlyToTargets(s, sourcePath, e, pluginsPath, includePath, bound, dir);
  }

  /** The same from one level up: a sweep from a directory that lists one
      of the two target directories as an entry deletes every file sitting
      in that target which has no namesake elsewhere in the tree. This is
      what happens to the plugins directory when the workspace root is
      swept. */
  lemma {:induction false} SweepEntriesEmptyTarget(s: FsState, sourcePath: Path, children: seq<Path>, i: nat,
                                                   pluginsPath: Path, includePath: Path, bound: nat,
                                                   dir: Path, p: Path, k: nat)
    requires i <= k < |children| && forall e | e in children :: IsChild(e, sourcePath)
    requires DirsBounded(s, bound) && |pluginsPath| <= bound && |includePath| <= bound
    requires sourcePath != pluginsPath && sourcePath != includePath
    requires children[k] == dir && dir in s.dirs && dir !in s.files
    requires p in s.files && p in s.order && IsChild(p, dir)
    requires SweepTarget(Basename(p), pluginsPath, includePath) == Some(dir)
    requires OnlyOfName(s, sourcePath, p)
    requires SweepEntries(s, sourcePath, children, i, pluginsPath, includePath, bound).outcome.Pass?
    ensures p !in SweepEntries(s, sourcePath, children, i, pluginsPath, includePath, bound).fs.files
    decreases |children| - i
  {
    var e := children[i];
    if e == dir {
      TargetEntryThenRest(s, sourcePath, children, i, pluginsPath, includePath, bound, dir, p);
    } else {
      var step := SweepStep(s, sourcePath, e, pluginsPath, includePath, bound);
      EntriesStep(s, sourcePath, children, i, pluginsPath, includePath, bound);
      assert IsChild(dir, sourcePath) && IsChild(e, sourcePath);
      UnderDirname(dir);
      UnderDirname(p);
      UnderTransitive(p, dir, sourcePath);
      StepKeepsOnlyOfName(s, sourcePath, e, pluginsPath, includePath, bound, p);
      SiblingStepKeepsTarget(s, sourcePath, e, pluginsPath, includePath, bound, dir, p);
      assert i != k;
      SweepEntriesEmptyTarget(step.fs, sourcePath, children, i + 1, pluginsPath, includePath, bound, dir, p, k);
    }
  }

  /** On a consistent disk, a sweep that succeeds from a directory whose
      entry `dir` is a target directory leaves no file in `dir` that sat
      there already and had no namesake elsewhere below the source. */
  lemma SweepEmptiesTargetEntry(s: FsState, sourcePath: Path, pluginsPath: Path, includePath: Path, bound: nat,
                                dir: Path, p: Path)
    requires DirsBounded(s, bound) && |pluginsPath| <= bound && |includePath| <= bound
    requires Valid(s) && sourcePath in s.dirs
    requires sourcePath != pluginsPath && sourcePath != includePath
    requires IsChild(dir, sourcePath) && dir in s.dirs && dir !in s.files
    requires p in s.files && IsChild(p, dir)
    requires SweepTarget(Basename(p), pluginsPath, includePath) == Some(dir)
    requires OnlyOfName(s, sourcePath, p)
    requires SweepDir(s, sourcePath, pluginsPath, includePath, bound).outcome.Pass?
    ensures p !in SweepDir(s, sourcePath, pluginsPath, includePath, bound).fs.files
  {
    var children := ReadDir(s, sourcePath).value;
    ReadDirComplete(s, sourcePath, dir);
    var k :| 0 <= k < |children| && children[k] == dir;
    SweepEntriesEmptyTarget(s, sourcePath, children, 0, pluginsPath, includePath, bound, dir, p, k);
  }

  // ---------------------------------------------------------------------
  // When a sweep succeeds
  // ---------------------------------------------------------------------

  lemma MovedLooseNoRepeats(s: FsState, c: Path, pluginsPath: Path, includePath: Path)
    requires c in s.files && NoRepeats(s.order)
    ensures NoRepeats(MovedLoose(s, c, pluginsPath, includePath).order)
  {
    match SweepTarget(Basename(c), pluginsPath, includePath)
    case None =>
    case Some(dir) =>
      var t := Join(dir, Basename(c));
      UpdatesNoRepeats(s, t, s.files[c]);
      UpdatesNoRepeats(Written(s, t, s.files[c]), c, s.files[c]);
  }

  /** A sweep lists no entry twice in the creation order it leaves. */
  lemma {:induction false} SweepDirDistinct(s: FsState, sourcePath: Path, pluginsPath: Path, includePath: Path, bound: nat)
    requires DirsBounded(s, bound) && |pluginsPath| <= bound && |includePath| <= bound
    requires NoRepeats(s.order)
    ensures NoRepeats(SweepDir(s, sourcePath, pluginsPath, includePath, bound).fs.order)
    decreases bound - |sourcePath|, 2, 0
  {
    match ReadDir(s, sourcePath)
    case Err(_) =>
    case Ok(children) => SweepEntriesDistinct(s, sourcePath, children, 0, pluginsPath, includePath, bound);
  }

  lemma {:induction false} SweepEntriesDistinct(s: FsState, sourcePath: Path, children: seq<Path>, i: nat,
                                                pluginsPath: Path, includePath: Path, bound: nat)
    requires i <= |children| && forall c | c in children :: IsChild(c, sourcePath)
    requires DirsBounded(s, bound) && |pluginsPath| <= bound && |includePath| <= bound
    requires NoRepeats(s.order)
    ensures NoRepeats(SweepEntries(s, sourcePath, children, i, pluginsPath, includePath, bound).fs.order)
    decreases bound - |sourcePath|, 1, |children| - i
  {
    if i < |children| {
      var step := SweepStep(s, sourcePath, children[i], pluginsPath, includePath, bound);
      SweepStepDistinct(s, sourcePath, children[i], pluginsPath, includePath, bound);
      if step.outcome.Pass? {
        SweepEntriesDistinct(step.fs, sourcePath, children, i + 1, pluginsPath, includePath, bound);
      }
    }
  }

  lemma {:induction false} SweepStepDistinct(s: FsState, sourcePath: Path, c: Path, pluginsPath: Path, includePath: Path, bound: nat)
    requires IsChild(c, sourcePath)
    requires DirsBounded(s, bound) && |pluginsPath| <= bound && |includePath| <= bound
    requires NoRepeats(s.order)
    ensures NoRepeats(SweepStep(s, sourcePath, c, pluginsPath, includePath, bound).fs.order)
    decreases bound - |sourcePath|, 0, 0
  {
    if c in s.files {
      MovedLooseNoRepeats(s, c, pluginsPath, includePath);
    } else if c in s.dirs {
      var sub := SweepDir(s, c, pluginsPath, includePath, bound);
      SweepDirDistinct(s, c, pluginsPath, includePath, bound);
      UpdatesNoRepeats(sub.fs, c, []);
    }
  }

  /** The entries listed after `e` are still there once `e` is handled. */
  lemma StepKeepsLaterEntries(s: FsState, sourcePath: Path, children: seq<Path>, i: nat,
                              pluginsPath: Path, includePath: Path, bound: nat)
    requires i < |children| && forall c | c in children :: IsChild(c, sourcePath)
    requires DirsBounded(s, bound) && |pluginsPath| <= bound && |includePath| <= bound
    requires NoRepeats(children) && forall j | i <= j < |children| :: Exists(s, children[j])
    requires SweepStep(s, sourcePath, children[i], pluginsPath, includePath, bound).outcome.Pass?
    ensures var t := SweepStep(s, sourcePath, children[i], pluginsPath, includePath, bound).fs;
      forall j | i + 1 <= j < |children| :: Exists(t, children[j])
  {
    var e := children[i];
    forall j | i + 1 <= j < |children|
      ensures Exists(SweepStep(s, sourcePath, e, pluginsPath, includePath, bound).fs, children[j])
    {
      var x := children[j];
      assert IsChild(x, sourcePath) && IsChild(e, sourcePath) && x != e;
      SiblingsApart(e, x, x);
      SweepStepKeeps(s, sourcePath, e, pluginsPath, includePath, bound, x);
    }
  }

  /** On a disk whose creation order names nothing twice, a sweep of an
      existing directory succeeds: every listed entry is still there when
      its turn comes, and a subdirectory that cannot be removed (it still
      holds files the sweep leaves) is passed over. */
  lemma {:induction false} SweepPasses(s: FsState, sourcePath: Path, pluginsPath: Path, includePath: Path, bound: nat)
    requires DirsBounded(s, bound) && |pluginsPath| <= bound && |includePath| <= bound
    requires sourcePath in s.dirs && NoRepeats(s.order)
    ensures SweepDir(s, sourcePath, pluginsPath, includePath, bound).outcome == Pass
    decreases bound - |sourcePath|, 2, 0
  {
    ReadDirNoRepeats(s, sourcePath);
    SweepEntriesPass(s, sourcePath, ReadDir(s, sourcePath).value, 0, pluginsPath, includePath, bound);
  }

  lemma {:induction false} SweepEntriesPass(s: FsState, sourcePath: Path, children: seq<Path>, i: nat,
                                            pluginsPath: Path, includePath: Path, bound: nat)
    requires i <= |children| && forall c | c in children :: IsChild(c, sourcePath)
    requires DirsBounded(s, bound) && |pluginsPath| <= bound && |includePath| <= bound
    requires NoRepeats(s.order) && NoRepeats(children)
    requires forall j | i <= j < |children| :: Exists(s, children[j])
    ensures SweepEntries(s, sourcePath, children, i, pluginsPath, includePath, bound).outcome == Pass
    decreases bound - |sourcePath|, 1, |children| - i
  {
    if i < |children| {
      var step := SweepStep(s, sourcePath, children[i], pluginsPath, includePath, bound);
      SweepStepPasses(s, sourcePath, children[i], pluginsPath, includePath, bound);
      SweepStepDistinct(s, sourcePath, children[i], pluginsPath, includePath, bound);
      StepKeepsLaterEntries(s, sourcePath, children, i, pluginsPath, includePath, bound);
      SweepEntriesPass(step.fs, sourcePath, children, i + 1, pluginsPath, includePath, bound);
    }
  }

  lemma {:induction false} SweepStepPasses(s: FsState, sourcePath: Path, c: Path, pluginsPath: Path, includePath: Path, bound: nat)
    requires IsChild(c, sourcePath)
    requires DirsBounded(s, bound) && |pluginsPath| <= bound && |includePath| <= bound
    requires NoRepeats(s.order) && Exists(s, c)
    ensures SweepStep(s, sourcePath, c, pluginsPath, includePath, bound).outcome == Pass
    decreases bound - |sourcePath|, 0, 0
  {
    if c !in s.files {
      SweepPasses(s, c, pluginsPath, includePath, bound);
    }
  }

  // ---------------------------------------------------------------------
  // Files deeper in the tree
  // ---------------------------------------------------------------------

  /** Every directory between `sourcePath` and the file `c` is a listed
      directory and no file, and none of them is a plugin or include name
      sitting in its own target directory (a file moved onto such a path
      would shadow the directory). */
  ghost predicate PathOpen(s: FsState, sourcePath: Path, c: Path, pluginsPath: Path, includePath: Path) {
    forall d :: IsUnder(c, d) && IsUnder(d, sourcePath) ==>
      && d in s.dirs && d !in s.files && d in s.order
      && SweepTarget(Basename(d), pluginsPath, includePath) != Some(Dirname(d))
  }

  lemma PathOpenNarrows(s: FsState, sourcePath: Path, e: Path, c: Path, pluginsPath: Path, includePath: Path)
    requires PathOpen(s, sourcePath, c, pluginsPath, includePath) && IsUnder(e, sourcePath)
    ensures PathOpen(s, e, c, pluginsPath, includePath)
  {
    forall d | IsUnder(c, d) && IsUnder(d, e) ensures IsUnder(d, sourcePath) {
      UnderTransitive(d, e, sourcePath);
    }
  }

  /** A sibling's step leaves the file `c` below the entry `e`, and the
      directories leading to it, as they were. */
  lemma SiblingStepKeepsPath(s: FsState, sourcePath: Path, x: Path, pluginsPath: Path, includePath: Path, bound: nat,
                             c: Path, e: Path)
    requires IsChild(x, sourcePath) && IsChild(e, sourcePath) && x != e
    requires DirsBounded(s, bound) && |pluginsPath| <= bound && |includePath| <= bound
    requires IsUnder(c, sourcePath) && e == Toward(c, sourcePath) && IsUnder(c, e)
    requires c in s.files && c in s.order && PathOpen(s, sourcePath, c, pluginsPath, includePath)
    requires SweepStep(s, sourcePath, x, pluginsPath, includePath, bound).outcome.Pass?
    ensures var t := SweepStep(s, sourcePath, x, pluginsPath, includePath, bound).fs;
      c in t.files && c in t.order && PathOpen(t, sourcePath, c, pluginsPath, includePath)
  {
    var t := SweepStep(s, sourcePath, x, pluginsPath, includePath, bound).fs;
    SiblingsApart(x, e, c);
    SweepStepKeeps(s, sourcePath, x, pluginsPath, includePath, bound, c);
    forall d | IsUnder(c, d) && IsUnder(d, sourcePath)
      ensures d in t.dirs && d !in t.files && d in t.order
    {
      BetweenIsBelowToward(c, sourcePath, d);
      SiblingsApart(x, e, d);
      SweepStepKeeps(s, sourcePath, x, pluginsPath, includePath, bound, d);
      StepAddsOnlyToTargets(s, sourcePath, x, pluginsPath, includePath, bound, d);
    }
  }

  /** The step for the entry `e` on the way to `c` sweeps `e` and so
      removes `c`. */
  lemma PathEntryStep(s: FsState, sourcePath: Path, pluginsPath: Path, includePath: Path, bound: nat, c: Path, e: Path)
    requires IsChild(e, sourcePath) && IsUnder(e, sourcePath) && IsUnder(c, e)
    requires DirsBounded(s, bound) && |pluginsPath| <= bound && |includePath| <= bound
    requires c in s.files && c in s.order && PathOpen(s, sourcePath, c, pluginsPath, includePath)
    requires SweepTarget(Basename(c), pluginsPath, includePath).Some?
    requires SweepTarget(Basename(c), pluginsPath, includePath) != Some(Dirname(c))
    requires SweepStep(s, sourcePath, e, pluginsPath, includePath, bound).outcome.Pass?
    ensures c !in SweepStep(s, sourcePath, e, pluginsPath, includePath, bound).fs.files
    decreases bound - |sourcePath|, 0, 0
  {
    assert e in s.dirs && e !in s.files;
    PathOpenNarrows(s, sourcePath, e, c, pluginsPath, includePath);
    SweepMovesBelowFrom(s, e, pluginsPath, includePath, bound, c);
  }

  /** ... and the later entries do not bring it back. */
  lemma PathEntryThenRest(s: FsState, sourcePath: Path, children: seq<Path>, i: nat,
                          pluginsPath: Path, includePath: Path, bound: nat, c: Path, e: Path)
    requires i < |children| && forall x | x in children :: IsChild(x, sourcePath)
    requires DirsBounded(s, bound) && |pluginsPath| <= bound && |includePath| <= bound
    requires children[i] == e && IsUnder(e, sourcePath) && IsUnder(c, e)
    requires c in s.files && c in s.order && PathOpen(s, sourcePath, c, pluginsPath, includePath)
    requires SweepTarget(Basename(c), pluginsPath, includePath).Some?
    requires SweepTarget(Basename(c), pluginsPath, includePath) != Some(Dirname(c))
    requires SweepEntries(s, sourcePath, children, i, pluginsPath, includePath, bound).outcome.Pass?
    ensures c !in SweepEntries(s, sourcePath, children, i, pluginsPath, includePath, bound).fs.files
    decreases bound - |sourcePath|, 1, 1
  {
    var step := SweepStep(s, sourcePath, e, pluginsPath, includePath, bound);
    EntriesStep(s, sourcePath, children, i, pluginsPath, includePath, bound);
    assert IsChild(e, sourcePath);
    PathEntryStep(s, sourcePath, pluginsPath, includePath, bound, c, e);
    EntriesAddOnlyToTargets(step.fs, sourcePath, children, i + 1, pluginsPath, includePath, bound, c);
  }

  lemma {:induction false} SweepMovesBelowFrom(s: FsState, sourcePath: Path, pluginsPath: Path, includePath: Path,
                                               bound: nat, c: Path)
    requires DirsBounded(s, bound) && |pluginsPath| <= bound && |includePath| <= bound
    requires sourcePath in s.dirs && IsUnder(c, sourcePath)
    requires c in s.files && c in s.order && PathOpen(s, sourcePath, c, pluginsPath, includePath)
    requires SweepTarget(Basename(c), pluginsPath, includePath).Some?
    requires SweepTarget(Basename(c), pluginsPath, includePath) != Some(Dirname(c))
    requires SweepDir(s, sourcePath, pluginsPath, includePath, bound).outcome.Pass?
    ensures c !in SweepDir(s, sourcePath, pluginsPath, includePath, bound).fs.files
    decreases bound - |sourcePath|, 2, 0
  {
    var e := Toward(c, sourcePath);
    TowardIsChild(c, sourcePath);
    var children := ReadDir(s, sourcePath).value;
    if e == c {
      assert c in children;
      var k :| 0 <= k < |children| && children[k] == c;
      SweepEntriesMoveListed(s, sourcePath, children, 0, pluginsPath, includePath, bound, c,
                             SweepTarget(Basename(c), pluginsPath, includePath).value, k);
    } else {
      assert e in children;
      var k :| 0 <= k < |children| && children[k] == e;
      SweepEntriesMoveBelow(s, sourcePath, children, 0, pluginsPath, includePath, bound, c, e, k);
    }
  }

  lemma {:induction false} SweepEntriesMoveBelow(s: FsState, sourcePath: Path, children: seq<Path>, i: nat,
                                                 pluginsPath: Path, includePath: Path, bound: nat, c: Path, e: Path, k: nat)
    requires i <= k < |children| && forall x | x in children :: IsChild(x, sourcePath)
    requires DirsBounded(s, bound) && |pluginsPath| <= bound && |includePath| <= bound
    requires IsUnder(c, sourcePath) && e == Toward(c, sourcePath) && IsUnder(c, e) && children[k] == e
    requires c in s.files && c in s.order && PathOpen(s, sourcePath, c, pluginsPath, includePath)
    requires SweepTarget(Basename(c), pluginsPath, includePath).Some?
    requires SweepTarget(Basename(c), pluginsPath, includePath) != Some(Dirname(c))
    requires SweepEntries(s, sourcePath, children, i, pluginsPath, includePath, bound).outcome.Pass?
    ensures c !in SweepEntries(s, sourcePath, children, i, pluginsPath, includePath, bound).fs.files
    decreases bound - |sourcePath|, 1, |children| - i + 1
  {
    TowardIsChild(c, sourcePath);
    var x := children[i];
    if x == e {
      PathEntryThenRest(s, sourcePath, children, i, pluginsPath, includePath, bound, c, e);
    } else {
      var step := SweepStep(s, sourcePath, x, pluginsPath, includePath, bound);
      EntriesStep(s, sourcePath, children, i, pluginsPath, includePath, bound);
      assert IsChild(x, sourcePath);
      SiblingStepKeepsPath(s, sourcePath, x, pluginsPath, includePath, bound, c, e);
      assert i != k;
      SweepEntriesMoveBelow(step.fs, sourcePath, children, i + 1, pluginsPath, includePath, bound, c, e, k);
    }
  }

  /** On a consistent disk whose creation order names nothing twice, a
      sweep succeeds and leaves no plugin or include file anywhere below
      the source, however deep, unless it already sat in its own target
      directory: the sweep descends through each directory on the way to
      the file and moves the file from there. */
  lemma SweepMovesBelow(s: FsState, sourcePath: Path, pluginsPath: Path, includePath: Path, bound: nat, c: Path)
    requires DirsBounded(s, bound) && |pluginsPath| <= bound && |includePath| <= bound
    requires Valid(s) && NoRepeats(s.order) && sourcePath in s.dirs
    requires c in s.files && IsUnder(c, sourcePath)
    requires forall d :: IsUnder(c, d) && IsUnder(d, sourcePath) ==>
      d in s.dirs && d !in s.files && SweepTarget(Basename(d), pluginsPath, includePath) != Some(Dirname(d))
    requires SweepTarget(Basename(c), pluginsPath, includePath).Some?
    requires SweepTarget(Basename(c), pluginsPath, includePath) != Some(Dirname(c))
    ensures var r := SweepDir(s, sourcePath, pluginsPath, includePath, bound);
      r.outcome == Pass && c !in r.fs.files
  {
    SweepPasses(s, sourcePath, pluginsPath, includePath, bound);
    SweepMovesBelowFrom(s, sourcePath, pluginsPath, includePath, bound, c);
  }

  /** Two directories and a file, in creation order, make a consistent
      disk. */
  lemma ChainValid(a: Path, b: Path, c: Path, content: Bytes)
    requires |a| < |b| < |c|
    ensures var s := FsState(map[c := content], {a, b}, [a, b, c]);
      Valid(s) && NoRepeats(s.order)
  {
  }

  /** An instance of `SweepMovesBelow`: a plugin `n` in a subdirectory
      `a` of the swept `root` is moved out, as when an archive unpacked a
      plugin one level down. */
  lemma NestedPluginMoved(root: Path, a: Path, n: Path, pluginsPath: Path, includePath: Path, content: Bytes)
    requires forall j :: 0 <= j < |a| ==> a[j] != '/'
    requires forall j :: 0 <= j < |n| ==> n[j] != '/'
    requires IsPluginFile(n) && pluginsPath != Join(root, a)
    requires pluginsPath != root && includePath != root
    ensures var c := Join(Join(root, a), n);
      var s := FsState(map[c := content], {root, Join(root, a)}, [root, Join(root, a), c]);
      var r := Sweep(s, root, pluginsPath, includePath);
      r.outcome == Pass && c !in r.fs.files
  {
    var sub := Join(root, a);
    var c := Join(sub, n);
    var s := FsState(map[c := content], {root, sub}, [root, sub, c]);
    JoinSplitsBack(root, a);
    JoinSplitsBack(sub, n);
    JoinIsUnder(root, a);
    JoinIsUnder(sub, n);
    UnderTransitive(c, sub, root);
    OnlyDirBetween(root, a, n);
    ChainValid(root, sub, c, content);
    assert SweepTarget(Basename(c), pluginsPath, includePath) == Some(pluginsPath);
    assert |sub| < |c| && sub in s.dirs && sub !in s.files;
    assert SweepTarget(Basename(sub), pluginsPath, includePath) != Some(Dirname(sub));
    SweepMovesBelow(s, root, pluginsPath, includePath, SweepBound(s, pluginsPath, includePath), c);
  }

  /** `scanAndOrganizeFiles`: list the directory once, then for each entry
      in listing order move a loose plugin or include file, or sweep a
      subdirectory and try to remove it, ignoring a failed removal. An
      error listing the directory, statting an entry that has gone, or
      inside a subdirectory ends the sweep with that error. */
  method ScanAndOrganizeFiles(disk: Disk, sourcePath: Path, pluginsPath: Path, includePath: Path, ghost bound: nat)
    returns (r: Outcome)
    requires DirsBounded(disk.State(), bound) && |pluginsPath| <= bound && |includePath| <= bound
    modifies disk
    decreases bound - |sourcePath|
    ensures var sweep := SweepDir(old(disk.State()), sourcePath, pluginsPath, includePath, bound);
      r == sweep.outcome && disk.State() == sweep.fs
  {
    ghost var s0 := disk.State();
    var listing := ReadDir(disk.State(), sourcePath);
    if listing.Err? {
      return Fail(listing.message);
    }
    var children := listing.value;
    for i := 0 to |children|
      invariant DirsBounded(disk.State(), bound)
      invariant SweepEntries(disk.State(), sourcePath, children, i, pluginsPath, includePath, bound)
                == SweepDir(s0, sourcePath, pluginsPath, includePath, bound)
    {
      var c := children[i];
      ghost var before := disk.State();
      ghost var step := SweepStep(before, sourcePath, c, pluginsPath, includePath, bound);
      if c in disk.files {
        var content := disk.files[c];
        var name := Basename(c);
        if IsPluginFile(name) {
          disk.SaveFile(Join(pluginsPath, name), content);
          disk.Unlink(c);
        } else if IsIncludeFile(name) {
          disk.SaveFile(Join(includePath, name), content);
          disk.Unlink(c);
        }
        assert disk.State() == step.fs;
      } else if c in disk.dirs {
        assert IsChild(c, sourcePath);
        var sub := ScanAndOrganizeFiles(disk, c, pluginsPath, includePath, bound);
        if sub.Fail? {
          return sub;
        }
        var removal := disk.Rmdir(c);
        assert disk.State() == step.fs;
      } else {
        return Fail("ENOENT: no such file or directory, stat '" + c + "'");
      }
    }
    r := Pass;
  }
}
