# pawn-package: package acquisition and placement, in Dafny

pawn-package is a VS Code extension that installs Pawn packages (SA-MP /
open.mp plugins and include headers) into a server workspace. This project
models its core in Dafny and proves facts about it:

- the file classifier, which decides whether a name is a plugin binary
  (`.dll`, `.so`), an include header (`.inc`) or neither;
- the relocation override table (`Speziell`);
- the download fallback ladders:
  - direct link;
  - guessed GitHub URLs;
  - mirrors;
- archive placement;
- the loose-file sweep;
- the workspace scan for `pawno`/`qawno`;
- the package manager that ties these together. It records installed
  packages and updates `pawn-package.json`.

The network, the archive decoder and JSON are parameters, and the disk is
a map.

One consequence of the code as written is proved rather than assumed away.
The sweep after every install starts at the workspace root, so it also walks
`root/plugins`. Each plugin there already sits at its own target path, so
it is written onto itself and then unlinked. `SweepEmptiesPlugins` proves
that, on a consistent disk, a plugin sitting in the plugins directory with
no namesake elsewhere in the workspace is gone once that sweep succeeds. A
plugin the download has just saved there is such a file whenever the disk
the download leaves is consistent; that the download keeps the disk
consistent is not proved.

Modules, one file each:

- `Wrappers`: `Option`, `Result`, and `Outcome` (`Pass` or `Fail(message)`; a thrown error is a `Fail`).
- `PathUtils`: `/`-separated paths.
  - `Basename`, `Dirname`, `Join`, `Extname` (from the last dot of the last segment);
  - ASCII lower-casing;
  - the classifier: `GetFileExtension`, `IsPluginFile`, `IsIncludeFile`;
  - `NormalizeFilePath` as split and join.
- `Speziell`: the five-name table and `GetTargetPath`.
- `FileSystem`: the disk.
  - `FsState` holds files (a map), directories (a set) and creation order, which stands in for `readdir` order.
  - The `Disk` class has the methods `EnsureDirectory`, `SaveFile`, `Unlink` and `Rmdir`, each proved equal to a function on `FsState`.
- `Remote`: the `Web` class.
  - Three fixed oracles: file download, the latest-release API and the contents API.
  - A `requests` log, so that "tried", "not tried" and "in this order" can be stated.
- `AlternativeDownloader`:
  - each download is a function returning a `Run` (outcome, new disk, URLs requested);
  - each source method is proved to perform exactly that run (`Performed`);
  - the sweep is a recursive method proved to perform exactly `SweepDir`, a recursive function over the directory listings; `Swept` and the facts about moved and deleted files are proved about that function.
- `Scanners`: the workspace scan.
  - The directory tree is a `Node` value.
  - `Found` lists the matching directories in walk order, and `Scan` is the scan's result.
  - The `Scanner` class holds the two variables that the recursive walk assigns.
- `PackageManager`:
  - the value-level pieces:
    - the ledger (`Recorded`);
    - the manifest (`WithDependency`, `Configured`);
    - the target directories;
    - the GitHub path (`Github`);
    - the whole acquisition (`Acquire`);
  - the `PackageManager` class, whose methods are proved against those functions.

## Model

| member | source | states |
|---|---|---|
| PathUtils.GetFileExtension | src/utils/pathUtils.ts:9-11 | definition; properties in `ExtensionIsSuffix`, `ExtnameLower` and `ClassificationOfJoin` |
| PathUtils.IsPluginFile | src/utils/pathUtils.ts:13-16 | definition; properties in `PluginFileBySuffix` and `RolesAreExclusive` |
| PathUtils.IsIncludeFile | src/utils/pathUtils.ts:18-20 | definition; properties in `PluginFileBySuffix` and `RolesAreExclusive` |
| PathUtils.NormalizeFilePath | src/utils/pathUtils.ts:5-7 | definition; properties in `NormalizeFilePathSpec` |
| PathUtils.ClassificationIgnoresCase | src/utils/pathUtils.ts:9-20 | names equal up to case get the same extension and the same plugin/include classification |
| PathUtils.ExtnameLower | src/utils/pathUtils.ts:9-11 | lower-casing commutes with taking the extension |
| PathUtils.LowerIdempotent | src/utils/pathUtils.ts:10 | lower-casing twice is lower-casing once |
| PathUtils.ExtensionIsSuffix | src/utils/pathUtils.ts:9-11 | for a dot followed by lower-case non-dot characters, the extension is that string iff the last segment ends with it after a non-empty stem |
| PathUtils.PluginFileBySuffix | src/utils/pathUtils.ts:13-20 | plugin iff the last segment ends (ignoring case) in `.dll` or `.so` after a stem; include iff it ends in `.inc` |
| PathUtils.RolesAreExclusive | src/utils/pathUtils.ts:13-20 | no name is both plugin and include; a name is neither exactly when its extension is none of the three |
| PathUtils.ClassificationOfJoin | src/utils/pathUtils.ts:9-20 | the directory part never affects the extension or the classification |
| PathUtils.ClassificationByLastSegment | src/utils/pathUtils.ts:9-16 | `dir/foo.dll` is a plugin and `dir/z.so` a plugin but not an include, for any `dir` |
| PathUtils.ExtensionOfFooDll | src/utils/pathUtils.ts:9-11 | the extension of `foo.dll` is `.dll` |
| PathUtils.ExtensionOfZSo | src/utils/pathUtils.ts:9-11 | the extension of `z.so` is `.so` |
| PathUtils.ExtensionOfDotDll | src/utils/pathUtils.ts:9-11 | a leading dot is no extension: `.dll` has extension `""` and is not a plugin |
| PathUtils.LeadingDotOnly | src/utils/pathUtils.ts:9-11 | a one-segment name whose only dot is its first character has extension `""` |
| PathUtils.StemWithExtension | src/utils/pathUtils.ts:9-11 | a separator-free non-empty stem followed by a plain extension has that extension |
| PathUtils.JoinSplitsBack | src/services/alternativeDownloader.ts:12-13 | joining a directory and a separator-free name gives back that directory and that name |
| PathUtils.BasenameOfJoin | src/services/alternativeDownloader.ts:30-31 | the basename of `dir/name` is the basename of `name` |
| PathUtils.SplitJoinRoundTrip | src/utils/pathUtils.ts:6 | joining the split pieces with the same separator gives back the string |
| PathUtils.SplitPiecesAreSeparatorFree | src/utils/pathUtils.ts:6 | no split piece contains the separator |
| PathUtils.SplitFirst | src/services/packageManager.ts:32 | the first piece is the prefix up to the first separator, and there is a second piece iff a separator exists |
| PathUtils.SplitRest | src/services/packageManager.ts:32 | the pieces after the first are the split of the text after the first separator |
| PathUtils.NormalizeFilePathSpec | src/utils/pathUtils.ts:5-7 | every separator becomes `/` and every other character is kept; normalising is idempotent; it is the identity when the separator is `/` |
| Speziell.IsSpecialPlugin | src/Speziell/Speziell.ts:10-12 | definition; properties in `SpecialNames` and `SpecialIgnoresCase` |
| Speziell.ShouldMoveToRoot | src/Speziell/Speziell.ts:14-16 | definition; properties in `TargetPathChoice` |
| Speziell.GetTargetPath | src/Speziell/Speziell.ts:18-23 | definition; properties in `TargetPathChoice` |
| Speziell.SpecialNames | src/Speziell/Speziell.ts:2-12 | special iff the lower-cased name is one of exactly the five table names |
| Speziell.SpecialIgnoresCase | src/Speziell/Speziell.ts:10-12 | a name and its lower-cased form are special together |
| Speziell.CapitalsAreSpecial | src/Speziell/Speziell.ts:11 | `AMXSSCANF.SO` is special |
| Speziell.WholeNameOnly | src/Speziell/Speziell.ts:11 | a name containing `/` is never special, so `plugins/amxsscanf.dll` is not |
| Speziell.TableIsAsymmetric | src/Speziell/Speziell.ts:2-8 | `libmariadb.dll` is special, `libmariadb.so` is not |
| Speziell.LogCoreHasBoth | src/Speziell/Speziell.ts:6-7 | `log-core` is special with either extension |
| Speziell.SpecialIsPlugin | src/Speziell/Speziell.ts:2-12 | every special name is classified as a plugin file |
| Speziell.TargetPathChoice | src/Speziell/Speziell.ts:14-23 | the target is always one of the two directories, and (when they differ) the root exactly for special names |
| FileSystem.Ensured | src/services/fileSystem.ts:6-10 | files unchanged, directories only grow, the path becomes a directory, and every new directory is the path or one of its ancestors |
| FileSystem.Written | src/services/fileSystem.ts:12-21 | the file map gets exactly `path := content`, after the parent directory is ensured |
| FileSystem.Removed | src/services/alternativeDownloader.ts:123-127 | `rmdir` succeeds iff the directory exists and is empty, and then removes only it |
| FileSystem.ReadDir | src/services/alternativeDownloader.ts:105 | listing succeeds iff the directory exists and lists only existing direct children |
| FileSystem.ReadDirComplete | src/services/alternativeDownloader.ts:105 | on a consistent disk every existing direct child is listed |
| FileSystem.ReadDirNoRepeats | src/services/alternativeDownloader.ts:105 | when the creation order names nothing twice, the listing names every entry once |
| FileSystem.UpdatesNoRepeats | src/services/fileSystem.ts:6-21 | writing a file (with its parent directories), unlinking a file and removing a directory all keep the creation order free of repeats |
| FileSystem.Disk.EnsureDirectory | src/services/fileSystem.ts:6-10 | the disk becomes `Ensured(old disk, path)` |
| FileSystem.Disk.SaveFile | src/services/fileSystem.ts:12-21 | the disk becomes `Written(old disk, path, content)` |
| FileSystem.Disk.Unlink | src/services/alternativeDownloader.ts:116 | the disk loses exactly that file |
| FileSystem.Disk.Rmdir | src/services/alternativeDownloader.ts:123-127 | success and new disk as `Removed` says; on failure the disk is unchanged |
| Remote.Web.Get | src/services/githubService.ts:18-24 | returns the oracle's answer and logs exactly that URL |
| Remote.Web.GetLatestRelease | src/services/githubService.ts:11-16 | requests `https://api.github.com/repos/owner/repo/releases/latest` and returns its answer |
| Remote.Web.GetRepositoryContent | src/services/githubService.ts:26-31 | requests `https://api.github.com/repos/owner/repo/contents/` and returns its answer |
| AlternativeDownloader.BinaryDirect | src/services/alternativeDownloader.ts:9-17 | definition; properties in `BinaryDirectWritesOne` |
| AlternativeDownloader.ExtractArchive | src/services/alternativeDownloader.ts:19-40 | definition; properties in `ExtractArchiveOutcomes` and the `Placed*` lemmas |
| AlternativeDownloader.DirectLink | src/services/alternativeDownloader.ts:42-59 | definition; properties in `DirectLinkDispatch` |
| AlternativeDownloader.Mirror | src/services/alternativeDownloader.ts:61-78 | definition; properties in `MirrorLadder` |
| AlternativeDownloader.CustomSource | src/services/alternativeDownloader.ts:80-102 | definition; properties in `CustomSourceFirstGuess`, `CustomSourceFallsBackToMirrors` and `CustomSourceConfined` |
| AlternativeDownloader.MovedLoose | src/services/alternativeDownloader.ts:111-120 | definition; properties in `MovedLooseMoves` and `SamePathDeletes` |
| AlternativeDownloader.BinaryDirectWritesOne | src/services/alternativeDownloader.ts:9-17 | one request; on success exactly `pluginsPath/basename(url)` is written with the fetched bytes; a fetch error becomes `Failed to download binary: …` with no change |
| AlternativeDownloader.DownloadBinaryDirect | src/services/alternativeDownloader.ts:9-17 | performs exactly `BinaryDirect` (outcome, disk, requests) |
| AlternativeDownloader.ExtractArchiveOutcomes | src/services/alternativeDownloader.ts:19-40 | one request; fetch or decode errors become `Failed to process archive: …` with no change; otherwise the entries are placed |
| AlternativeDownloader.PlacedLastWins | src/services/alternativeDownloader.ts:25-36 | a target gets the bytes of the last entry placed there: flattening by basename, later overwrites earlier |
| AlternativeDownloader.PlacedKeepsOthers | src/services/alternativeDownloader.ts:25-36 | a path no entry targets is untouched |
| AlternativeDownloader.PlacedDropsOthers | src/services/alternativeDownloader.ts:29-35 | placing all entries equals placing only the plugin and include entries |
| AlternativeDownloader.PlacedConfined | src/services/alternativeDownloader.ts:25-36 | everything placement changes sits directly in the plugins or include directory |
| AlternativeDownloader.DownloadAndExtractArchive | src/services/alternativeDownloader.ts:19-40 | performs exactly `ExtractArchive`, saving the entries one by one |
| AlternativeDownloader.DirectLinkDispatch | src/services/alternativeDownloader.ts:42-59 | binary iff a plugin extension; an unsupported extension fails with `Unsupported file type: <ext>`, no request and no change; a failed link changes nothing; all writes are confined to the two directories |
| AlternativeDownloader.GuessedKinds | src/services/alternativeDownloader.ts:84-89 | the four guesses dispatch as archive, archive, binary, binary |
| AlternativeDownloader.GuessedArchivesAreZips | src/services/alternativeDownloader.ts:85-86 | `plugin.zip` and `main.zip` have extension `.zip` |
| AlternativeDownloader.ZipAfterStem | src/services/alternativeDownloader.ts:85-86 | any non-empty, separator-free stem followed by `.zip` (such as `plugin.zip` and `main.zip`) has extension `.zip` |
| AlternativeDownloader.ExtensionOfPluginBinaries | src/services/alternativeDownloader.ts:87-88 | `plugin.dll` and `plugin.so` have extensions `.dll` and `.so` |
| AlternativeDownloader.DownloadFromDirectLink | src/services/alternativeDownloader.ts:42-59 | performs exactly `DirectLink` |
| AlternativeDownloader.AttemptFacts | src/services/alternativeDownloader.ts:42-59 | a failed attempt changes nothing; an attempt that is made requests only its URL; writes are confined |
| AlternativeDownloader.FirstSuccessStops | src/services/alternativeDownloader.ts:68-75 | when attempt k is the first success, the ladder ends with its disk and requested exactly the URLs up to k |
| AlternativeDownloader.FirstSuccessExhausted | src/services/alternativeDownloader.ts:68-77 | when every attempt fails, the ladder fails on the unchanged disk after requesting every URL |
| AlternativeDownloader.FirstSuccessPicks | src/services/alternativeDownloader.ts:68-75 | the ladder succeeds iff some attempt does, and its result is one of the attempts' |
| AlternativeDownloader.LadderTakesFirstSuccess | src/services/alternativeDownloader.ts:91-98 | the guessed-URL ladder stops at the first successful attempt |
| AlternativeDownloader.LadderAllFail | src/services/alternativeDownloader.ts:91-98 | when all attempts fail, every URL was tried in order and the disk is unchanged |
| AlternativeDownloader.LadderSucceedsIffSome | src/services/alternativeDownloader.ts:91-98 | success iff some attempt succeeds; on failure the disk is unchanged; writes are confined |
| AlternativeDownloader.MirrorUrls | src/services/alternativeDownloader.ts:62-66 | exactly three URLs: the files.sa-mp.com, assets.open.mp and GitHub mirror prefixes, in that order, each followed by `/` and the plugin name |
| AlternativeDownloader.MirrorLadder | src/services/alternativeDownloader.ts:61-78 | success iff some mirror serves the file; the first mirror that serves it is written to `pluginsPath/basename(name)` after requesting exactly the mirrors up to it; when all fail, `Failed to download <name> from all mirrors` after all three requests and no change; writes stay in the plugins directory |
| AlternativeDownloader.DownloadFromMirror | src/services/alternativeDownloader.ts:61-78 | performs exactly `Mirror` |
| AlternativeDownloader.TryAt | src/services/alternativeDownloader.ts:92-97 | performs one attempt of the ladder, requesting only its URL, and leaves the disk unchanged when it fails |
| AlternativeDownloader.TryInOrder | src/services/alternativeDownloader.ts:91-98 | the try/continue/return loop performs exactly the ladder |
| AlternativeDownloader.HttpInputIsDirectOnly | src/services/alternativeDownloader.ts:81-82 | an `http://` or `https://` input is handled as a direct link only and requests nothing but itself |
| AlternativeDownloader.GuessesRequestOnce | src/services/alternativeDownloader.ts:84-98 | each guessed URL is requested exactly once when tried |
| AlternativeDownloader.CustomSourceFirstGuess | src/services/alternativeDownloader.ts:84-98 | the first guess that succeeds ends the custom source with its disk, after requesting exactly the guesses up to it |
| AlternativeDownloader.CustomSourceFallsBackToMirrors | src/services/alternativeDownloader.ts:91-100 | when all four guesses fail, the result is the mirror ladder's, after all four guesses were requested |
| AlternativeDownloader.CustomSourceConfined | src/services/alternativeDownloader.ts:80-102 | a custom-source download writes only directly into the two directories |
| AlternativeDownloader.DownloadFromCustomSource | src/services/alternativeDownloader.ts:80-102 | performs exactly `CustomSource` |
| AlternativeDownloader.MovedLooseMoves | src/services/alternativeDownloader.ts:111-120 | a loose plugin/include file is copied to its target and the original removed, with nothing else changed; other files are untouched |
| AlternativeDownloader.SamePathDeletes | src/services/alternativeDownloader.ts:114-119 | a file already at its own target path is deleted by the write-then-unlink |
| AlternativeDownloader.SweepKeepsOthers | src/services/alternativeDownloader.ts:111-120 | a sweep never touches a file that is neither plugin nor include |
| AlternativeDownloader.SweepKeepsOutside | src/services/alternativeDownloader.ts:104-130 | a sweep never touches files outside the source tree and outside the two targets |
| AlternativeDownloader.SweptTransitive | src/services/alternativeDownloader.ts:107-129 | two sweep steps compose into one |
| AlternativeDownloader.SweptWiden | src/services/alternativeDownloader.ts:121-122 | a sweep of a subdirectory is a sweep of its parent tree |
| AlternativeDownloader.MovedLooseSwept | src/services/alternativeDownloader.ts:111-120 | moving one loose file is a sweep step |
| AlternativeDownloader.RemovedSwept | src/services/alternativeDownloader.ts:123-127 | removing a directory below the source is a sweep step |
| AlternativeDownloader.SweptBounded | src/services/alternativeDownloader.ts:104-130 | a sweep creates no directory longer than the bound, so the recursion stays finite |
| AlternativeDownloader.SweepDir | src/services/alternativeDownloader.ts:104-130 | definition of the sweep (with `SweepEntries` and `SweepStep`); properties in `SweepDirSwept`, `SweepPasses`, `SweepMovesListed`, `SweepMovesBelow` and `SweepEmptiesTargetEntry` |
| AlternativeDownloader.SweepDirSwept | src/services/alternativeDownloader.ts:104-130 | a sweep changes only plugin/include files and directories below the source and the target directories, copying each moved file's bytes from a same-named file below the source; a missing source directory fails with no change |
| AlternativeDownloader.SweepStepKeeps | src/services/alternativeDownloader.ts:107-129 | one entry's step keeps every file, directory and creation-order slot not at or below that entry |
| AlternativeDownloader.SweepMovesListed | src/services/alternativeDownloader.ts:107-120 | after a successful sweep, a plugin or include file listed directly in the source whose target is another directory is gone; when the target lies outside the source, the target path holds the bytes of a same-named file from below the source |
| AlternativeDownloader.SweepEmptiesTargetEntry | src/services/alternativeDownloader.ts:107-127 | when the source lists one of the two target directories, a plugin or include file sitting in that target with no namesake below the source is deleted by a successful sweep |
| AlternativeDownloader.SweepDirDistinct | src/services/alternativeDownloader.ts:104-130 | a sweep from a disk whose creation order names nothing twice leaves such a disk |
| AlternativeDownloader.SweepPasses | src/services/alternativeDownloader.ts:104-130 | on a disk whose creation order names nothing twice, the sweep of an existing directory succeeds: each listed entry is still there at its turn, and a subdirectory whose `rmdir` fails is passed over |
| AlternativeDownloader.SweepMovesBelow | src/services/alternativeDownloader.ts:104-130 | on a consistent disk whose order names nothing twice, the sweep succeeds and removes a plugin or include file at any depth below the source (the directories on its way being plain directories) unless it already sits in its own target directory |
| AlternativeDownloader.NestedPluginMoved | src/services/alternativeDownloader.ts:121-122 | an instance of the recursion: a plugin in a subdirectory of the swept root is moved out, and the sweep succeeds |
| AlternativeDownloader.ScanAndOrganizeFiles | src/services/alternativeDownloader.ts:104-130 | outcome and new disk are exactly `SweepDir`'s from the old disk: one listing, the entries in order, the first error ending the sweep, a failed `rmdir` ignored |
| Scanners.Found | src/utils/scanners.ts:28-43 | definition of the walk's hits; properties in `FoundAppend`, `FoundIsBelow`, `FoundIsNamed` and `LaterMatchWins` |
| Scanners.Scan | src/utils/scanners.ts:17-52 | definition of the scan's result; properties in `ScanFindsBelowRoot` and `ScanWithoutDir` |
| Scanners.FoundAppend | src/utils/scanners.ts:31-42 | the hits of a listing are the hits of its parts, in order |
| Scanners.FoundIsBelow | src/utils/scanners.ts:33 | every hit lies below the directory walked |
| Scanners.FoundIsNamed | src/utils/scanners.ts:34-37 | every hit's last segment, lower-cased, is the target name |
| Scanners.NoDirNoHit | src/utils/scanners.ts:25-26 | with no directory of that name anywhere in the tree, there are no hits |
| Scanners.ToolDirIsOpaque | src/utils/scanners.ts:34-40 | the contents of a `pawno` or `qawno` directory never affect the scan |
| Scanners.ScanFindsBelowRoot | src/utils/scanners.ts:17-52 | a found pawno/qawno path lies below the root and its last segment is `pawno`/`qawno` up to case |
| Scanners.ScanWithoutDir | src/utils/scanners.ts:45-51 | with no such directory in the tree the path is absent |
| Scanners.LaterMatchWins | src/utils/scanners.ts:34-37 | a later match overrides all earlier ones |
| Scanners.TopLevelPawnoIsFound | src/utils/scanners.ts:33-35 | a `pawno` child of the root (any case) always yields a pawno path |
| Scanners.Scanner.constructor | src/utils/scanners.ts:25-26 | both paths start absent |
| Scanners.Scanner.ScanDirectory | src/utils/scanners.ts:28-43 | after the walk each path is the last hit, or its previous value when there is none |
| Scanners.ScanWorkspace | src/utils/scanners.ts:17-52 | returns exactly `Scan`: `No workspace folder found` without folders, otherwise the first folder as root with the last hits |
| PackageManager.Recorded | src/services/packageManager.ts:94-101 | definition; properties in `RecordedIsSetInsert` |
| PackageManager.Configured | src/services/packageManager.ts:103-120 | definition; properties in `WithDependencySetsStar`, `MissingManifestStartsEmpty` and `ConfiguredIdempotent` |
| PackageManager.IncludePath | src/services/packageManager.ts:122-130 | definition; properties in `TargetDirectories` |
| PackageManager.PluginsPath | src/services/packageManager.ts:132-134 | definition; properties in `TargetDirectories` and `PluginsInRoot` |
| PackageManager.Github | src/services/packageManager.ts:65-92 | definition; properties in `GithubSavesOnlyClassified` and `GithubStaysInside` |
| PackageManager.Acquire | src/services/packageManager.ts:21-56 | definition; properties in `AcquireOutcomes` and `ManifestOnlyAfterPrimary` |
| PackageManager.RecordedIsSetInsert | src/services/packageManager.ts:94-101 | appends only when absent: the old list is a prefix, membership gains exactly the id, no duplicates are introduced, repeating changes nothing |
| PackageManager.WithDependencySetsStar | src/services/packageManager.ts:113-114 | `dependencies[id] = "*"`, created when absent, every other entry and key unchanged, idempotent |
| PackageManager.MissingManifestStartsEmpty | src/services/packageManager.ts:104-111 | a missing or unparseable manifest yields `{dependencies: {id: "*"}}` |
| PackageManager.ConfiguredIdempotent | src/services/packageManager.ts:103-120 | when parsing reads back what was written, a second update leaves the disk as the first left it |
| PackageManager.TargetDirectories | src/services/packageManager.ts:122-134 | include is `pawno/include` when pawno was found, else `qawno/include`, else `No Pawno or Qawno directory found`; it lies below the root; plugins is `root/plugins` |
| PackageManager.SaveAllWritesKept | src/services/packageManager.ts:73-89 | every file changed by the save loop is `dir/name` of a kept item, holding the bytes fetched from its URL |
| PackageManager.SaveAllSavesEveryKept | src/services/packageManager.ts:73-89 | a save loop that succeeds requested exactly the kept items' URLs in order and saved every kept item |
| PackageManager.GithubSavesOnlyClassified | src/services/packageManager.ts:65-92 | GitHub writes only release assets classified as plugins (to `pluginsPath/name`) and content entries classified as includes (to `includePath/name`), with their fetched bytes |
| PackageManager.GithubStaysInside | src/services/packageManager.ts:65-92 | GitHub touches nothing outside the two directories |
| PackageManager.OwnerAndRepo | src/services/packageManager.ts:31-32 | owner and repo are the first two `/`-free pieces of the identifier, in order, separated by its first `/` |
| PackageManager.AcquireOutcomes | src/services/packageManager.ts:21-56 | without pawno/qawno nothing is requested or changed; installed iff the download succeeded; mirrors only after the primary failed; when both fail the error is `Failed to download package from all sources: <primary message>` after all mirror requests |
| PackageManager.ManifestOutsideTargets | src/services/packageManager.ts:43 | the manifest lies directly in the root, outside both target directories |
| PackageManager.PrimaryKeepsManifest | src/services/packageManager.ts:30-43 | the primary download never touches the manifest |
| PackageManager.ManifestOnlyAfterPrimary | src/services/packageManager.ts:42-53 | after a primary success the manifest holds the updated configuration; after a primary failure it is unchanged |
| PackageManager.PluginsInRoot | src/services/packageManager.ts:132-134 | the plugins directory is a direct entry of the root |
| PackageManager.SweepEmptiesPlugins | src/services/packageManager.ts:58-62 | the sweep from the root deletes every plugin sitting directly in `root/plugins` that has no namesake elsewhere in the workspace, whenever it succeeds |
| PackageManager.PackageManager.constructor | src/services/packageManager.ts:16-19 | the manager starts with its collaborators and no workspace paths |
| PackageManager.PackageManager.IsPackageInstalled | src/services/packageManager.ts:143-146 | definition; properties in `SaveInstalledPackage` |
| PackageManager.PackageManager.SaveInstalledPackage | src/services/packageManager.ts:94-101 | the ledger becomes `Recorded(old ledger, id)`; afterwards `IsPackageInstalled` holds for exactly the ids installed before and this id |
| PackageManager.PackageManager.UpdatePackageConfig | src/services/packageManager.ts:103-120 | the disk becomes `Configured(old disk, configPath, id)` |
| PackageManager.PackageManager.Initialize | src/services/packageManager.ts:136-141 | stores the scan and fails with `No workspace folder found` when it fails or the root is empty |
| PackageManager.PackageManager.SaveKept | src/services/packageManager.ts:73-89 | the loop performs exactly `SaveAll`, stopping at the first failed download |
| PackageManager.PackageManager.DownloadFromGithub | src/services/packageManager.ts:65-92 | performs exactly `Github` |
| PackageManager.PackageManager.DownloadFromPrimary | src/services/packageManager.ts:31-40 | an identifier with `/` goes to GitHub with its owner and repo; any other goes to the custom source |
| PackageManager.PackageManager.AcquirePackage | src/services/packageManager.ts:24-56 | outcome, disk, ledger and requests are exactly `Acquire`'s |
| PackageManager.PackageManager.SweepWorkspace | src/services/packageManager.ts:58-62 | outcome and disk are exactly `Sweep`'s from the root into the plugins and include directories |
| PackageManager.PackageManager.Install | src/services/packageManager.ts:24-62 | the acquisition's ledger and requests; its outcome and disk on failure; on success, exactly the outcome and disk of `Sweep` from the root applied to the acquired disk |
| PackageManager.PackageManager.DownloadPackage | src/services/packageManager.ts:21-63 | fails before any request or change without a workspace; otherwise as `Install` on the scanned workspace |

## Left out

- Node's `path` module is reduced to `/`-separated strings. `Join` is `dir + "/" + name` with no normalisation (no `..`, no collapsing of repeated or trailing separators). `Extname` takes the text from the last dot of the last segment. `path.sep` is a parameter of `NormalizeFilePath`.
- Basename and Extname: a trailing `/` is not stripped. Node's `path.basename` and `path.extname` ignore trailing separators, so in the code `extname("x.dll/")` is `.dll` (an archive's directory entry named like a plugin counts as a plugin) and a mirror URL ending in `owner/repo/` saves to `repo`. In the model both give `""`.
- Lower-casing covers ASCII `A`–`Z` only, not full Unicode `toLowerCase`.
- Disk errors (permissions, full disk, failed reads) are not modelled, so `saveFile`, `unlink` and `readFile` always succeed. An error thrown by `saveInstalledPackage` or `updatePackageConfig` inside `downloadPackage`'s `try` would route to the mirrors; that path is therefore not modelled.
- HTTP is three fixed oracles, so the same URL always gets the same answer. Tokens, headers and response shapes are not modelled.
- `getRepositoryContent`'s `path` argument is always the default `''`.
- `AdmZip` is an `Unzip` parameter that decodes all entries or fails. An archive that fails part-way through `getData` is not modelled. `.rar` URLs are routed to the same decoder, as in the code.
- JSON is a pair of parameters, `parse` and `render`. The manifest is `dependencies` plus opaque other keys, and the two-space text formatting is not modelled.
- Configured: JSON that parses to something other than an object is treated as unparseable, so the manifest is replaced by `{dependencies: {id: "*"}}`. The code differs in two ways.
  - An array gets the `dependencies` property set on it, but `JSON.stringify` writes back only the array's elements, so the dependency is lost.
  - `null` or a primitive (`5`, `"x"`, `true`) makes `updatePackageConfig` throw a TypeError inside `downloadPackage`'s `try`, which sends the install to the mirrors.
- Configured: a manifest whose `dependencies` is a truthy value that is not an object cannot be expressed in the model, so the model always writes the dependency in. In the code, a primitive (`5`, `"x"`, `true`) makes the assignment `dependencies[id] = '*'` throw a TypeError in strict mode, which sends the install to the mirrors. An array there keeps its elements and silently drops the new key when written back. A falsy value is replaced by `{}`, as in the model.
- `Promise.all` in `downloadFromGithub` runs sequentially.
  - Both API calls are issued.
  - A release error is reported before a contents error.
  - Saves are completed in order, so a save still pending when a later download fails counts as done.
- The workspace tree is given as a `Node` value, separate from the `Disk`. The scan and the sweep are not tied to the same directories.
- `vscode.workspace.workspaceFolders` being `undefined` and being an empty array are treated alike: both are `No workspace folder found`. With an empty array the code would instead fail with a TypeError.
- Each attempt of a ladder is evaluated against the disk as the ladder found it. This is exact because a failed attempt writes nothing.
- The sweep does not model `stat` errors, symbolic links or special files. An `rmdir` fails only when the directory is not empty.
- The UI and commands (input boxes, progress, messages), extension activation and the persistence of `globalState` are not modelled. The ledger is a field of the manager.
- The `Speziell` table is modelled on its own: nothing in the code calls it during placement.
- Described for the product but absent from the code, and so not modelled: the `components` tree, a fallback to the release list, `.tar.gz` archives, deduplication of placed paths within one run, and `Speziell` wired into placement.
- SweepMovesBelow: for a file deeper than the swept directory's own entries it proves only that the file is gone. Where its bytes went is bounded by `SweepDirSwept` (every changed file holds the bytes of a same-named file from the tree), and the target path's new bytes are stated only for directly listed files (`SweepMovesListed`). Doing the same for deep files would need a further induction through every level.
- SweepMovesBelow: it assumes every directory between the source and the file is a directory and no file. It also assumes none of them is named like a plugin or include file while sitting in that kind's target directory. The model's write does not fail on a directory, so a sibling's move onto such a path would shadow it. In Node, `writeFile` onto a directory fails with `EISDIR`.
- SweepEmptiesTargetEntry: it covers a target directory listed directly by the swept directory, as `root/plugins` is. An include directory two levels down (`root/pawno/include`) is covered for moved files by `SweepMovesBelow`, but not for files already sitting in it.
- SweepEmptiesPlugins: it assumes a consistent disk (`Valid`) and is not chained to the acquisition, because the acquisition is not proved to keep the disk consistent.
- ReadDir: it lists entries in creation order. Node's `readdir` promises no order and in practice lists by name. The listing order decides which of two same-named plugins ends up in the target and which is deleted. For example, with `a/x.dll` and `plugins/z/x.dll` under the root, the code leaves `plugins/x.dll`, but the model, listing `plugins` first, can delete it.
