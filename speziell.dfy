/** The relocation override table (src/Speziell/Speziell.ts): plugin files
    that belong in the server root instead of the plugins directory. */
module Speziell {
  import opened PathUtils

  /** `Speziell.specialPlugins`, in the source's order. */
  const SpecialPlugins: seq<string> :=
    ["amxsscanf.dll", "amxsscanf.so", "libmariadb.dll", "log-core.so", "log-core.dll"]

  /** `isSpecialPlugin`: the lower-cased whole argument is in the table. */
  predicate IsSpecialPlugin(filename: string) {
    Lower(filename) in SpecialPlugins
  }

  /** `shouldMoveToRoot` delegates to `isSpecialPlugin`. */
  predicate ShouldMoveToRoot(filename: string) {
    IsSpecialPlugin(filename)
  }

  /** `getTargetPath`: the root for table names, the plugins directory for
      everything else. */
  function GetTargetPath(rootDir: Path, pluginsDir: Path, filename: string): Path {
    if ShouldMoveToRoot(filename) then rootDir else pluginsDir
  }

  /** The lookup ignores the case of its argument. */
  lemma SpecialIgnoresCase(filename: string)
    ensures IsSpecialPlugin(filename) <==> IsSpecialPlugin(Lower(filename))
  {
    LowerIdempotent(filename);
  }

  /** Reference definition: special exactly when the lower-cased argument
      is one of the five names. */
  lemma SpecialNames(filename: string)
    ensures IsSpecialPlugin(filename) <==>
      Lower(filename) in {"amxsscanf.dll", "amxsscanf.so", "libmariadb.dll", "log-core.so", "log-core.dll"}
  {
  }

  /** The match is on the whole string: anything with a directory part is
      not special, so `plugins/amxsscanf.dll` is not. */
  lemma WholeNameOnly(filename: string, j: nat)
    requires j < |filename| && filename[j] == '/'
    ensures !IsSpecialPlugin(filename)
  {
    LowerAt(filename);
    LowerCharKeepsPunctuation(filename[j]);
    assert Lower(filename)[j] == '/';
  }

  /** The table is not closed under changing `.dll` to `.so`:
      `libmariadb.dll` is special, `libmariadb.so` is not. */
  lemma TableIsAsymmetric()
    ensures IsSpecialPlugin("libmariadb.dll") && !IsSpecialPlugin("libmariadb.so")
  {
    LowerOfLowercase("libmariadb.dll");
    LowerOfLowercase("libmariadb.so");
    assert SpecialPlugins[2] == "libmariadb.dll";
  }

  /** `log-core` is special with either extension. */
  lemma LogCoreHasBoth()
    ensures IsSpecialPlugin("log-core.dll") && IsSpecialPlugin("log-core.so")
  {
    LowerOfLowercase("log-core.dll");
    LowerOfLowercase("log-core.so");
    assert SpecialPlugins[3] == "log-core.so" && SpecialPlugins[4] == "log-core.dll";
  }

  /** A table name written in capitals is special too. */
  lemma CapitalsAreSpecial()
    ensures IsSpecialPlugin("AMXSSCANF.SO")
  {
    LowerAt("AMXSSCANF.SO");
    assert Lower("AMXSSCANF.SO") == "amxsscanf.so";
  }

  lemma DllEntryIsPlugin(n: string)
    requires n == "amxsscanf.dll" || n == "libmariadb.dll" || n == "log-core.dll"
    ensures GetFileExtension(n) == ".dll"
  {
    KeptExtensionsArePlain();
    assert n[|n| - 4..] == ".dll";
    SegmentHasExtension(n, ".dll");
  }

  lemma SoEntryIsPlugin(n: string)
    requires n == "amxsscanf.so" || n == "log-core.so"
    ensures GetFileExtension(n) == ".so"
  {
    KeptExtensionsArePlain();
    assert n[|n| - 3..] == ".so";
    SegmentHasExtension(n, ".so");
  }

  /** Every special name is itself a plugin file: the override only ever
      redirects plugin binaries. */
  lemma SpecialIsPlugin(filename: string)
    requires IsSpecialPlugin(filename)
    ensures IsPluginFile(filename)
  {
    var n := Lower(filename);
    var k :| 0 <= k < |SpecialPlugins| && SpecialPlugins[k] == n;
    if k == 1 || k == 3 {
      SoEntryIsPlugin(n);
    } else {
      DllEntryIsPlugin(n);
    }
    LowerIdempotent(filename);
    ClassificationIgnoresCase(filename, n);
  }

  /** The target is always one of the two directories: the root exactly
      for special names (when the two differ). */
  lemma TargetPathChoice(rootDir: Path, pluginsDir: Path, filename: string)
    ensures GetTargetPath(rootDir, pluginsDir, filename) in {rootDir, pluginsDir}
    ensures rootDir != pluginsDir ==>
      (GetTargetPath(rootDir, pluginsDir, filename) == rootDir <==> IsSpecialPlugin(filename))
  {
  }
}
