/**
 * Plugin discovery and lookup, shared by the build-system registry
 * (`ExternalBuildMgr`) and the language registry (`LanguageOps`): both scan
 * an ordered list of search directories for plugin executables, keep a map
 * from identifier to plugin, and report a miss as "Unknown <noun> <id>".
 */
module Discovery {

  import opened Wrappers
  import opened Host
  import opened Naming

  /**
   * One item yielded by a directory listing: an I/O error (skipped by
   * `flatten`) or an entry with its file name (`None` when it is not valid
   * UTF-8) and the outcome of the executable check on it.
   */
  datatype DirEntry = EntryError | Entry(fileName: Option<string>, executable: bool)

  /** A search directory: its path, whether `read_dir` succeeded, and what it lists. */
  datatype SearchDir = SearchDir(path: string, readable: bool, entries: seq<DirEntry>)

  /** `BuildSystem` / `LanguageRunner`: the executable path and the toolchain hash. */
  datatype Plugin = Plugin(path: PluginPath, hash: u64) {
    /** `ProcessBuilder::new(path)`: a command running the plugin with no arguments. */
    function NewCommand(): (c: Command)
      ensures c.program == path && c.args == []
    {
      Command(path, [])
    }
  }

  /** `BuildSystem::new` (and the body of `LanguageRunner::new`): the hash is the placeholder 0. */
  function NewPlugin(path: PluginPath): (r: Plugin)
    ensures r.path == path && r.hash == 0
  {
    Plugin(path, 0)
  }

  /** What `fs::read_dir(dir).into_iter().flatten()` yields: nothing for an unreadable directory. */
  function DirEntries(d: SearchDir): (es: seq<DirEntry>)
    ensures !d.readable ==> es == []
    ensures d.readable ==> es == d.entries
  {
    if d.readable then d.entries else []
  }

  /** The identifier an entry registers, if it passes every test of the scan. */
  function Classify(e: DirEntry, p: Platform): (r: Option<string>)
    ensures r.Some? ==> e.Entry? && e.executable && e.fileName == Some(FileNameFor(r.value, p))
  {
    if e.Entry? && e.fileName.Some? && IsPluginFileName(e.fileName.value, p) && e.executable
    then Some(PluginId(e.fileName.value, p))
    else None
  }

  /** An entry registers `id` exactly when it is readable, named `cargobuild-<id><suffix>` and executable. */
  lemma ClassifyIff(e: DirEntry, p: Platform, id: string)
    ensures Classify(e, p) == Some(id) <==>
            e.Entry? && e.executable && e.fileName == Some(FileNameFor(id, p))
  {
  }

  /** The plugin the scan stores for `id` found in directory `dir`. */
  function PluginAt(dir: string, id: string, p: Platform): Plugin {
    NewPlugin(PluginPath(dir, FileNameFor(id, p)))
  }

  /** One iteration of the inner loop: insert (overwriting) the entry's plugin if it registers one. */
  function AddEntry(m: map<string, Plugin>, d: SearchDir, e: DirEntry, p: Platform): (r: map<string, Plugin>)
    ensures Classify(e, p).None? ==> r == m
    ensures Classify(e, p).Some? ==> r == m[Classify(e, p).value := PluginAt(d.path, Classify(e, p).value, p)]
  {
    match Classify(e, p)
    case Some(id) => m[id := NewPlugin(PluginPath(d.path, e.fileName.value))]
    case None => m
  }

  /** The inner loop over one directory's entries, as a left fold. */
  function ScanEntries(m: map<string, Plugin>, d: SearchDir, es: seq<DirEntry>, p: Platform): (r: map<string, Plugin>)
    // no key is dropped, and every key added or replaced holds this directory's plugin
    ensures m.Keys <= r.Keys
    ensures forall id :: id in r ==> (id in m && r[id] == m[id]) || r[id] == PluginAt(d.path, id, p)
  {
    if es == [] then m
    else AddEntry(ScanEntries(m, d, es[..|es| - 1], p), d, es[|es| - 1], p)
  }

  /** The whole scan: the outer loop over the search directories, as a left fold. */
  function Discover(dirs: seq<SearchDir>, p: Platform): (r: map<string, Plugin>)
    ensures forall id :: id in r ==> r[id].hash == 0 && r[id].path.fileName == FileNameFor(id, p)
  {
    if dirs == [] then map[]
    else
      var d := dirs[|dirs| - 1];
      ScanEntries(Discover(dirs[..|dirs| - 1], p), d, DirEntries(d), p)
  }

  /**
   * `ExternalBuildMgr::new` / `LanguageOps::new`: the nested loops over the
   * search directories and their entries, inserting into a local map.
   */
  method Scan(searchPaths: seq<SearchDir>, platform: Platform) returns (plugins: map<string, Plugin>)
    ensures plugins == Discover(searchPaths, platform)
  {
    var suffix := ExeSuffix(platform);
    plugins := map[];
    for i := 0 to |searchPaths|
      invariant plugins == Discover(searchPaths[..i], platform)
    {
      var dir := searchPaths[i];
      var entries := DirEntries(dir);
      ghost var before := plugins;
      for j := 0 to |entries|
        invariant plugins == ScanEntries(before, dir, entries[..j], platform)
      {
        var entry := entries[j];
        ScanEntriesStep(before, dir, entries, j, platform);
        ClassifyByTests(entry, platform);
        if entry.Entry? && entry.fileName.Some? {
          var fileName := entry.fileName.value;
          if StartsWith(fileName, Prefix) && EndsWith(fileName, suffix) && entry.executable {
            NoOverlap(fileName, platform);
            var end := |fileName| - |suffix|;
            var id := fileName[|Prefix|..end];
            plugins := plugins[id := NewPlugin(PluginPath(dir.path, fileName))];
          }
        }
      }
      assert entries[..|entries|] == entries;
      DiscoverStep(searchPaths, i, platform);
    }
    assert searchPaths[..|searchPaths|] == searchPaths;
  }

  /** One step of the inner loop is one `AddEntry`. */
  lemma ScanEntriesStep(m: map<string, Plugin>, d: SearchDir, es: seq<DirEntry>, j: nat, p: Platform)
    requires j < |es|
    ensures ScanEntries(m, d, es[..j + 1], p) == AddEntry(ScanEntries(m, d, es[..j], p), d, es[j], p)
  {
    assert es[..j + 1][..j] == es[..j];
  }

  /** One step of the outer loop scans one more directory. */
  lemma DiscoverStep(dirs: seq<SearchDir>, i: nat, p: Platform)
    requires i < |dirs|
    ensures Discover(dirs[..i + 1], p) == ScanEntries(Discover(dirs[..i], p), dirs[i], DirEntries(dirs[i]), p)
  {
    assert dirs[..i + 1][..i] == dirs[..i];
  }

  /** The tests the loop makes, in its own terms, decide `Classify`. */
  lemma ClassifyByTests(e: DirEntry, p: Platform)
    ensures !(e.Entry? && e.fileName.Some? && IsPluginFileName(e.fileName.value, p) && e.executable) ==>
              Classify(e, p) == None
    ensures e.Entry? && e.fileName.Some? && IsPluginFileName(e.fileName.value, p) && e.executable ==>
              |Prefix| + |ExeSuffix(p)| <= |e.fileName.value| &&
              Classify(e, p) == Some(e.fileName.value[|Prefix|..|e.fileName.value| - |ExeSuffix(p)|])
  {
    if e.Entry? && e.fileName.Some? && IsPluginFileName(e.fileName.value, p) {
      NoOverlap(e.fileName.value, p);
    }
  }

  /** Some entry of `es` registers `id`. */
  ghost predicate ListsPlugin(es: seq<DirEntry>, p: Platform, id: string) {
    exists j :: 0 <= j < |es| && Classify(es[j], p) == Some(id)
  }

  /** Directory `d` provides a plugin with identifier `id`. */
  ghost predicate Provides(d: SearchDir, p: Platform, id: string) {
    ListsPlugin(DirEntries(d), p, id)
  }

  /** An entry list extended by one entry registers `id` when the list or the new entry does. */
  lemma ListsPluginSnoc(es: seq<DirEntry>, e: DirEntry, p: Platform, id: string)
    ensures ListsPlugin(es + [e], p, id) <==> ListsPlugin(es, p, id) || Classify(e, p) == Some(id)
  {
    var es' := es + [e];
    if ListsPlugin(es, p, id) {
      var j :| 0 <= j < |es| && Classify(es[j], p) == Some(id);
      assert es'[j] == es[j];
    }
    if Classify(e, p) == Some(id) {
      assert es'[|es|] == e;
    }
    if ListsPlugin(es', p, id) {
      var j :| 0 <= j < |es'| && Classify(es'[j], p) == Some(id);
      if j < |es| {
        assert es'[j] == es[j];
      }
    }
  }

  /**
   * Scanning one directory adds exactly the identifiers it provides, each
   * mapped to that directory's file, and leaves every other key as it was.
   */
  lemma {:induction false} ScanEntriesAt(m: map<string, Plugin>, d: SearchDir, es: seq<DirEntry>, p: Platform, id: string)
    ensures id in ScanEntries(m, d, es, p) <==> id in m || ListsPlugin(es, p, id)
    ensures ListsPlugin(es, p, id) ==> ScanEntries(m, d, es, p)[id] == PluginAt(d.path, id, p)
    ensures !ListsPlugin(es, p, id) && id in m ==> ScanEntries(m, d, es, p)[id] == m[id]
  {
    if es != [] {
      var init, last := es[..|es| - 1], es[|es| - 1];
      assert es == init + [last];
      ScanEntriesAt(m, d, init, p, id);
      ListsPluginSnoc(init, last, p, id);
      var before := ScanEntries(m, d, init, p);
      assert ScanEntries(m, d, es, p) == AddEntry(before, d, last, p);
    }
  }

  /** The index of the last search directory providing `id`, or -1 if none does. */
  ghost function LastProvider(dirs: seq<SearchDir>, p: Platform, id: string): (i: int)
    ensures -1 <= i < |dirs|
    ensures i >= 0 ==> Provides(dirs[i], p, id)
    ensures forall k :: i < k < |dirs| ==> !Provides(dirs[k], p, id)
  {
    if dirs == [] then -1
    else if Provides(dirs[|dirs| - 1], p, id) then |dirs| - 1
    else
      var init := dirs[..|dirs| - 1];
      var i := LastProvider(init, p, id);
      assert i >= 0 ==> dirs[i] == init[i];
      assert forall k :: i < k < |dirs| - 1 ==> dirs[k] == init[k];
      i
  }

  /**
   * The registry holds `id` exactly when some search directory provides it,
   * and then maps it to the file in the last such directory.
   */
  lemma {:induction false} DiscoverAt(dirs: seq<SearchDir>, p: Platform, id: string)
    ensures id in Discover(dirs, p) <==> LastProvider(dirs, p, id) >= 0
    ensures id in Discover(dirs, p) ==>
              Discover(dirs, p)[id] == PluginAt(dirs[LastProvider(dirs, p, id)].path, id, p)
  {
    if dirs != [] {
      var init := dirs[..|dirs| - 1];
      var d := dirs[|dirs| - 1];
      DiscoverAt(init, p, id);
      ScanEntriesAt(Discover(init, p), d, DirEntries(d), p, id);
      if !Provides(d, p, id) {
        assert LastProvider(dirs, p, id) == LastProvider(init, p, id);
        if LastProvider(init, p, id) >= 0 {
          assert dirs[LastProvider(init, p, id)] == init[LastProvider(init, p, id)];
        }
      }
    }
  }

  /** Registration: `id` is a key exactly when some search directory provides it. */
  lemma DiscoverKeys(dirs: seq<SearchDir>, p: Platform, id: string)
    ensures id in Discover(dirs, p) <==> exists i :: 0 <= i < |dirs| && Provides(dirs[i], p, id)
  {
    DiscoverAt(dirs, p, id);
  }

  /** Precedence: the plugin kept for `id` is the one in the last search directory that provides it. */
  lemma DiscoverLastWins(dirs: seq<SearchDir>, p: Platform, id: string, i: nat)
    requires i < |dirs| && Provides(dirs[i], p, id)
    requires forall k :: i < k < |dirs| ==> !Provides(dirs[k], p, id)
    ensures id in Discover(dirs, p)
    ensures Discover(dirs, p)[id] == NewPlugin(PluginPath(dirs[i].path, FileNameFor(id, p)))
  {
    DiscoverAt(dirs, p, id);
  }

  /** Every registered plugin has the placeholder hash 0 and a path of the form `dir` joined with `cargobuild-<id><suffix>`. */
  lemma DiscoverEntries(dirs: seq<SearchDir>, p: Platform)
    ensures forall id :: id in Discover(dirs, p) ==>
              Discover(dirs, p)[id].hash == 0 &&
              Discover(dirs, p)[id].path.fileName == FileNameFor(id, p) &&
              exists i :: 0 <= i < |dirs| && Provides(dirs[i], p, id) &&
                          Discover(dirs, p)[id].path.dir == dirs[i].path
  {
    forall id | id in Discover(dirs, p)
      ensures Discover(dirs, p)[id].hash == 0
      ensures Discover(dirs, p)[id].path.fileName == FileNameFor(id, p)
      ensures exists i :: 0 <= i < |dirs| && Provides(dirs[i], p, id) &&
                          Discover(dirs, p)[id].path.dir == dirs[i].path
    {
      DiscoverAt(dirs, p, id);
    }
  }

  /**
   * `build_system` / `language_runner`: the plugin registered under `id`, or
   * an "Unknown <noun> <id><did_you_mean>" error whose suggestion comes from
   * `closestMsg` over the registered identifiers.
   */
  function Lookup(plugins: map<string, Plugin>, noun: string, id: string,
                  closestMsg: (string, set<string>) -> string): (r: Result<Plugin, Error>)
    ensures r.Ok? <==> id in plugins
    ensures r.Ok? ==> r.value == plugins[id]
    ensures r.Err? ==> r.error.Unknown? && r.error.noun == noun && r.error.id == id &&
                       "Unknown " + noun + " " + id <= ErrorText(r.error)
  {
    if id in plugins then Ok(plugins[id])
    else Err(Unknown(noun, id, closestMsg(id, plugins.Keys)))
  }
}
