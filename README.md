# External build-system plugins: registry and `targets` protocol

This project models the two plugin registries of the host build tool:

- `ExternalBuildMgr` (`src/cargo/core/external.rs`), the registry of external
  *build systems*, which also runs the `targets` request/response exchange with
  a plugin and turns the plugin's target descriptors into host targets;
- `LanguageOps` (`src/cargo/core/compiler/build_context/external_language.rs`),
  the registry of external *languages*.

Both find executables named `cargobuild-<id><EXE_SUFFIX>` in an ordered list of
search directories and keep a map from identifier to plugin (its path and a
toolchain hash). Their discovery and lookup are identical, so one shared model
(`Discovery`) serves both, parameterised by the noun of the "Unknown …" error
("build system" or "language").

Modules:

- `Wrappers` — `Option` and `Result` (`CargoResult`).
- `Host` — minimal stand-ins for the host's types: `Target` (the arguments of
  `Target::bin_target` / `Target::lib_target`), `Edition`, `CrateType`,
  `Command` (a `ProcessBuilder`: program plus argument list), `PluginPath`
  (`dir.join(filename)`), `ExitStatus`, `u64`, and `Error` with one variant per
  error site.
- `Naming` — the file-name convention: prefix/suffix tests, the identifier
  slice, and the proof that the prefix `cargobuild-` and the suffix (`""` or
  `".exe"`) cannot overlap, so the slice is always in range.
- `Discovery` — the scan as a method with the two nested loops (`Scan`),
  specified by a left fold (`Discover`), with lemmas characterising the result:
  which identifiers are registered, and that the last search directory
  providing an identifier wins; and `Lookup`.
- `ExternalBuild` — `mk_target`, the conversion loop, the `targets` decision
  (`TargetsReply`, and `ExchangeReply` once the plugin has been run with the
  `targets` command) over an abstract process exchange, and the class
  `ExternalBuildMgr` with `new`, `build_system`, `targets`, `toolchain_hash`,
  `outputs` and `compiler`.
- `ExternalLanguage` — `LanguageRunner::new` and the class `LanguageOps` with
  `new`, `language_runner`, `toolchain_hash`, `outputs` and `compiler`.

The file system and the child process are inputs: a search directory is its
path, whether it could be read, and its listing; each listed item is either an
I/O error or an entry with an optional UTF-8 file name and the result of the
executable check. A `targets` exchange is a record of which process steps
succeeded, the parsed body (`None` when it is not a `TargetResult`) and the
exit status; the plugin process is a function from the request to that record.

Both registries are immutable once built (their fields are `const`); the only
state that changes in place is the local map filled by the scan (the local
variable of `Scan`) and the caller's `warnings`/`errors` vectors that `targets`
appends to (`StringVec`).

The model keeps the values the code uses: the toolchain hash is the
placeholder 0 (`external.rs:48`, `external_language.rs:43`) and `outputs`
always returns an empty list, not a content digest or a real artifact list.
The precedence between directories is fixed by the search-path order alone:
within one directory an identifier fixes the file name
(`Naming.FileNameForInjective`), so directory listing order cannot matter, and
the last directory in search order wins (`Discovery.DiscoverLastWins`). The
third argument `None` passed to `Target::bin_target` is, in the host crate, the
optional required-features list (not a crate-type list); the model keeps it as
`requiredFeatures: None`.

## Model

| member | source | states |
|---|---|---|
| `Naming.ExeSuffix` | src/cargo/core/external.rs:125 | the executable suffix is `""` or `".exe"` |
| `Naming.PluginFileNameTest` | src/cargo/core/external.rs:134-136 | the test `IsPluginFileName` (`StartsWith` and `EndsWith`, i.e. `str::starts_with` / `str::ends_with`) keeps an entry exactly when its name is `cargobuild-` followed by something and something followed by the platform suffix |
| `Naming.NoOverlap` | src/cargo/core/external.rs:134-139 | a name that starts with `cargobuild-` and ends with the suffix is at least as long as both together, so the slice `[prefix.len()..len - suffix.len()]` is in range |
| `Naming.PluginId` | src/cargo/core/external.rs:138-139 | the identifier satisfies `prefix + id + suffix == filename` |
| `Naming.FileNameFor` | src/cargo/core/external.rs:134-139 | `cargobuild-<id><suffix>` passes the name test and its identifier is `id` (round trip) |
| `Naming.PluginFileNameIff` | src/cargo/core/compiler/build_context/external_language.rs:76-81 | a file name passes the prefix/suffix test exactly when it is `cargobuild-<id><suffix>` for some `id` |
| `Naming.FileNameForInjective` | src/cargo/core/external.rs:134-139 | distinct identifiers have distinct file names |
| `Discovery.NewPlugin` | src/cargo/core/external.rs:45-50 | a new plugin keeps its path and has hash 0 |
| `Discovery.Plugin.NewCommand` | src/cargo/core/external.rs:57-59 | the command runs the plugin's path with no arguments |
| `Discovery.DirEntries` | src/cargo/core/external.rs:127 | `fs::read_dir(dir).into_iter().flatten()`: an unreadable directory contributes no entries (and no error); a readable one its whole listing |
| `Discovery.Classify` | src/cargo/core/external.rs:128-139 | an entry registers an identifier only if it is not an I/O error, its name is UTF-8 and is `cargobuild-<id><suffix>`, and it is executable |
| `Discovery.ClassifyIff` | src/cargo/core/compiler/build_context/external_language.rs:69-81 | an entry registers `id` exactly when it is executable and named `cargobuild-<id><suffix>`; every other entry is skipped |
| `Discovery.AddEntry` | src/cargo/core/external.rs:137-141 | one inner-loop step: an entry that registers `id` overwrites the key `id` with that directory's `cargobuild-<id><suffix>` plugin; any other entry leaves the map unchanged |
| `Discovery.ScanEntries` | src/cargo/core/external.rs:128-143 | the inner loop over one directory as a fold of `AddEntry`: no key is dropped, and every key it adds or replaces holds this directory's plugin |
| `Discovery.Discover` | src/cargo/core/external.rs:126-144 | the outer loop as a fold of `ScanEntries` over the search directories in order (entries from `DirEntries`): every registered plugin has hash 0 and the file name `cargobuild-<id><suffix>` |
| `Discovery.Scan` | src/cargo/core/external.rs:121-146 | the nested loops over directories and entries compute exactly the left fold `Discover` |
| `Discovery.ScanEntriesAt` | src/cargo/core/external.rs:128-143 | scanning one directory adds exactly the identifiers it provides, maps each to that directory's file, and leaves every other key unchanged |
| `Discovery.LastProvider` | src/cargo/core/external.rs:126 | the index of the last search directory that provides an identifier, if any |
| `Discovery.DiscoverAt` | src/cargo/core/external.rs:126-143 | an identifier is registered exactly when some directory provides it, and is mapped to the file in the last such directory |
| `Discovery.DiscoverKeys` | src/cargo/core/compiler/build_context/external_language.rs:66-86 | registration: an identifier is a key exactly when some search directory provides it, so distinct identifiers from different directories all stay registered |
| `Discovery.DiscoverLastWins` | src/cargo/core/compiler/build_context/external_language.rs:66-86 | if several directories provide an identifier, the plugin from the last one in search order is kept, with path `dir` joined with `cargobuild-<id><suffix>` |
| `Discovery.DiscoverEntries` | src/cargo/core/external.rs:137-141 | every registered plugin has hash 0 and a path that is some providing directory joined with `cargobuild-<id><suffix>` |
| `Discovery.Lookup` | src/cargo/core/external.rs:149-159 | succeeds exactly when the identifier is a key and returns its plugin; otherwise an `Unknown` error whose text begins "Unknown <noun> <id>" |
| `Host.ErrorText` | src/cargo/core/external.rs:155 | the text of an unknown-identifier error begins "Unknown <noun> <id>"; an in-band failure's text is exactly its message |
| `Host.Command.Arg` | src/cargo/core/external.rs:234 | adding an argument appends it and keeps the program |
| `ExternalBuild.MkTarget` | src/cargo/core/external.rs:89-104 | never fails; `Bin` gives a binary target with no optional list, `Lib` a library target with crate types `[Lib]`; both keep name and source path and use Edition 2021 |
| `ExternalBuild.MkTargetDescribe` | src/cargo/core/external.rs:89-104 | the descriptor can be read back from the target `mk_target` made |
| `ExternalBuild.ConvertAll` | src/cargo/core/external.rs:208-211 | one target per descriptor, in the same order |
| `ExternalBuild.ConvertTargets` | src/cargo/core/external.rs:208-211 | the conversion loop succeeds and yields `mk_target` of each descriptor, in order |
| `ExternalBuild.TargetsCommand` | src/cargo/core/external.rs:173-174 | the command run for `targets` has the looked-up plugin's path as program and exactly `["targets"]` as arguments |
| `ExternalBuild.ExchangeReply` | src/cargo/core/external.rs:179-217 | each process step is checked in order and its own error reported: launch (`CouldNotLaunch`), request write (`RequestNotWritten`), response read (`ResponseNotRead`), parse (`InvalidTargetResult`, whatever the exit status), wait (`FailedToTerminate`), exit status (`ExitedWith`, even over a `Success` body), then a zero-exit `Failure` is an error with exactly its message; `Success` yields `mk_target` of each descriptor in order plus the plugin's warnings and errors; every error appends nothing |
| `ExternalBuild.TargetsReply` | src/cargo/core/external.rs:171-217 | an unknown id is reported first, as an `Unknown` error with the noun "build system" and that id, with nothing appended and nothing run; a known id runs the plugin at its own path with the `targets` command and decides as `ExchangeReply` |
| `ExternalBuild.StringVec.Append` | src/cargo/core/external.rs:212-213 | appends in order after the earlier contents |
| `ExternalBuild.ExternalBuildMgr.constructor` | src/cargo/core/external.rs:121-146 | the registry is the result of scanning the search directories in order |
| `ExternalBuild.ExternalBuildMgr.BuildSystem` | src/cargo/core/external.rs:149-159 | succeeds exactly when the id is registered; otherwise the text begins "Unknown build system <id>" |
| `ExternalBuild.ExternalBuildMgr.Targets` | src/cargo/core/external.rs:161-218 | returns `TargetsReply`'s result and appends its warnings and errors to the end of the caller's vectors, leaving them unchanged on every error path |
| `ExternalBuild.ExternalBuildMgr.ToolchainHash` | src/cargo/core/external.rs:221-223 | 0 for every registered id, the lookup error otherwise |
| `ExternalBuild.ExternalBuildMgr.Outputs` | src/cargo/core/external.rs:226-228 | always succeeds with an empty list, without a lookup |
| `ExternalBuild.ExternalBuildMgr.Compiler` | src/cargo/core/external.rs:231-236 | for a registered id, a command whose program is the plugin's path and whose arguments are exactly `["build"]`; the lookup error otherwise |
| `ExternalLanguage.NewLanguageRunner` | src/cargo/core/compiler/build_context/external_language.rs:40-45 | never fails; keeps the path and has hash 0 |
| `ExternalLanguage.LanguageOps.constructor` | src/cargo/core/compiler/build_context/external_language.rs:88 | the registry holds the scanned map |
| `ExternalLanguage.LanguageOps.New` | src/cargo/core/compiler/build_context/external_language.rs:60-89 | always returns `Ok`, with the registry that scanning the search directories in order produces |
| `ExternalLanguage.LanguageOps.LanguageRunner` | src/cargo/core/compiler/build_context/external_language.rs:92-102 | succeeds exactly when the language is registered; otherwise the text begins "Unknown language <lang>" |
| `ExternalLanguage.LanguageOps.ToolchainHash` | src/cargo/core/compiler/build_context/external_language.rs:104-107 | 0 for every registered language, the lookup error otherwise |
| `ExternalLanguage.LanguageOps.Outputs` | src/cargo/core/compiler/build_context/external_language.rs:109-112 | always succeeds with an empty list, even for an unregistered language |
| `ExternalLanguage.LanguageOps.Compiler` | src/cargo/core/compiler/build_context/external_language.rs:114-120 | for a registered language, a command whose program is the runner's path and whose arguments are exactly `["build"]`; fails otherwise |

## Left out

- File-system access (`fs::read_dir`, `fs::metadata`, the permission-bit test of `is_executable`): a directory's readability, its listing and each entry's executable check are inputs; the unix/windows difference in the check is folded into that boolean.
- Path rendering: `dir.join(filename)` is kept as the pair (`PluginPath`); error variants that display a path or an exit status carry them instead of their text.
- Process handling (`Command` spawning, `env_clear`, piped stdin/stdout, null stderr, `read_to_string`, `wait`): the command (program and the verb `targets`) is modelled, but the environment and stdio settings are not; the outcome of each step is an input (`Exchange`, given by the plugin process as a function of the command and the request), and so are the I/O errors' own messages.
- JSON serialisation of the request and parsing of the reply (serde): the parse result is `Option<TargetResult>`.
- `closest_msg` is not part of this model: each registry is given it as a function and nothing is asserted about the suggestion it produces.
- `Target`, `Edition`, `CrateType`, `ProcessBuilder`, `Unit` and `OutputFile` are host types defined elsewhere; they are minimal datatypes here.
- The unused `_features` and `_manifest` parameters of `targets` are not modelled.
- The `println!` debug output of `LanguageOps::new` is I/O and is not modelled.
- `ExternalLanguage.LanguageOps.New`: the scan inserts `NewPlugin(path)` directly instead of going through `LanguageRunner::new(...)?`; `NewLanguageRunner` shows that call always succeeds with that same plugin.
- Concurrency and timeouts do not occur in the code: `read_to_string` and `wait` block for as long as a hung plugin runs, and an `Exchange` only describes exchanges that finish, so a plugin that never exits is outside the model. The hash is the placeholder 0 and is modelled as such.
- Map iteration order: keys are only tested for membership, so the map is a Dafny `map`.
