# Mapnik package recipe and CI driver, modelled in Dafny

This project models the two pieces of logic in the Mapnik Conan package that
are not just calls into Conan, CMake or the multi-build packager.

- **The recipe** (`conanfile.py`). It declares fourteen boolean options with
  their defaults. `config_options` and `configure` delete `fPIC` for Windows
  targets and for shared builds. `requirements` declares eight fixed
  dependencies and seven that each depend on a `with_*` option.
  `_configure_cmake` turns the options into CMake definitions: twelve mirror
  an option, four are always on and twenty-seven are always off.
  `package_info` publishes the library file name and a three-component graph.
- **The CI driver** (`build.py`). It finds the branch of a GitHub Actions
  run. It takes the version from the command line, or else from the last
  `/`-segment of that branch. It then forms the reference `name/version`
  and, when the recipe has a `shared` option, the option name `name:shared`.

Files:

- `optional.dfy` (module `Optional`): Python's `None`.
- `strings.dfy` (module `Strings`): `startswith`.
- `recipe.dfy` (module `Recipe`): the option schema and the dependency
  list, as specification functions with lemmas. It also has the library name
  and the component graph. Class `MapnikConan` holds the state the recipe
  changes in place: its options, the references passed to `requires` and the
  published components. Its callbacks are methods proved against those
  functions.
- `cmake.dfy` (module `RecipeCMake`): the CMake definitions.
- `build_driver.dfy` (module `BuildDriver`): the CI driver. All of it is
  pure functions over the environment and the command line, which are passed
  in as a map and a sequence.

## Model

| member | source | states |
|---|---|---|
| Recipe.MapnikConan.constructor | conanfile.py:16-48 | a fresh instance holds the given settings and a value for every declared option, and has no requirements and no components yet |
| Recipe.DefaultsMatchSchema | conanfile.py:17-48 | the defaults name exactly the declared options, and every default lies in its option's `[True, False]` domain |
| Recipe.MapnikConan.RemoveFPic | conanfile.py:59 | `del self.options.fPIC` removes `fPIC` and nothing else; if `fPIC` is already gone, the outcome records a removal of an undeclared option |
| Recipe.MapnikConan.ConfigOptions | conanfile.py:57-59 | on Windows the options lose `fPIC` and keep everything else; elsewhere they are unchanged |
| Recipe.MapnikConan.Configure | conanfile.py:61-63 | with `shared` on the options lose `fPIC`; with `shared` off they are unchanged; a second removal is reported, not treated as a no-op |
| Recipe.OptionCallbacks | conanfile.py:57-63 | after both callbacks on fresh options, `fPIC` remains exactly when the target is not Windows and the build is not shared, and every other option keeps its value; only a shared Windows build meets an already-removed `fPIC` |
| Recipe.MapnikConan.Require | conanfile.py:66 | `self.requires(ref)` appends `ref` to the declared references |
| Recipe.MapnikConan.RequireWhen | conanfile.py:74-75 | a guarded `requires` appends the reference exactly when its option is on |
| Recipe.MapnikConan.RequireFixed | conanfile.py:66-73 | the eight unconditional calls append boost through protozero, in that order |
| Recipe.MapnikConan.RequireOptional | conanfile.py:74-87 | the seven guarded calls append the selection of the optional table under the instance's options |
| Recipe.MapnikConan.Requirements | conanfile.py:65-87 | `requirements` appends exactly `DependencyList(options)` to what was declared before |
| Recipe.DependencyList | conanfile.py:65-87 | the references `requirements` declares: the fixed ones, then the optional ones selected by `Gated`; its shape is stated by `DependencyListShape` |
| Recipe.Gated | conanfile.py:74-87 | the references of an option-guarded table whose option is on; stated by `GatedMembership`, `GatedCount` and `GatedKeepsOrder` |
| Recipe.FixedRequiresUnrolled | conanfile.py:66-73 | the fixed-reference table equals the eight `requires` calls written out in order |
| Recipe.OptionalRequiresUnrolled | conanfile.py:74-87 | selecting from the optional table equals the seven guarded calls written out in order |
| Recipe.GatedMembership | conanfile.py:74-87 | in a table with no repeated option or reference, a reference is selected iff its option is on |
| Recipe.GatedCount | conanfile.py:74-87 | the number of selected references equals the number of options switched on |
| Recipe.GatedKeepsOrder | conanfile.py:74-87 | the selected references keep the table's order (they form a subsequence of it) |
| Recipe.OptionalRequiresDistinct | conanfile.py:66-87 | no option or reference repeats in the optional table, and no optional reference is also a fixed one |
| Recipe.DependencyListShape | conanfile.py:65-87 | the list starts with the eight fixed references; it has 8 plus the number of enabled `with_*` options entries; each optional reference is present iff its option is on, in declaration order |
| RecipeCMake.CMakeDefinitions | conanfile.py:98-153 | the dictionary `_configure_cmake` ends with; stated by `DefinitionKeys`, `MirroredDefinitionsFollowOptions`, `FixedDefinitionsIgnoreOptions` and `FixedFlagsOnlyExternalMapbox` |
| RecipeCMake.DefinitionKeys | conanfile.py:101-150 | the definitions set are the fixed ones and the twelve mirrored ones, and no others |
| RecipeCMake.MirroredDefinitionsFollowOptions | conanfile.py:107-118 | each of `USE_JPEG` … `USE_MULTITHREADED` carries the value of its option |
| RecipeCMake.FixedDefinitionsIgnoreOptions | conanfile.py:101-150 | each fixed definition has its fixed value whatever the options |
| RecipeCMake.ExternalMapboxFlagsOn | conanfile.py:103-106 | the four `USE_EXTERNAL_MAPBOX_*` definitions are on and carry that prefix |
| RecipeCMake.InstallBlockOff | conanfile.py:101 | `INSTALL_DEPENDENCIES` is off |
| RecipeCMake.DiagnosticBlockOff | conanfile.py:119-123 | the five no-atexit, no-dlclose, debug-output, log and stats definitions are off |
| RecipeCMake.PluginBlockOff | conanfile.py:126-136 | every `USE_PLUGIN_INPUT_*` definition is off |
| RecipeCMake.BuildBlocksOff | conanfile.py:138-141 | the demo viewer, C++ demo and benchmark definitions are off |
| RecipeCMake.UtilityBlockOff | conanfile.py:144-150 | every `BUILD_UTILITY_*` definition is off |
| RecipeCMake.FixedFlagsOnlyExternalMapbox | conanfile.py:101-150 | a fixed definition is on iff its name starts with `USE_EXTERNAL_MAPBOX_` |
| RecipeCMake.MirroredOptionsCoverSchema | conanfile.py:107-118 | the mirrored options are exactly the declared options other than `shared` and `fPIC` |
| RecipeCMake.MirroredOptionsDistinct | conanfile.py:107-118 | no two definitions mirror the same option |
| RecipeCMake.DefinitionsDeterminedByMirroredOptions | conanfile.py:107-118 | two option assignments give the same definitions iff they agree on every mirrored option, so `shared` and `fPIC` never reach the definitions the recipe itself sets |
| RecipeCMake.DefinitionsIgnoreFPicRemoval | conanfile.py:107-118 | every option shape the callbacks of lines 57-63 can leave supplies all mirrored options, and removing `fPIC` does not change the definitions the recipe sets |
| Recipe.LibName | conanfile.py:168-172 | the library name is `mapnik` with `lib` in front iff the compiler is MSVC and `d` behind iff the build type is Debug |
| Recipe.ComponentGraph | conanfile.py:171-182 | the three published components; their layout is stated by `PublishedLayout` |
| Recipe.LibNameDistinguishesVariants | conanfile.py:168-172 | two settings give the same library name iff they agree on MSVC and on Debug |
| Recipe.MapnikConan.PackageInfo | conanfile.py:164-182 | on a fresh `cpp_info` the published components are exactly `ComponentGraph` for the settings' library name |
| Recipe.PublishedLayout | conanfile.py:171-182 | the graph has three components; only `_mapnik` carries the library; `_mapnik` requires core and agg, agg requires core, core requires nothing; core and agg have empty library and framework directories; every requirement resolves and there is no cycle |
| BuildDriver.RepoBranch | build.py:30-37 | the branch of the run; its behaviour is stated by `PullRequestUsesBaseRef`, `PushUsesRef` and `BranchRoundTrip` |
| BuildDriver.PullRequestUsesBaseRef | build.py:32-33 | on a pull request the branch is `GITHUB_BASE_REF` (empty when unset), whatever `GITHUB_REF` holds |
| BuildDriver.PushUsesRef | build.py:34-37 | outside a pull request, `"refs/heads/" + branch == GITHUB_REF` when the ref has that prefix; otherwise the branch is the ref itself (empty when unset) |
| BuildDriver.BranchRoundTrip | build.py:34-35 | pushing `refs/heads/<b>` outside a pull request yields `<b>` |
| BuildDriver.Split | build.py:52 | `rsplit("/")` yields at least one piece, no piece contains `/`, and joining the pieces with `/` gives the input back |
| BuildDriver.SplitJoin | build.py:52 | splitting undoes joining slash-free pieces |
| BuildDriver.LastSegment | build.py:52 | `rsplit("/")[-1]`; stated by `LastSegmentIsTail`, `LastSegmentAfterSlash` and `LastSegmentWhole` |
| BuildDriver.LastSegmentIsTail | build.py:52 | `rsplit("/")[-1]` is a slash-free suffix of the branch that is either the whole branch or preceded by `/` |
| BuildDriver.LastSegmentAfterSlash | build.py:52 | the last segment of `a + "/" + b` is `b` for a slash-free `b`, so a branch ending in `/` gives `""` |
| BuildDriver.LastSegmentWhole | build.py:52 | a branch without `/` is its own last segment |
| BuildDriver.Version | build.py:48-52 | the recipe version; stated by `VersionSources` and `ReleaseVersion` |
| BuildDriver.VersionSources | build.py:48-52 | a command-line argument is the version; without one the version is the branch's last segment and has no `/` |
| BuildDriver.ReleaseVersion | build.py:48-52 | with no version argument, a push of `refs/heads/release/1.2.3` gives version `1.2.3` |
| BuildDriver.Reference | build.py:53 | the f-string `name/version`, with a missing name shown as `None`; stated by `ReferenceRoundTrip` |
| BuildDriver.ReferenceRoundTrip | build.py:53 | the reference `name/version` splits back into the name and the version when neither has a `/` |
| BuildDriver.HasSharedOption | build.py:40-42 | `has_shared_option`: options are reported, non-empty and include `shared` |
| BuildDriver.SharedOptionName | build.py:54 | `name:shared` when the recipe has a `shared` option, else None; stated by `SharedOptionNameIffDeclared` |
| BuildDriver.SharedOptionNameIffDeclared | build.py:54 | the shared option name exists iff the recipe reports options that include `shared` (the emptiness test of line 42 adds nothing); it is then `name:shared` |
| BuildDriver.MapnikSharedOption | build.py:54 | for this recipe the shared option name is `mapnik:shared` |
| BuildDriver.DriverPlan | build.py:45-54 | the reference and shared option name the driver hands on; stated for this recipe by `MapnikReleasePlan` |
| BuildDriver.MapnikReleasePlan | build.py:45-54 | for this recipe a push of `refs/heads/release/1.2.3` builds `mapnik/1.2.3` and offers `mapnik:shared` |

## Left out

- `validate`, `source`, `build` and `package`: they only call the package
  manager, CMake and the file system. These are the minimum C++14 check,
  the source download, license copying, and CMake configure, build and
  install.
- RecipeCMake.CMakeDefinitions: `_configure_cmake` fills
  `cmake.definitions` one key at a time. The model is the dictionary that
  filling ends with: the fixed blocks joined with the mirrored block. The
  blocks are proved disjoint, so the order of assignment cannot change the
  result. The build helper's own initial definitions are not modelled. They
  carry `shared` and `fPIC` to CMake: the shared-library switch and the
  position-independent-code switch. `cmake.configure()` is not modelled.
- The `functools.lru_cache` on `_configure_cmake`: the definitions are
  computed once.
- Recipe.MapnikConan.RemoveFPic: the source does not guard against deleting
  an option that is already gone. This happens on a shared Windows build.
  The model reports such a deletion as `RemovedUndeclared("fPIC")` and
  leaves the options unchanged. How the package manager itself reacts is
  not modelled.
- `is_msvc(self)` is taken as a boolean setting, `isMsvc`. How the package
  manager decides it is not modelled.
- Cosmetic metadata has no behaviour and is not modelled: description,
  license, topics, URLs, generators, `exports_sources`, the `set_property`
  target names and the `names[...]` aliases. The same goes for the
  `_source_subfolder` property.
- `inspect_value_from_recipe` and the `chdir` helper (build.py:11-27) are
  not modelled. They change the working directory and ask the package
  manager for a recipe attribute. The model takes the recipe's name and
  options as parameters. A missing name is rendered as `None`, as an
  f-string would render it.
- `ConanMultiPackager` construction, `add_common_builds` and `run`
  (build.py:56-68) are not modelled. They hand the reference and option
  name to external orchestration.
- Reading `os.environ` and `sys.argv`: both are parameters.
- Recipe.MapnikConan.Require: `self.requires` is modelled as appending the
  reference to a list. The package manager keys requirements by package
  name and merges or rejects a repeated name. This recipe requires fifteen
  distinct packages, so nothing is lost here, but the model does not state
  that rule.

## Behaviour of the source worth noting

- `config_options` and `configure` both delete `fPIC` without a guard. A
  shared Windows build therefore deletes it twice. The model reports the
  second deletion and does not claim that removal is idempotent.
- `shared` and `fPIC` get no `USE_*` definition from the recipe. Four
  `USE_EXTERNAL_MAPBOX_*` definitions are always on, and every other fixed
  definition is always off.
