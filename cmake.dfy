/**
 * The CMake definitions the Mapnik recipe passes to the build: twelve that mirror a
 * recipe option and thirty-one whose value the recipe fixes, four of them on and the
 * rest off. The recipe fills the definitions dictionary once per build; the model is
 * the dictionary it ends with.
 */
module RecipeCMake {
  import opened Strings
  import opened Recipe

  /** The definitions that mirror an option: definition name to option name. */
  const MirroredFlags: map<string, string> := map[
    "USE_JPEG" := "with_jpeg",
    "USE_PNG" := "with_png",
    "USE_TIFF" := "with_tiff",
    "USE_WEBP" := "with_webp",
    "USE_LIBXML2" := "with_libxml2",
    "USE_CAIRO" := "with_cairo",
    "USE_PROJ" := "with_proj",
    "USE_GRID_RENDERER" := "grid_renderer",
    "USE_SVG_RENDERER" := "svg_renderer",
    "USE_BIGINT" := "bigint",
    "USE_MEMORY_MAPPED_FILE" := "memory_mapped_file",
    "USE_MULTITHREADED" := "threadsafe"
  ]

  // The definitions whose value the recipe fixes whatever the options, block by
  // block as the recipe sets them.

  const InstallFlags: map<string, bool> := map["INSTALL_DEPENDENCIES" := false]

  const ExternalMapboxFlags: map<string, bool> := map[
    "USE_EXTERNAL_MAPBOX_GEOMETRY" := true,
    "USE_EXTERNAL_MAPBOX_POLYLABEL" := true,
    "USE_EXTERNAL_MAPBOX_PROTOZERO" := true,
    "USE_EXTERNAL_MAPBOX_VARIANT" := true
  ]

  const DiagnosticFlags: map<string, bool> := map[
    "USE_NO_ATEXIT" := false,
    "USE_NO_DLCLOSE" := false,
    "USE_DEBUG_OUTPUT" := false,
    "USE_LOG" := false,
    "USE_STATS" := false
  ]

  const InputPluginFlags: map<string, bool> := map[
    "USE_PLUGIN_INPUT_CSV" := false,
    "USE_PLUGIN_INPUT_GDAL" := false,
    "USE_PLUGIN_INPUT_GEOBUF" := false,
    "USE_PLUGIN_INPUT_GEOJSON" := false,
    "USE_PLUGIN_INPUT_OGR" := false,
    "USE_PLUGIN_INPUT_PGRASTER" := false,
    "USE_PLUGIN_INPUT_POSTGIS" := false,
    "USE_PLUGIN_INPUT_RASTER" := false,
    "USE_PLUGIN_INPUT_SHAPE" := false,
    "USE_PLUGIN_INPUT_SQLITE" := false,
    "USE_PLUGIN_INPUT_TOPOJSON" := false
  ]

  const DemoFlags: map<string, bool> := map[
    "BUILD_DEMO_VIEWER" := false,
    "BUILD_DEMO_CPP" := false
  ]

  const BenchmarkFlags: map<string, bool> := map["BUILD_BENCHMARK" := false]

  const UtilityFlags: map<string, bool> := map[
    "BUILD_UTILITY_GEOMETRY_TO_WKB" := false,
    "BUILD_UTILITY_MAPNIK_INDEX" := false,
    "BUILD_UTILITY_MAPNIK_RENDER" := false,
    "BUILD_UTILITY_OGRINDEX" := false,
    "BUILD_UTILITY_PGSQL2SQLITE" := false,
    "BUILD_UTILITY_SHAPEINDEX" := false,
    "BUILD_UTILITY_SVG2PNG" := false
  ]

  /** All definitions with a fixed value. */
  const FixedFlags: map<string, bool> :=
    InstallFlags + ExternalMapboxFlags + DiagnosticFlags + InputPluginFlags + DemoFlags + BenchmarkFlags + UtilityFlags

  /** Every mirrored option has a value in `o`. */
  predicate Mirrors(o: map<string, bool>)
  {
    forall f :: f in MirroredFlags ==> MirroredFlags[f] in o
  }

  /** The definitions that carry an option's value. */
  function MirroredDefinitions(o: map<string, bool>): map<string, bool>
    requires Mirrors(o)
  {
    map f | f in MirroredFlags :: o[MirroredFlags[f]]
  }

  /** The CMake definitions the recipe sets under option values `o`. */
  function CMakeDefinitions(o: map<string, bool>): map<string, bool>
    requires Mirrors(o)
  {
    FixedFlags + MirroredDefinitions(o)
  }

  /** No definition of the block is one that mirrors an option. */
  predicate NotMirrored(block: map<string, bool>)
  {
    forall f :: f in block ==> f !in MirroredFlags
  }

  /** Every mirrored definition starts with `USE_` and continues with neither `E` nor
      `PL`. */
  lemma MirroredNameShape()
    ensures forall f :: f in MirroredFlags ==> 5 < |f| && f[0] == 'U' && f[4] != 'E' && f[5] != 'L'
  {
  }

  /** A block whose names all carry character `c` at position `i`, where no mirrored
      definition does, mirrors no option. */
  lemma {:induction false} NotMirroredByChar(block: map<string, bool>, i: nat, c: char)
    requires (i == 0 && c != 'U') || (i == 4 && c == 'E') || (i == 5 && c == 'L')
    requires CharAt(block, i, c)
    ensures NotMirrored(block)
  {
    MirroredNameShape();
    forall f | f in block ensures f !in MirroredFlags {
      assert f[i] == c;
    }
  }

  /** Every name of the block carries `c` at position `i`. */
  predicate CharAt(block: map<string, bool>, i: nat, c: char)
  {
    forall f :: f in block ==> i < |f| && f[i] == c
  }

  lemma InstallBlockNotMirrored()
    ensures NotMirrored(InstallFlags)
  {
    assert CharAt(InstallFlags, 0, 'I');
    NotMirroredByChar(InstallFlags, 0, 'I');
  }

  lemma ExternalMapboxNames()
    ensures CharAt(ExternalMapboxFlags, 4, 'E')
  {
  }

  lemma ExternalMapboxBlockNotMirrored()
    ensures NotMirrored(ExternalMapboxFlags)
  {
    ExternalMapboxNames();
    NotMirroredByChar(ExternalMapboxFlags, 4, 'E');
  }

  lemma DiagnosticBlockNotMirrored()
    ensures NotMirrored(DiagnosticFlags)
  {
  }

  lemma PluginNames()
    ensures CharAt(InputPluginFlags, 5, 'L')
  {
  }

  lemma PluginBlockNotMirrored()
    ensures NotMirrored(InputPluginFlags)
  {
    PluginNames();
    NotMirroredByChar(InputPluginFlags, 5, 'L');
  }

  lemma DemoAndBenchmarkNames()
    ensures CharAt(DemoFlags, 0, 'B') && CharAt(BenchmarkFlags, 0, 'B')
  {
  }

  lemma DemoAndBenchmarkBlocksNotMirrored()
    ensures NotMirrored(DemoFlags) && NotMirrored(BenchmarkFlags)
  {
    DemoAndBenchmarkNames();
    NotMirroredByChar(DemoFlags, 0, 'B');
    NotMirroredByChar(BenchmarkFlags, 0, 'B');
  }

  lemma UtilityNames()
    ensures CharAt(UtilityFlags, 0, 'B')
  {
  }

  lemma UtilityBlockNotMirrored()
    ensures NotMirrored(UtilityFlags)
  {
    UtilityNames();
    NotMirroredByChar(UtilityFlags, 0, 'B');
  }

  /** The definitions set are the fixed ones and the mirrored ones, and no other. */
  lemma DefinitionKeys(o: map<string, bool>)
    requires Mirrors(o)
    ensures CMakeDefinitions(o).Keys == FixedFlags.Keys + MirroredFlags.Keys
  {
  }

  /** Each mirrored definition carries its option's value. */
  lemma MirroredDefinitionsFollowOptions(o: map<string, bool>)
    requires Mirrors(o)
    ensures forall f :: f in MirroredFlags ==> CMakeDefinitions(o)[f] == o[MirroredFlags[f]]
  {
  }

  /** Each fixed definition keeps its fixed value whatever the options. */
  lemma FixedDefinitionsIgnoreOptions(o: map<string, bool>)
    requires Mirrors(o)
    ensures forall f :: f in FixedFlags ==> CMakeDefinitions(o)[f] == FixedFlags[f]
  {
    InstallBlockNotMirrored();
    ExternalMapboxBlockNotMirrored();
    DiagnosticBlockNotMirrored();
    PluginBlockNotMirrored();
    DemoAndBenchmarkBlocksNotMirrored();
    UtilityBlockNotMirrored();
  }

  const ExternalMapboxPrefix: string := "USE_EXTERNAL_MAPBOX_"

  /** Every definition of the block is switched off and lacks the external-Mapbox prefix. */
  predicate OffWithoutExternalPrefix(block: map<string, bool>)
  {
    forall f :: f in block ==> !block[f] && !HasPrefix(f, ExternalMapboxPrefix)
  }

  lemma ExternalMapboxFlagsOn()
    ensures forall f :: f in ExternalMapboxFlags ==> ExternalMapboxFlags[f] && HasPrefix(f, ExternalMapboxPrefix)
  {
    assert HasPrefix("USE_EXTERNAL_MAPBOX_GEOMETRY", "USE_EXTERNAL_MAPBOX_");
    assert HasPrefix("USE_EXTERNAL_MAPBOX_POLYLABEL", "USE_EXTERNAL_MAPBOX_");
    assert HasPrefix("USE_EXTERNAL_MAPBOX_PROTOZERO", "USE_EXTERNAL_MAPBOX_");
    assert HasPrefix("USE_EXTERNAL_MAPBOX_VARIANT", "USE_EXTERNAL_MAPBOX_");
  }

  /** A block whose names all start with a letter other than `U`, or carry a letter
      other than `E` right after `USE_`, is off and lacks the prefix. */
  lemma {:induction false} OffBlock(block: map<string, bool>)
    requires forall f :: f in block ==> !block[f] && |f| > 4 && (f[0] != 'U' || f[4] != 'E')
    ensures OffWithoutExternalPrefix(block)
  {
    forall f | f in block ensures !HasPrefix(f, ExternalMapboxPrefix) {
      if f[0] != 'U' {
        NotPrefixAt(f, ExternalMapboxPrefix, 0);
      } else {
        NotPrefixAt(f, ExternalMapboxPrefix, 4);
      }
    }
  }

  lemma InstallBlockOff()
    ensures OffWithoutExternalPrefix(InstallFlags)
  {
    OffBlock(InstallFlags);
  }

  lemma DiagnosticBlockOff()
    ensures OffWithoutExternalPrefix(DiagnosticFlags)
  {
    OffBlock(DiagnosticFlags);
  }

  lemma PluginBlockOff()
    ensures OffWithoutExternalPrefix(InputPluginFlags)
  {
    OffBlock(InputPluginFlags);
  }

  lemma BuildBlocksOff()
    ensures OffWithoutExternalPrefix(DemoFlags) && OffWithoutExternalPrefix(BenchmarkFlags)
  {
    OffBlock(DemoFlags);
    OffBlock(BenchmarkFlags);
  }

  lemma UtilityBlockOff()
    ensures OffWithoutExternalPrefix(UtilityFlags)
  {
    OffBlock(UtilityFlags);
  }

  /** Every definition of `m` is on exactly when it carries the external-Mapbox prefix. */
  predicate OnIffExternal(m: map<string, bool>)
  {
    forall f :: f in m ==> (m[f] <==> HasPrefix(f, ExternalMapboxPrefix))
  }

  /** Setting one block after another keeps the on-iff-prefixed rule. */
  lemma {:induction false} UnionOnIffExternal(a: map<string, bool>, b: map<string, bool>)
    requires OnIffExternal(a) && OnIffExternal(b)
    ensures OnIffExternal(a + b)
  {
    forall f | f in a + b ensures (a + b)[f] <==> HasPrefix(f, ExternalMapboxPrefix) {
      if f in b {
        assert (a + b)[f] == b[f];
      } else {
        assert (a + b)[f] == a[f];
      }
    }
  }

  /** Of the fixed definitions exactly the four `USE_EXTERNAL_MAPBOX_` ones are on. */
  lemma FixedFlagsOnlyExternalMapbox()
    ensures forall f :: f in FixedFlags ==> (FixedFlags[f] <==> HasPrefix(f, ExternalMapboxPrefix))
  {
    ExternalMapboxFlagsOn();
    InstallBlockOff();
    DiagnosticBlockOff();
    PluginBlockOff();
    BuildBlocksOff();
    UtilityBlockOff();
    var m := InstallFlags;
    UnionOnIffExternal(m, ExternalMapboxFlags);
    m := m + ExternalMapboxFlags;
    UnionOnIffExternal(m, DiagnosticFlags);
    m := m + DiagnosticFlags;
    UnionOnIffExternal(m, InputPluginFlags);
    m := m + InputPluginFlags;
    UnionOnIffExternal(m, DemoFlags);
    m := m + DemoFlags;
    UnionOnIffExternal(m, BenchmarkFlags);
    m := m + BenchmarkFlags;
    UnionOnIffExternal(m, UtilityFlags);
    m := m + UtilityFlags;
    assert m == FixedFlags;
  }

  /** No two definitions mirror the same option. */
  lemma MirroredOptionsDistinct()
    ensures forall f, g :: f in MirroredFlags && g in MirroredFlags && f != g ==> MirroredFlags[f] != MirroredFlags[g]
  {
  }

  /** The mirrored options are exactly the declared options other than `shared` and
      `fPIC`. */
  lemma MirroredOptionsCoverSchema()
    ensures MirroredFlags.Values == OptionDomains.Keys - {"shared", "fPIC"}
  {
    assert MirroredFlags["USE_JPEG"] == "with_jpeg";
    assert MirroredFlags["USE_PNG"] == "with_png";
    assert MirroredFlags["USE_TIFF"] == "with_tiff";
    assert MirroredFlags["USE_WEBP"] == "with_webp";
    assert MirroredFlags["USE_LIBXML2"] == "with_libxml2";
    assert MirroredFlags["USE_CAIRO"] == "with_cairo";
    assert MirroredFlags["USE_PROJ"] == "with_proj";
    assert MirroredFlags["USE_GRID_RENDERER"] == "grid_renderer";
    assert MirroredFlags["USE_SVG_RENDERER"] == "svg_renderer";
    assert MirroredFlags["USE_BIGINT"] == "bigint";
    assert MirroredFlags["USE_MEMORY_MAPPED_FILE"] == "memory_mapped_file";
    assert MirroredFlags["USE_MULTITHREADED"] == "threadsafe";
  }

  /** Two option assignments give the same definitions iff they agree on every
      mirrored option: `shared`, `fPIC` and anything else do not reach the
      definitions the recipe itself sets. */
  lemma {:induction false} DefinitionsDeterminedByMirroredOptions(o1: map<string, bool>, o2: map<string, bool>)
    requires Mirrors(o1) && Mirrors(o2)
    ensures CMakeDefinitions(o1) == CMakeDefinitions(o2) <==>
            forall f :: f in MirroredFlags ==> o1[MirroredFlags[f]] == o2[MirroredFlags[f]]
  {
    if forall f :: f in MirroredFlags ==> o1[MirroredFlags[f]] == o2[MirroredFlags[f]] {
      assert MirroredDefinitions(o1) == MirroredDefinitions(o2);
    } else {
      var f :| f in MirroredFlags && o1[MirroredFlags[f]] != o2[MirroredFlags[f]];
      MirroredDefinitionsFollowOptions(o1);
      MirroredDefinitionsFollowOptions(o2);
      assert CMakeDefinitions(o1)[f] != CMakeDefinitions(o2)[f];
    }
  }

  /** Whether or not a callback removed `fPIC`, an instance's options supply every
      mirrored option, and the definitions the recipe sets are the same. */
  lemma DefinitionsIgnoreFPicRemoval(o: map<string, bool>)
    requires OptionsShape(o)
    ensures Mirrors(o) && Mirrors(o - {"fPIC"})
    ensures CMakeDefinitions(o - {"fPIC"}) == CMakeDefinitions(o)
  {
    MirroredOptionsCoverSchema();
    forall f | f in MirroredFlags ensures MirroredFlags[f] in o - {"fPIC"} {
      assert MirroredFlags[f] in MirroredFlags.Values;
    }
    DefinitionsDeterminedByMirroredOptions(o - {"fPIC"}, o);
  }
}
