/**
 * The Mapnik package recipe: its boolean option schema, the callbacks that prune
 * options, the option-gated dependency list, the translation of options into CMake
 * definitions and the consumer metadata (library name and component graph).
 *
 * The pure rules are specification functions with lemmas; the callbacks that the
 * recipe runs against its own mutable state are methods of class MapnikConan,
 * each proved against those functions.
 */
module Recipe {
  import opened Optional
  import opened Strings

  const Name: string := "mapnik"

  // ---------------------------------------------------------------------------
  // Option schema
  // ---------------------------------------------------------------------------

  /** Every declared option with its domain of admissible values. */
  const OptionDomains: map<string, seq<bool>> := map[
    "shared" := [true, false],
    "fPIC" := [true, false],
    "with_jpeg" := [true, false],
    "with_png" := [true, false],
    "with_tiff" := [true, false],
    "with_webp" := [true, false],
    "with_libxml2" := [true, false],
    "with_cairo" := [true, false],
    "with_proj" := [true, false],
    "grid_renderer" := [true, false],
    "svg_renderer" := [true, false],
    "bigint" := [true, false],
    "memory_mapped_file" := [true, false],
    "threadsafe" := [true, false]
  ]

  /** The value each option takes when the consumer does not choose one. */
  const DefaultOptions: map<string, bool> := map[
    "shared" := false,
    "fPIC" := true,
    "with_jpeg" := true,
    "with_png" := true,
    "with_tiff" := true,
    "with_webp" := true,
    "with_libxml2" := true,
    "with_cairo" := true,
    "with_proj" := true,
    "grid_renderer" := true,
    "svg_renderer" := true,
    "bigint" := true,
    "memory_mapped_file" := true,
    "threadsafe" := true
  ]

  /** Every default names a declared option, every declared option has a default,
      and each default lies in its option's domain. */
  lemma DefaultsMatchSchema()
    ensures DefaultOptions.Keys == OptionDomains.Keys
    ensures forall k :: k in DefaultOptions ==> DefaultOptions[k] in OptionDomains[k]
  {
  }

  /** The part of the build settings the recipe looks at. `isMsvc` stands for the
      package manager's own test of whether the compiler is Microsoft's. */
  datatype Settings = Settings(os: string, isMsvc: bool, buildType: string)

  /** The option values a recipe instance may hold: all declared options, or all
      but `fPIC` once a callback has removed it. */
  predicate OptionsShape(o: map<string, bool>)
  {
    o.Keys == OptionDomains.Keys || o.Keys == OptionDomains.Keys - {"fPIC"}
  }

  /** What `del self.options.fPIC` led to: the removal, or an attempt to remove an
      option that an earlier callback had already removed (the source does not
      guard against that; how the package manager reacts is not modelled). */
  datatype Outcome = Done | RemovedUndeclared(option: string)

  // ---------------------------------------------------------------------------
  // Dependencies
  // ---------------------------------------------------------------------------

  /** The references required in every configuration, in declaration order. */
  const FixedRequires: seq<string> := [
    "boost/1.78.0",
    "freetype/2.11.1",
    "harfbuzz/4.2.1",
    "icu/71.1",
    "mapbox-geometry/2.0.3",
    "mapbox-variant/1.2.0",
    "polylabel/1.1.0",
    "protozero/1.7.1"
  ]

  /** The references gated on an option, as (option, reference), in declaration order. */
  const OptionalRequires: seq<(string, string)> := [
    ("with_jpeg", "libjpeg/9d"),
    ("with_png", "libpng/1.6.37"),
    ("with_tiff", "libtiff/4.3.0"),
    ("with_webp", "libwebp/1.2.2"),
    ("with_libxml2", "libxml2/2.9.13"),
    ("with_cairo", "cairo/1.17.4"),
    ("with_proj", "proj/9.0.0")
  ]

  /** Every gating option of the table has a value in `o`. */
  predicate Gates(table: seq<(string, string)>, o: map<string, bool>)
  {
    forall i :: 0 <= i < |table| ==> table[i].0 in o
  }

  /** No option and no reference occurs twice in the table. */
  predicate DistinctGates(table: seq<(string, string)>)
  {
    forall i, j :: 0 <= i < j < |table| ==> table[i].0 != table[j].0 && table[i].1 != table[j].1
  }

  /** The references of the table whose option is switched on, in table order. */
  function Gated(table: seq<(string, string)>, o: map<string, bool>): seq<string>
    requires Gates(table, o)
  {
    if table == [] then []
    else (if o[table[0].0] then [table[0].1] else []) + Gated(table[1..], o)
  }

  /** All references of the table, in table order. */
  function Refs(table: seq<(string, string)>): seq<string>
  {
    if table == [] then [] else [table[0].1] + Refs(table[1..])
  }

  /** The options of the table that are switched on. */
  function EnabledGates(table: seq<(string, string)>, o: map<string, bool>): set<string>
    requires Gates(table, o)
  {
    set i | 0 <= i < |table| && o[table[i].0] :: table[i].0
  }

  /** `a` is `b` with some elements dropped and the rest kept in order. */
  predicate SubsequenceOf(a: seq<string>, b: seq<string>)
    decreases |b|
  {
    if a == [] then true
    else if b == [] then false
    else (a[0] == b[0] && SubsequenceOf(a[1..], b[1..])) || SubsequenceOf(a, b[1..])
  }

  /** The references the recipe requires under option values `o`. */
  function DependencyList(o: map<string, bool>): seq<string>
    requires Gates(OptionalRequires, o)
  {
    FixedRequires + Gated(OptionalRequires, o)
  }

  /** A reference that no entry of the table names is never selected. */
  lemma {:induction false} GatedAvoids(table: seq<(string, string)>, o: map<string, bool>, r: string)
    requires Gates(table, o)
    requires forall i :: 0 <= i < |table| ==> table[i].1 != r
    ensures r !in Gated(table, o)
  {
    if table != [] {
      assert table[0].1 != r;
      forall i | 0 <= i < |table[1..]| ensures table[1..][i].1 != r {
        assert table[1..][i] == table[i + 1];
      }
      GatedAvoids(table[1..], o, r);
    }
  }

  /** A reference of a table without repetitions is selected iff its option is on. */
  lemma {:induction false} GatedMembership(table: seq<(string, string)>, o: map<string, bool>, i: nat)
    requires Gates(table, o) && DistinctGates(table)
    requires i < |table|
    ensures table[i].1 in Gated(table, o) <==> o[table[i].0]
  {
    var tail := table[1..];
    assert Gated(table, o) == (if o[table[0].0] then [table[0].1] else []) + Gated(tail, o);
    if i == 0 {
      forall j | 0 <= j < |tail| ensures tail[j].1 != table[0].1 {
        assert tail[j] == table[j + 1];
      }
      GatedAvoids(tail, o, table[0].1);
    } else {
      forall j, k | 0 <= j < k < |tail| ensures tail[j].0 != tail[k].0 && tail[j].1 != tail[k].1 {
        assert tail[j] == table[j + 1] && tail[k] == table[k + 1];
      }
      GatedMembership(tail, o, i - 1);
      assert tail[i - 1] == table[i];
      assert table[0].1 != table[i].1;
    }
  }

  /** The options switched on in a table are those of its first entry and of the rest. */
  lemma EnabledGatesCons(table: seq<(string, string)>, o: map<string, bool>)
    requires Gates(table, o) && table != []
    ensures Gates(table[1..], o)
    ensures EnabledGates(table, o) ==
            (if o[table[0].0] then {table[0].0} else {}) + EnabledGates(table[1..], o)
  {
    var tail := table[1..];
    var head: set<string> := if o[table[0].0] then {table[0].0} else {};
    forall x | x in EnabledGates(table, o) ensures x in head + EnabledGates(tail, o) {
      var i :| 0 <= i < |table| && o[table[i].0] && table[i].0 == x;
      if i > 0 {
        assert tail[i - 1] == table[i];
      }
    }
    forall x | x in EnabledGates(tail, o) ensures x in EnabledGates(table, o) {
      var i :| 0 <= i < |tail| && o[tail[i].0] && tail[i].0 == x;
      assert table[i + 1] == tail[i];
    }
  }

  /** As many references are selected as there are options switched on. */
  lemma {:induction false} GatedCount(table: seq<(string, string)>, o: map<string, bool>)
    requires Gates(table, o) && DistinctGates(table)
    ensures |Gated(table, o)| == |EnabledGates(table, o)|
  {
    if table == [] {
      assert EnabledGates(table, o) == {};
    } else {
      var tail := table[1..];
      forall j, k | 0 <= j < k < |tail| ensures tail[j].0 != tail[k].0 && tail[j].1 != tail[k].1 {
        assert tail[j] == table[j + 1] && tail[k] == table[k + 1];
      }
      GatedCount(tail, o);
      EnabledGatesCons(table, o);
      forall i | 0 <= i < |tail| ensures tail[i].0 != table[0].0 {
        assert tail[i] == table[i + 1];
      }
      assert table[0].0 !in EnabledGates(tail, o);
    }
  }

  /** The selected references keep the table's order. */
  lemma {:induction false} GatedKeepsOrder(table: seq<(string, string)>, o: map<string, bool>)
    requires Gates(table, o)
    ensures SubsequenceOf(Gated(table, o), Refs(table))
  {
    if table != [] {
      GatedKeepsOrder(table[1..], o);
      var rest := Gated(table[1..], o);
      var refs := Refs(table);
      assert refs[1..] == Refs(table[1..]);
      if o[table[0].0] {
        var g := Gated(table, o);
        assert g == [table[0].1] + rest;
        assert g[0] == refs[0] && g[1..] == rest;
      } else {
        assert Gated(table, o) == rest;
        if rest != [] {
          assert SubsequenceOf(rest, refs[1..]);
        }
      }
    }
  }

  /** Selecting from one more entry of the table appends that entry's reference
      exactly when its option is on. */
  lemma {:induction false} GatedSnoc(table: seq<(string, string)>, o: map<string, bool>, k: nat)
    requires Gates(table, o) && k < |table|
    ensures Gates(table[..k], o) && Gates(table[..k + 1], o)
    ensures Gated(table[..k + 1], o) == Gated(table[..k], o) + (if o[table[k].0] then [table[k].1] else [])
  {
    if k == 0 {
      assert table[..1][1..] == [];
    } else {
      GatedSnoc(table[1..], o, k - 1);
      assert table[..k + 1][1..] == table[1..][..k];
      assert table[..k][1..] == table[1..][..k - 1];
      assert table[..k + 1][0] == table[..k][0] == table[0];
    }
  }

  /** The recipe's requirements: first the eight fixed references, then each optional
      reference exactly when its option is on, in declaration order, so that the list
      holds eight plus the number of options switched on. */
  lemma DependencyListShape(o: map<string, bool>)
    requires Gates(OptionalRequires, o)
    ensures |DependencyList(o)| == |FixedRequires| + |EnabledGates(OptionalRequires, o)|
    ensures DependencyList(o)[..|FixedRequires|] == FixedRequires
    ensures SubsequenceOf(DependencyList(o)[|FixedRequires|..], Refs(OptionalRequires))
    ensures forall i :: 0 <= i < |OptionalRequires| ==>
              (OptionalRequires[i].1 in DependencyList(o) <==> o[OptionalRequires[i].0])
  {
    OptionalRequiresDistinct();
    GatedCount(OptionalRequires, o);
    GatedKeepsOrder(OptionalRequires, o);
    var gated := Gated(OptionalRequires, o);
    assert DependencyList(o)[|FixedRequires|..] == gated;
    forall i | 0 <= i < |OptionalRequires|
      ensures OptionalRequires[i].1 in DependencyList(o) <==> o[OptionalRequires[i].0]
    {
      GatedMembership(OptionalRequires, o, i);
    }
  }

  /** The fixed references appended to an earlier list `start`, written out one
      `requires` call at a time in the order the recipe makes them. */
  lemma FixedRequiresUnrolled(start: seq<string>)
    ensures start + FixedRequires ==
      start + ["boost/1.78.0"] + ["freetype/2.11.1"] + ["harfbuzz/4.2.1"] + ["icu/71.1"]
      + ["mapbox-geometry/2.0.3"] + ["mapbox-variant/1.2.0"] + ["polylabel/1.1.0"]
      + ["protozero/1.7.1"]
  {
  }

  /** The selected optional references appended to an earlier list `start`, written
      out one guarded `requires` call at a time in the order the recipe makes them. */
  lemma OptionalRequiresUnrolled(o: map<string, bool>, start: seq<string>)
    requires Gates(OptionalRequires, o)
    requires "with_jpeg" in o && "with_png" in o && "with_tiff" in o && "with_webp" in o
    requires "with_libxml2" in o && "with_cairo" in o && "with_proj" in o
    ensures start + Gated(OptionalRequires, o) ==
      start
      + (if o["with_jpeg"] then ["libjpeg/9d"] else [])
      + (if o["with_png"] then ["libpng/1.6.37"] else [])
      + (if o["with_tiff"] then ["libtiff/4.3.0"] else [])
      + (if o["with_webp"] then ["libwebp/1.2.2"] else [])
      + (if o["with_libxml2"] then ["libxml2/2.9.13"] else [])
      + (if o["with_cairo"] then ["cairo/1.17.4"] else [])
      + (if o["with_proj"] then ["proj/9.0.0"] else [])
  {
    var t := OptionalRequires;
    ImageFormatRequiresUnrolled(o, start);
    GatedStep(t, o, 4, start, "with_libxml2", "libxml2/2.9.13");
    GatedStep(t, o, 5, start, "with_cairo", "cairo/1.17.4");
    GatedStep(t, o, 6, start, "with_proj", "proj/9.0.0");
    assert t[..7] == t;
  }

  /** The first four guarded calls, those for the raster image formats. */
  lemma ImageFormatRequiresUnrolled(o: map<string, bool>, start: seq<string>)
    requires Gates(OptionalRequires, o)
    requires "with_jpeg" in o && "with_png" in o && "with_tiff" in o && "with_webp" in o
    ensures Gates(OptionalRequires[..4], o)
    ensures start + Gated(OptionalRequires[..4], o) ==
      start
      + (if o["with_jpeg"] then ["libjpeg/9d"] else [])
      + (if o["with_png"] then ["libpng/1.6.37"] else [])
      + (if o["with_tiff"] then ["libtiff/4.3.0"] else [])
      + (if o["with_webp"] then ["libwebp/1.2.2"] else [])
  {
    var t := OptionalRequires;
    assert t[..0] == [];
    assert start + Gated(t[..0], o) == start;
    GatedStep(t, o, 0, start, "with_jpeg", "libjpeg/9d");
    GatedStep(t, o, 1, start, "with_png", "libpng/1.6.37");
    GatedStep(t, o, 2, start, "with_tiff", "libtiff/4.3.0");
    GatedStep(t, o, 3, start, "with_webp", "libwebp/1.2.2");
  }

  /** One guarded `requires` call extends the selection from the first `k` entries of
      the table to the first `k + 1`. */
  lemma GatedStep(table: seq<(string, string)>, o: map<string, bool>, k: nat,
                  start: seq<string>, option: string, ref: string)
    requires Gates(table, o) && k < |table| && table[k] == (option, ref)
    ensures Gates(table[..k], o) && Gates(table[..k + 1], o)
    ensures start + Gated(table[..k + 1], o) ==
            start + Gated(table[..k], o) + (if o[option] then [ref] else [])
  {
    GatedSnoc(table, o, k);
  }

  lemma OptionalRequiresDistinct()
    ensures DistinctGates(OptionalRequires)
    ensures forall i :: 0 <= i < |OptionalRequires| ==> OptionalRequires[i].1 !in FixedRequires
  {
  }

  /** An instance's options always include every option the tables consult. */
  lemma ShapeCoversTables(o: map<string, bool>)
    requires OptionsShape(o)
    ensures Gates(OptionalRequires, o)
    ensures "with_jpeg" in o && "with_png" in o && "with_tiff" in o && "with_webp" in o
    ensures "with_libxml2" in o && "with_cairo" in o && "with_proj" in o
  {
  }

  // ---------------------------------------------------------------------------
  // Consumer metadata
  // ---------------------------------------------------------------------------

  /** The library file name consumers link against: `mapnik`, with `lib` in front
      exactly under MSVC and `d` behind exactly for a Debug build. */
  function LibName(s: Settings): (r: string)
    ensures |r| == (if s.isMsvc then 3 else 0) + 6 + (if s.buildType == "Debug" then 1 else 0)
    ensures var p := if s.isMsvc then 3 else 0; r[p..p + 6] == "mapnik"
    ensures s.isMsvc <==> HasPrefix(r, "lib")
    ensures s.buildType == "Debug" <==> r[|r| - 1] == 'd'
  {
    var prefix := if s.isMsvc then "lib" else "";
    var suffix := if s.buildType == "Debug" then "d" else "";
    var r := prefix + "mapnik" + suffix;
    assert r[|prefix|] == 'm';
    if s.isMsvc then r else NotPrefixAt(r, "lib", 0); r
  }

  /** The library name tells apart exactly the four MSVC/Debug combinations. */
  lemma LibNameDistinguishesVariants(s1: Settings, s2: Settings)
    ensures LibName(s1) == LibName(s2) <==>
            s1.isMsvc == s2.isMsvc && (s1.buildType == "Debug") == (s2.buildType == "Debug")
  {
    if LibName(s1) == LibName(s2) {
      assert HasPrefix(LibName(s1), "lib") <==> HasPrefix(LibName(s2), "lib");
    }
  }

  /** A published component: its libraries, the components it requires, and its
      library and framework directories (None: left at the package manager's default). */
  datatype Component = Component(
    libs: seq<string>,
    requirements: seq<string>,
    libdirs: Option<seq<string>>,
    frameworkdirs: Option<seq<string>>)

  /** A component as first touched, before the recipe assigns any of its fields. */
  const NewComponent: Component := Component([], [], None, None)

  /** The component graph published for library file name `libName`. */
  function ComponentGraph(libName: string): map<string, Component>
  {
    map[
      "_mapnik" := Component([libName], ["mapnik_core", "mapnik_agg"], None, None),
      "mapnik_core" := Component([], [], Some([]), Some([])),
      "mapnik_agg" := Component([], ["mapnik_core"], Some([]), Some([]))
    ]
  }

  /** `p` follows requirement edges of `g` through components of `g`. */
  ghost predicate IsPath(g: map<string, Component>, p: seq<string>)
    decreases |p|
  {
    |p| >= 1 && p[0] in g && (|p| >= 2 ==> p[1] in g[p[0]].requirements && IsPath(g, p[1..]))
  }

  /** No path of `g` returns to where it started. */
  ghost predicate Acyclic(g: map<string, Component>)
  {
    forall p :: IsPath(g, p) && |p| >= 2 ==> p[0] != p[|p| - 1]
  }

  /** Every requirement names a component of `g`, and sits lower in `rank`. */
  ghost predicate RankedBy(g: map<string, Component>, rank: map<string, nat>)
  {
    forall c :: c in g ==> c in rank && forall d :: d in g[c].requirements ==> d in g && d in rank && rank[d] < rank[c]
  }

  lemma {:induction false} PathDescends(g: map<string, Component>, rank: map<string, nat>, p: seq<string>)
    requires RankedBy(g, rank) && IsPath(g, p) && |p| >= 2
    ensures p[0] in rank && p[|p| - 1] in rank && rank[p[|p| - 1]] < rank[p[0]]
  {
    if |p| > 2 {
      PathDescends(g, rank, p[1..]);
    }
  }

  /** A graph whose edges all go down some ranking has no cycle. */
  lemma RankedIsAcyclic(g: map<string, Component>, rank: map<string, nat>)
    requires RankedBy(g, rank)
    ensures Acyclic(g)
  {
    forall p | IsPath(g, p) && |p| >= 2 ensures p[0] != p[|p| - 1] {
      PathDescends(g, rank, p);
    }
  }

  /** The published layout: three components, the library only on `_mapnik`, core and
      agg without library or framework directories, every requirement resolving to a
      component, and no requirement cycle. */
  lemma PublishedLayout(s: Settings)
    ensures var g := ComponentGraph(LibName(s));
      && g.Keys == {"_mapnik", "mapnik_core", "mapnik_agg"}
      && g["_mapnik"].libs == [LibName(s)]
      && g["mapnik_core"].libs == [] && g["mapnik_agg"].libs == []
      && g["mapnik_core"].libdirs == Some([]) && g["mapnik_agg"].libdirs == Some([])
      && g["mapnik_core"].frameworkdirs == Some([]) && g["mapnik_agg"].frameworkdirs == Some([])
      && g["_mapnik"].requirements == ["mapnik_core", "mapnik_agg"]
      && g["mapnik_agg"].requirements == ["mapnik_core"]
      && g["mapnik_core"].requirements == []
      && (forall c, d :: c in g && d in g[c].requirements ==> d in g)
      && Acyclic(g)
  {
    var g := ComponentGraph(LibName(s));
    RankedIsAcyclic(g, map["mapnik_core" := 0, "mapnik_agg" := 1, "_mapnik" := 2]);
  }

  // ---------------------------------------------------------------------------
  // The recipe instance and its callbacks
  // ---------------------------------------------------------------------------

  class MapnikConan {
    const settings: Settings
    var options: map<string, bool>
    /** The references passed to `requires`, in call order. */
    var requiredRefs: seq<string>
    /** The consumer components published by `PackageInfo`. */
    var components: map<string, Component>

    ghost predicate Valid()
      reads this
    {
      OptionsShape(options)
    }

    constructor (settings: Settings, options: map<string, bool>)
      requires options.Keys == OptionDomains.Keys
      ensures Valid()
      ensures this.settings == settings && this.options == options
      ensures requiredRefs == [] && components == map[]
    {
      this.settings := settings;
      this.options := options;
      requiredRefs := [];
      components := map[];
    }

    /** `del self.options.fPIC`. */
    method RemoveFPic() returns (outcome: Outcome)
      requires Valid()
      modifies this`options
      ensures Valid()
      ensures options == old(options) - {"fPIC"}
      ensures outcome == if "fPIC" in old(options) then Done else RemovedUndeclared("fPIC")
    {
      if "fPIC" in options {
        options := options - {"fPIC"};
        outcome := Done;
      } else {
        outcome := RemovedUndeclared("fPIC");
      }
    }

    /** Drops `fPIC` when building for Windows. */
    method ConfigOptions() returns (outcome: Outcome)
      requires Valid()
      modifies this`options
      ensures Valid()
      ensures options == if settings.os == "Windows" then old(options) - {"fPIC"} else old(options)
      ensures outcome == if settings.os == "Windows" && "fPIC" !in old(options)
                         then RemovedUndeclared("fPIC") else Done
    {
      outcome := Done;
      if settings.os == "Windows" {
        outcome := RemoveFPic();
      }
    }

    /** Drops `fPIC` when building a shared library. */
    method Configure() returns (outcome: Outcome)
      requires Valid()
      modifies this`options
      ensures Valid()
      ensures options == if old(options)["shared"] then old(options) - {"fPIC"} else old(options)
      ensures outcome == if old(options)["shared"] && "fPIC" !in old(options)
                         then RemovedUndeclared("fPIC") else Done
    {
      outcome := Done;
      if options["shared"] {
        outcome := RemoveFPic();
      }
    }

    /** `self.requires(ref)`. */
    method Require(ref: string)
      modifies this`requiredRefs
      ensures requiredRefs == old(requiredRefs) + [ref]
    {
      requiredRefs := requiredRefs + [ref];
    }

    /** `if <option>: self.requires(ref)`. */
    method RequireWhen(enabled: bool, ref: string)
      modifies this`requiredRefs
      ensures requiredRefs == old(requiredRefs) + if enabled then [ref] else []
    {
      if enabled {
        Require(ref);
      }
    }

    /** Declares the fixed references, then each optional one whose option is on. */
    method Requirements()
      requires Valid()
      modifies this`requiredRefs
      ensures requiredRefs == old(requiredRefs) + DependencyList(options)
    {
      ShapeCoversTables(options);
      RequireFixed();
      RequireOptional();
    }

    /** The eight unconditional `requires` calls. */
    method RequireFixed()
      modifies this`requiredRefs
      ensures requiredRefs == old(requiredRefs) + FixedRequires
    {
      FixedRequiresUnrolled(requiredRefs);
      Require("boost/1.78.0");
      Require("freetype/2.11.1");
      Require("harfbuzz/4.2.1");
      Require("icu/71.1");
      Require("mapbox-geometry/2.0.3");
      Require("mapbox-variant/1.2.0");
      Require("polylabel/1.1.0");
      Require("protozero/1.7.1");
    }

    /** The seven `requires` calls guarded by an option. */
    method RequireOptional()
      requires Valid()
      modifies this`requiredRefs
      ensures Gates(OptionalRequires, options)
      ensures requiredRefs == old(requiredRefs) + Gated(OptionalRequires, options)
    {
      ShapeCoversTables(options);
      OptionalRequiresUnrolled(options, requiredRefs);
      RequireWhen(options["with_jpeg"], "libjpeg/9d");
      RequireWhen(options["with_png"], "libpng/1.6.37");
      RequireWhen(options["with_tiff"], "libtiff/4.3.0");
      RequireWhen(options["with_webp"], "libwebp/1.2.2");
      RequireWhen(options["with_libxml2"], "libxml2/2.9.13");
      RequireWhen(options["with_cairo"], "cairo/1.17.4");
      RequireWhen(options["with_proj"], "proj/9.0.0");
    }

    /** Publishes the library name and the component graph into a fresh `cpp_info`. */
    method PackageInfo()
      requires components == map[]
      modifies this`components
      ensures components == ComponentGraph(LibName(settings))
    {
      var prefix := if settings.isMsvc then "lib" else "";
      var suffix := if settings.buildType == "Debug" then "d" else "";

      components := components["_mapnik" := ComponentAt(components, "_mapnik").(libs := [prefix + "mapnik" + suffix])];
      components := components["_mapnik" := ComponentAt(components, "_mapnik").(requirements := ["mapnik_core", "mapnik_agg"])];

      components := components["mapnik_core" := ComponentAt(components, "mapnik_core").(libdirs := Some([]))];
      components := components["mapnik_core" := ComponentAt(components, "mapnik_core").(frameworkdirs := Some([]))];

      components := components["mapnik_agg" := ComponentAt(components, "mapnik_agg").(libdirs := Some([]))];
      components := components["mapnik_agg" := ComponentAt(components, "mapnik_agg").(frameworkdirs := Some([]))];
      components := components["mapnik_agg" := ComponentAt(components, "mapnik_agg").(requirements := ["mapnik_core"])];
    }
  }

  /** `cpp_info.components[name]`: the component, created on first access. */
  function ComponentAt(components: map<string, Component>, name: string): Component
  {
    if name in components then components[name] else NewComponent
  }

  /** The package manager runs `config_options` and then `configure` on a fresh
      instance. Afterwards `fPIC` remains exactly when the target is not Windows and
      the build is not shared, every other option keeps its value, and the second
      removal meets an already-removed `fPIC` exactly on a shared Windows build. */
  method OptionCallbacks(settings: Settings, options: map<string, bool>)
    returns (recipe: MapnikConan, first: Outcome, second: Outcome)
    requires options.Keys == OptionDomains.Keys
    ensures ("fPIC" in recipe.options) <==> settings.os != "Windows" && !options["shared"]
    ensures recipe.options == options - {"fPIC"} || recipe.options == options
    ensures first == Done
    ensures second == if settings.os == "Windows" && options["shared"]
                      then RemovedUndeclared("fPIC") else Done
  {
    recipe := new MapnikConan(settings, options);
    first := recipe.ConfigOptions();
    second := recipe.Configure();
  }
}
