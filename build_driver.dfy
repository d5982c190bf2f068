/**
 * The CI driver: it works out which branch a GitHub Actions run is building, takes
 * the package version from the command line or from that branch, and forms the
 * package reference `name/version` and, when the recipe declares a `shared` option,
 * the option name `name:shared` handed to the multi-build packager.
 *
 * The environment is a map from variable name to value and the command line a
 * sequence of words; asking the package manager for the recipe's attributes is
 * replaced by passing those attributes in.
 */
module BuildDriver {
  import opened Optional
  import opened Strings
  import Recipe

  // ---------------------------------------------------------------------------
  // Environment
  // ---------------------------------------------------------------------------

  /** `os.getenv(key)`: the value, or None when the variable is unset. */
  function Lookup(env: map<string, string>, key: string): Option<string>
  {
    if key in env then Some(env[key]) else None
  }

  /** `os.getenv(key, default)`. */
  function GetEnv(env: map<string, string>, key: string, default: string): string
  {
    match Lookup(env, key)
    case Some(v) => v
    case None => default
  }

  const BranchRefPrefix: string := "refs/heads/"

  /** `get_repo_branch_from_githubaction`: the base branch of a pull request, else the
      pushed ref with `refs/heads/` dropped, else the ref as it is. */
  function RepoBranch(env: map<string, string>): string
  {
    var branch := GetEnv(env, "GITHUB_REF", "");
    if Lookup(env, "GITHUB_EVENT_NAME") == Some("pull_request") then
      GetEnv(env, "GITHUB_BASE_REF", "")
    else if HasPrefix(branch, BranchRefPrefix) then
      branch[|BranchRefPrefix|..]
    else
      branch
  }

  /** On a pull request the branch is the base branch (empty when unset), whatever the
      pushed ref says. */
  lemma PullRequestUsesBaseRef(env: map<string, string>, ref: string)
    requires Lookup(env, "GITHUB_EVENT_NAME") == Some("pull_request")
    ensures RepoBranch(env) == GetEnv(env, "GITHUB_BASE_REF", "")
    ensures RepoBranch(env["GITHUB_REF" := ref]) == RepoBranch(env)
  {
    var env' := env["GITHUB_REF" := ref];
    assert Lookup(env', "GITHUB_EVENT_NAME") == Lookup(env, "GITHUB_EVENT_NAME");
    assert GetEnv(env', "GITHUB_BASE_REF", "") == GetEnv(env, "GITHUB_BASE_REF", "");
  }

  /** Outside a pull request a `refs/heads/` ref loses exactly that prefix, and any
      other ref (empty when unset) is kept whole. */
  lemma PushUsesRef(env: map<string, string>)
    requires Lookup(env, "GITHUB_EVENT_NAME") != Some("pull_request")
    ensures var ref := GetEnv(env, "GITHUB_REF", "");
            if HasPrefix(ref, BranchRefPrefix) then BranchRefPrefix + RepoBranch(env) == ref
            else RepoBranch(env) == ref
  {
    var ref := GetEnv(env, "GITHUB_REF", "");
    if HasPrefix(ref, BranchRefPrefix) {
      assert ref == ref[..|BranchRefPrefix|] + ref[|BranchRefPrefix|..];
    }
  }

  /** A branch pushed as `refs/heads/<branch>` outside a pull request comes back as
      `<branch>`. */
  lemma BranchRoundTrip(env: map<string, string>, branch: string)
    requires "GITHUB_EVENT_NAME" !in env || env["GITHUB_EVENT_NAME"] != "pull_request"
    ensures RepoBranch(env["GITHUB_REF" := BranchRefPrefix + branch]) == branch
  {
    var env' := env["GITHUB_REF" := BranchRefPrefix + branch];
    assert Lookup(env', "GITHUB_EVENT_NAME") != Some("pull_request");
    assert (BranchRefPrefix + branch)[..|BranchRefPrefix|] == BranchRefPrefix;
    assert (BranchRefPrefix + branch)[|BranchRefPrefix|..] == branch;
  }

  // ---------------------------------------------------------------------------
  // Splitting on `/`
  // ---------------------------------------------------------------------------

  /** Joins segments with `/` between them: `"/".join(segs)`. */
  function Join(segs: seq<string>): string
    requires |segs| >= 1
  {
    if |segs| == 1 then segs[0] else segs[0] + "/" + Join(segs[1..])
  }

  /** `s.rsplit("/")` without a split limit (the same as `s.split("/")`): the pieces
      between slashes, at least one, none containing a slash, and joined back with
      `/` they give `s` again. */
  function Split(s: string): (r: seq<string>)
    ensures |r| >= 1
    ensures forall i :: 0 <= i < |r| ==> '/' !in r[i]
    ensures Join(r) == s
  {
    if s == [] then [""]
    else
      var rest := Split(s[1..]);
      if s[0] == '/' then
        assert s == "/" + s[1..];
        [""] + rest
      else
        var r := [[s[0]] + rest[0]] + rest[1..];
        assert r[1..] == rest[1..];
        assert s == [s[0]] + s[1..];
        r
  }

  /** Splitting is the inverse of joining segments that hold no slash. */
  lemma {:induction false} SplitJoin(segs: seq<string>)
    requires |segs| >= 1
    requires forall i :: 0 <= i < |segs| ==> '/' !in segs[i]
    ensures Split(Join(segs)) == segs
    decreases |Join(segs)|, |segs[0]|
  {
    var s := Join(segs);
    if segs[0] == [] {
      if |segs| == 1 {
        assert s == [];
      } else {
        var tail := segs[1..];
        forall i | 0 <= i < |tail| ensures '/' !in tail[i] {
          assert tail[i] == segs[i + 1];
        }
        assert s == "/" + Join(tail);
        assert s[1..] == Join(tail);
        SplitJoin(tail);
        assert [""] + tail == segs;
      }
    } else {
      var c := segs[0][0];
      var shorter := [segs[0][1..]] + segs[1..];
      assert shorter[1..] == segs[1..];
      forall i | 0 <= i < |shorter| ensures '/' !in shorter[i] {
        if i == 0 {
          assert forall x :: x in segs[0][1..] ==> x in segs[0];
        } else {
          assert shorter[i] == segs[i];
        }
      }
      assert c in segs[0];
      assert segs[0] == [c] + segs[0][1..];
      if |segs| == 1 {
        assert s == [c] + Join(shorter);
      } else {
        assert s == [c] + (segs[0][1..] + "/" + Join(segs[1..]));
        assert s == [c] + Join(shorter);
      }
      assert s[0] == c && s[1..] == Join(shorter);
      SplitJoin(shorter);
      assert [[c] + shorter[0]] + shorter[1..] == segs;
    }
  }

  /** `s.rsplit("/")[-1]`: the text after the last slash. */
  function LastSegment(s: string): string
  {
    var segs := Split(s);
    segs[|segs| - 1]
  }

  /** The last segment of `a + "/" + b` is `b` whenever `b` holds no slash. */
  lemma {:induction false} LastSegmentAfterSlash(a: string, b: string)
    requires '/' !in b
    ensures LastSegment(a + "/" + b) == b
  {
    var segs := Split(a) + [b];
    forall i | 0 <= i < |segs| ensures '/' !in segs[i] {
      if i < |Split(a)| {
        assert segs[i] == Split(a)[i];
      }
    }
    JoinSnoc(Split(a), b);
    SplitJoin(segs);
  }

  /** A string without a slash is its own last segment. */
  lemma LastSegmentWhole(s: string)
    requires '/' !in s
    ensures LastSegment(s) == s
  {
    SplitJoin([s]);
  }

  /** Appending one segment to a join puts a slash before it. */
  lemma {:induction false} JoinSnoc(segs: seq<string>, b: string)
    requires |segs| >= 1
    ensures Join(segs + [b]) == Join(segs) + "/" + b
    decreases |segs|
  {
    if |segs| == 1 {
      assert (segs + [b])[1..] == [b];
    } else {
      assert (segs + [b])[1..] == segs[1..] + [b];
      JoinSnoc(segs[1..], b);
    }
  }

  /** The last segment is a suffix of the string with no slash in it and, unless it
      is the whole string, a slash right before it. */
  lemma LastSegmentIsTail(s: string)
    ensures var r := LastSegment(s);
            '/' !in r && |r| <= |s| && s[|s| - |r|..] == r &&
            (|r| < |s| ==> s[|s| - |r| - 1] == '/')
  {
    var segs := Split(s);
    var n := |segs|;
    if n > 1 {
      JoinSnoc(segs[..n - 1], segs[n - 1]);
      assert segs[..n - 1] + [segs[n - 1]] == segs;
    }
  }

  // ---------------------------------------------------------------------------
  // Version, reference and shared option name
  // ---------------------------------------------------------------------------

  /** The version: the first command-line argument when one is given, otherwise the
      last `/`-segment of the branch. */
  function Version(argv: seq<string>, env: map<string, string>): string
  {
    if |argv| > 1 then argv[1] else LastSegment(RepoBranch(env))
  }

  /** A command-line version wins over the environment; without one the version is the
      branch's last segment and holds no slash. */
  lemma VersionSources(argv: seq<string>, env: map<string, string>)
    ensures |argv| > 1 ==> Version(argv, env) == argv[1]
    ensures |argv| <= 1 ==> '/' !in Version(argv, env)
    ensures |argv| <= 1 && '/' !in RepoBranch(env) ==> Version(argv, env) == RepoBranch(env)
  {
    LastSegmentIsTail(RepoBranch(env));
    if '/' !in RepoBranch(env) {
      LastSegmentWhole(RepoBranch(env));
    }
  }

  /** Python's rendering of the recipe name inside an f-string: a missing name reads
      "None". */
  function Display(name: Option<string>): string
  {
    match name
    case Some(n) => n
    case None => "None"
  }

  /** `f"{recipe_name}/{recipe_version}"`. */
  function Reference(name: Option<string>, version: string): string
  {
    Display(name) + "/" + version
  }

  /** A reference built from a name and a version without slashes splits back into
      them. */
  lemma ReferenceRoundTrip(name: string, version: string)
    requires '/' !in name && '/' !in version
    ensures Split(Reference(Some(name), version)) == [name, version]
  {
    assert Join([name, version]) == name + "/" + Join([version]);
    SplitJoin([name, version]);
  }

  /** `has_shared_option`: `options and "shared" in options`, read for its truth value:
      the recipe declares options, at least one, and one of them is `shared`. */
  predicate HasSharedOption<V>(options: Option<map<string, V>>)
  {
    options.Some? && |options.value| > 0 && "shared" in options.value
  }

  /** `f"{recipe_name}:shared"` when the recipe has a `shared` option, else None. */
  function SharedOptionName<V>(name: Option<string>, options: Option<map<string, V>>): Option<string>
  {
    if HasSharedOption(options) then Some(Display(name) + ":shared") else None
  }

  /** The shared option name is given exactly when the recipe declares `shared` (the
      emptiness test adds nothing to the membership test), and then it is the name
      followed by `:shared`. */
  lemma SharedOptionNameIffDeclared<V>(name: Option<string>, options: Option<map<string, V>>)
    ensures SharedOptionName(name, options).Some? <==> options.Some? && "shared" in options.value
    ensures SharedOptionName(name, options).Some? ==>
            SharedOptionName(name, options).value == Display(name) + ":shared"
  {
    if options.Some? && "shared" in options.value {
      assert "shared" in options.value.Keys;
      assert |options.value.Keys| > 0;
    }
  }

  /** What the driver hands to the packager. */
  datatype Plan = Plan(reference: string, sharedOptionName: Option<string>)

  /** The `__main__` block up to the packager: given the recipe's name and options as
      the package manager reports them, the command line and the environment. */
  function DriverPlan<V>(name: Option<string>, options: Option<map<string, V>>,
                         argv: seq<string>, env: map<string, string>): Plan
  {
    Plan(Reference(name, Version(argv, env)), SharedOptionName(name, options))
  }

  /** For this recipe, a push of `refs/heads/release/1.2.3` with no version argument
      builds `mapnik/1.2.3` and offers the option `mapnik:shared` (the recipe's name is
      `mapnik`). */
  lemma MapnikReleasePlan(env: map<string, string>)
    requires "GITHUB_EVENT_NAME" !in env
    ensures DriverPlan(Some(Recipe.Name), Some(Recipe.OptionDomains), ["build.py"],
                       env["GITHUB_REF" := "refs/heads/release/1.2.3"])
            == Plan(Recipe.Name + "/" + "1.2.3", Some(Recipe.Name + ":shared"))
  {
    ReleaseVersion(env);
    MapnikSharedOption();
  }

  lemma ReleaseVersion(env: map<string, string>)
    requires "GITHUB_EVENT_NAME" !in env
    ensures Version(["build.py"], env["GITHUB_REF" := "refs/heads/release/1.2.3"]) == "1.2.3"
  {
    var env' := env["GITHUB_REF" := "refs/heads/release/1.2.3"];
    assert BranchRefPrefix + "release/1.2.3" == "refs/heads/release/1.2.3";
    BranchRoundTrip(env, "release/1.2.3");
    assert RepoBranch(env') == "release/1.2.3";
    assert "release" + "/" + "1.2.3" == "release/1.2.3";
    LastSegmentAfterSlash("release", "1.2.3");
  }

  /** The recipe declares `shared`, so the driver offers `mapnik:shared`. */
  lemma MapnikSharedOption()
    ensures SharedOptionName(Some(Recipe.Name), Some(Recipe.OptionDomains)) == Some(Recipe.Name + ":shared")
  {
    assert "shared" in Recipe.OptionDomains;
    SharedOptionNameIffDeclared(Some(Recipe.Name), Some(Recipe.OptionDomains));
  }
}
