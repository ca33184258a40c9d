/** Wrapped agent assets: what is packed of them, and that installing the archive gives those files back. */
module BundleAsset {
  import opened Common
  import opened Text
  import opened Trees
  import opened SkillBundle
  import opened BundleArchive
  import opened BundleLayout

  /** A directory that validates as an agent asset. */
  ghost predicate ValidAsset(f: Formats, t: Tree) {
    && FileTree(t) && Validate(f, t).issues == {}
    && Validate(f, t).runtime.Some? && Validate(f, t).runtime.value.AgentAsset?
  }

  /** What is shipped of it: the kept files but for the README at its root. */
  function Shipped(t: Tree): Tree {
    KeptFiles(t - {README})
  }

  lemma AssetYaml(f: Formats, t: Tree)
    requires ValidAsset(f, t)
    ensures PLUGIN_YAML in t && f.yaml(t[PLUGIN_YAML]).Some?
    ensures var y := f.yaml(t[PLUGIN_YAML]).value;
            && y.runtime.Declared? && y.runtime.runtime == Validate(f, t).runtime.value && YamlIssues(y) == {}
            && y.name.Some? && PluginName(y.name.value) && y.version.Some? && MarketplaceVersion(y.version.value)
  {
    hide PluginName, MarketplaceVersion, Blank, LayoutIssues, FindWorkspace, SkillIssues;
    var v, data := Validate(f, t), LoadYaml(f, t);
    InferredIsSkillLike(f, t);
    assert data.Some?;
    assert YamlIssues(data.value) <= v.issues;
    assert YamlName !in YamlIssues(data.value) && YamlVersion !in YamlIssues(data.value);
  }

  lemma InferredIsSkillLike(f: Formats, t: Tree)
    ensures InferRuntime(f, t).Some? ==> InferRuntime(f, t).value.runtime.SkillLike()
  {
  }

  // ---- the name of the top directory ---------------------------------------------------------------------

  lemma PluginNameChars(name: string, i: nat)
    requires PluginName(name) && i < |name|
    ensures SlugChar(name[i]) || name[i] == '-' || name[i] == '\n'
  {
  }

  predicate TopChar(c: char) {
    SlugChar(c) || c == '-' || VersionChar(c)
  }

  lemma TopChars(name: string, version: string, i: nat)
    requires PluginName(name) && MarketplaceVersion(version) && i < |name + "-" + version|
    ensures TopChar((name + "-" + version)[i])
  {
    hide PluginName, MarketplaceVersion, HexDigit;
    if i < |name| {
      PluginNameChars(name, i);
    } else if i > |name| {
      VersionChars(version, i - |name| - 1);
    }
  }

  lemma StripChars(s: string, c: char)
    requires c in Strip(s)
    ensures c in s
  {
    hide IsSpace;
    StripLeftCuts(s);
    StripRightCuts(StripLeft(s));
    var left := StripLeft(s);
    var i :| 0 <= i < |Strip(s)| && Strip(s)[i] == c;
    assert left[i] == c;
  }

  /** The name, a hyphen and the version, stripped, is a good directory name. */
  lemma TopIsGood(name: string, version: string)
    requires PluginName(name) && MarketplaceVersion(version)
    ensures var top := Strip(name + "-" + version);
            && CleanName(top) && NoDrive(top) && !Hidden(top) && '-' in top
            && ArcPrefix(name + "-" + version) == top
  {
    hide PluginName, MarketplaceVersion;
    var s := name + "-" + version;
    var top := Strip(s);
    forall c | c in top ensures TopChar(c) {
      StripChars(s, c);
      var i :| 0 <= i < |s| && s[i] == c;
      TopChars(name, version, i);
    }
    assert s[|name|] == '-';
    StripSplits(s, |name|);
    assert !IsSpace('-');
    FirstOfName(name);
    StripKeepsFirst(s);
    assert top[0] == name[0];
    PlainTop(top);
  }

  lemma FirstOfName(name: string)
    requires PluginName(name)
    ensures name != "" && 'a' <= name[0] <= 'z'
  {
  }

  lemma StripKeepsFirst(s: string)
    requires s != "" && !IsSpace(s[0])
    ensures Strip(s) != "" && Strip(s)[0] == s[0]
  {
    StripRightCuts(s);
    assert StripLeft(s) == s;
  }

  lemma PlainTop(top: string)
    requires top != "" && 'a' <= top[0] <= 'z' && forall c | c in top :: TopChar(c)
    ensures CleanName(top) && NoDrive(top) && !Hidden(top)
    ensures forall prefix :: Strip(prefix) == top ==> ArcPrefix(prefix) == top
  {
    assert forall i :: 0 <= i < |top| ==> top[i] in top;
    assert forall c | c in top :: c != '/' && c != '\\' && c != '\0' && c != ':';
    assert ToPosix(top) == top;
    assert StripSlashes(top) == top;
  }

  // ---- the archive ---------------------------------------------------------------------------------------

  /** The listing without one path. */
  function Without(walk: seq<Path>, p: Path): seq<Path> {
    if walk == [] then []
    else Without(walk[..|walk| - 1], p) + if walk[|walk| - 1] == p then [] else [walk[|walk| - 1]]
  }

  lemma {:induction false} InWithout(walk: seq<Path>, p: Path, q: Path)
    ensures q in Without(walk, p) <==> q in walk && q != p
  {
    if walk != [] {
      InWithout(walk[..|walk| - 1], p, q);
      assert walk == walk[..|walk| - 1] + [walk[|walk| - 1]];
    }
  }

  lemma OnlyReadme(p: Path)
    requires CleanPath(p)
    ensures Join(p) == "README.md" <==> p == README
  {
    forall i | 0 <= i < |p| ensures '/' !in p[i] {
      assert CleanName(p[i]);
    }
    SplitJoin(p);
    SplitJoin(README);
    assert Join(README) == "README.md";
  }

  /** Skipping the README is packing the tree without it. */
  lemma {:induction false} SkipIsWithout(t: Tree, walk: seq<Path>, prefix: string)
    requires FileTree(t) && forall i :: 0 <= i < |walk| ==> walk[i] in t && walk[i] != []
    ensures forall i :: 0 <= i < |Without(walk, README)| ==>
              Without(walk, README)[i] in t - {README} && Without(walk, README)[i] != []
    ensures TreeEntries(t, walk, prefix, {"README.md"}) ==
            TreeEntries(t - {README}, Without(walk, README), prefix, {})
    decreases |walk|
  {
    hide Join, Kept, CleanPath;
    if walk != [] {
      var front, p := walk[..|walk| - 1], walk[|walk| - 1];
      SkipIsWithout(t, front, prefix);
      OnlyReadme(p);
      var rest := Without(front, README);
      if p != README {
        assert (rest + [p])[..|rest|] == rest;
      } else {
        assert rest + [] == rest;
      }
    }
  }

  lemma SubOfRoot(t: Tree)
    requires [] !in t
    ensures Sub(t, []) == t
  {
    forall r ensures r in Sub(t, []) <==> r in t
             ensures r in t ==> Sub(t, [])[r] == t[r] {
      InSub(t, [], r);
      assert [] + r == r;
    }
    SameTree(Sub(t, []), t);
  }

  lemma EntriesLand(t: Tree, walk: seq<Path>, top: string)
    requires FileTree(t) && CleanName(top) && NoDrive(top)
    requires forall i :: 0 <= i < |walk| ==> walk[i] in t && walk[i] != []
    requires forall p | p in t :: p in walk
    ensures Extract(TreeEntries(t, walk, top, {})) == Some(Place([top], KeptFiles(t)))
  {
    assert Join([top]) == top && GoodPrefix([top]);
    EntriesSafe(t, walk, [top]);
    var w := Write(map[], TreeEntries(t, walk, top, {}));
    forall q ensures q in w <==> q in Place([top], KeptFiles(t))
             ensures q in w ==> w[q] == Place([top], KeptFiles(t))[q] {
      EntriesWritten(map[], t, walk, [top], q);
      InPlace([top], KeptFiles(t), q);
      KeptPaths(t, if |q| >= 1 then q[1..] else []);
    }
    SameTree(w, Place([top], KeptFiles(t)));
  }

  lemma KeptPaths(t: Tree, p: Path)
    ensures p in KeptFiles(t) <==> p in t && p != [] && Kept(p)
    ensures p in KeptFiles(t) ==> KeptFiles(t)[p] == t[p]
  {
  }

  lemma PackIsDirectoryPack(f: Formats, t: Tree, walk: Path -> seq<Path>)
    requires ValidAsset(f, t) && Walker(t, walk)
    ensures PLUGIN_YAML in t && f.yaml(t[PLUGIN_YAML]).Some?
    ensures var y := f.yaml(t[PLUGIN_YAML]).value;
            && y.name.Some? && y.version.Some? && Lists(walk([]), Sub(t, []))
            && Pack(f, t, walk) == Ok(TreeEntries(Sub(t, []), walk([]), ArcPrefix(y.name.value + "-" + y.version.value),
                                                  {"README.md"}))
  {
    hide Validate, YamlIssues, PluginName, TreeEntries, ArcPrefix, MarketplaceVersion, Lists;
    AssetYaml(f, t);
    WalksRoot(t, walk);
    VersionHasText(f.yaml(t[PLUGIN_YAML]).value.version.value);
  }

  lemma WalksRoot(t: Tree, walk: Path -> seq<Path>)
    requires Walker(t, walk)
    ensures Lists(walk([]), Sub(t, []))
  {
  }

  lemma VersionHasText(version: string)
    requires MarketplaceVersion(version)
    ensures version != ""
  {
  }

  function TopOf(y: PluginYaml): string
    requires y.name.Some? && y.version.Some?
  {
    Strip(y.name.value + "-" + y.version.value)
  }

  /** A valid asset packs, and its archive extracts to what is shipped, below one directory. */
  lemma AssetExtracts(f: Formats, t: Tree, walk: Path -> seq<Path>)
    requires ValidAsset(f, t) && Walker(t, walk)
    ensures Pack(f, t, walk).Ok? && PLUGIN_YAML in t && f.yaml(t[PLUGIN_YAML]).Some?
    ensures var y := f.yaml(t[PLUGIN_YAML]).value;
            && y.name.Some? && y.version.Some?
            && Extract(Pack(f, t, walk).value) == Some(Place([TopOf(y)], Shipped(t)))
  {
    hide Validate, YamlIssues, PluginName, TreeEntries, ArcPrefix, MarketplaceVersion, Pack, Strip, Extract, Sub,
         CleanName;
    AssetYaml(f, t);
    PackIsDirectoryPack(f, t, walk);
    var y := f.yaml(t[PLUGIN_YAML]).value;
    TopIsGood(y.name.value, y.version.value);
    NoRoot(t);
    SubOfRoot(t);
    SkipIsWithout(t, walk([]), TopOf(y));
    WithoutReadme(t);
    forall p | p in t - {README} ensures p in Without(walk([]), README) {
      InWithout(walk([]), README, p);
    }
    EntriesLand(t - {README}, Without(walk([]), README), TopOf(y));
  }

  lemma NoRoot(t: Tree)
    requires FileTree(t)
    ensures [] !in t
  {
    assert !CleanPath([]);
  }

  lemma WithoutReadme(t: Tree)
    requires FileTree(t)
    ensures FileTree(t - {README})
  {
  }

  // ---- installing it -------------------------------------------------------------------------------------

  lemma KeptPluginYaml()
    ensures Kept(PLUGIN_YAML)
  {
    var n := "plugin.yaml";
    assert n[..10] == "plugin.yam" && n[..10][..9] == "plugin.ya" && n[..10][..9][..8] == "plugin.y"
           && n[..10][..9][..8][..7] == "plugin.";
    assert LastDot("plugin.") == 6;
    assert LastDot("plugin.y") == 6;
    assert LastDot("plugin.ya") == 6;
    assert LastDot("plugin.yam") == 6;
    assert LastDot(n) == 6;
    assert Suffix(n) == ".yaml";
    assert PLUGIN_YAML[0] == n;
  }

  lemma ShippedYaml(t: Tree)
    requires PLUGIN_YAML in t
    ensures PLUGIN_YAML in Shipped(t) && Shipped(t)[PLUGIN_YAML] == t[PLUGIN_YAML]
  {
    hide Kept;
    KeptPluginYaml();
    assert PLUGIN_YAML[0] != README[0];
    KeptPaths(t - {README}, PLUGIN_YAML);
  }

  /** The bundle is found below the top directory by its skill layout, or as the directory of its only plugin.yaml. */
  ghost predicate Findable(f: Formats, b: Tree) {
    FindWorkspace(f, b).Some? || YamlPaths(b) == {PLUGIN_YAML}
  }

  lemma PlacedYamlPaths(b: Tree, top: string, p: Path)
    requires top != "plugin.yaml"
    ensures p in YamlPaths(Place([top], b)) <==> |p| > 1 && p[0] == top && p[1..] in YamlPaths(b)
  {
    var x := Place([top], b);
    if q, k :| q in x && 0 < k <= |q| && q[k - 1] == "plugin.yaml" && q[..k] == p {
      InPlace([top], b, q);
      assert q[0] == top;
      assert k > 1;
      assert q[1..][k - 2] == "plugin.yaml" && q[1..][..k - 1] == p[1..];
      assert q[1..][..k - 1] in YamlPaths(b);
    }
    if |p| > 1 && p[0] == top && p[1..] in YamlPaths(b) {
      var q, k :| q in b && 0 < k <= |q| && q[k - 1] == "plugin.yaml" && q[..k] == p[1..];
      InPlace([top], b, [top] + q);
      assert ([top] + q)[1..] == q && ([top] + q)[k] == "plugin.yaml";
      assert ([top] + q)[..k + 1] == [top] + q[..k] == p;
      assert p in YamlPaths(x);
    }
  }

  lemma AssetRoot(f: Formats, b: Tree, top: string)
    requires [] !in b && PLUGIN_YAML in b && SKILL_MD !in b && !Hidden(top) && top != "plugin.yaml"
    ensures var x := Place([top], b);
            FindPluginRoot(f, x) == (if Findable(f, b) then Ok([top]) else Err(NoPluginRoot)) && Sub(x, [top]) == b
  {
    var x := Place([top], b);
    PlacedTops(b, top);
    SubPlace([top], b);
    OnlyOne(top);
    assert |SkillDirs(x)| == 0;
    assert FindWorkspace(f, x) == None;
    if FindWorkspace(f, b).None? {
      assert PLUGIN_YAML in YamlPaths(b) by {
        assert PLUGIN_YAML[0] == "plugin.yaml" && PLUGIN_YAML[..1] == PLUGIN_YAML;
      }
      forall p ensures p in YamlPaths(x) <==> |p| > 1 && p[0] == top && p[1..] in YamlPaths(b) {
        PlacedYamlPaths(b, top, p);
      }
      OneYaml(b, x, top);
    }
  }

  lemma OneYaml(b: Tree, x: Tree, top: string)
    requires PLUGIN_YAML in YamlPaths(b) && [] !in YamlPaths(b)
    requires forall p :: p in YamlPaths(x) <==> |p| > 1 && p[0] == top && p[1..] in YamlPaths(b)
    ensures |YamlPaths(x)| == 1 <==> YamlPaths(b) == {PLUGIN_YAML}
    ensures YamlPaths(b) == {PLUGIN_YAML} ==> YamlPaths(x) == {[top] + PLUGIN_YAML}
    ensures ([top] + PLUGIN_YAML)[..1] == [top]
  {
    hide YamlPaths;
    var one := [top] + PLUGIN_YAML;
    assert one[1..] == PLUGIN_YAML && one in YamlPaths(x);
    if YamlPaths(b) == {PLUGIN_YAML} {
      forall p | p in YamlPaths(x) ensures p == one {
        assert p == [p[0]] + p[1..];
      }
      assert YamlPaths(x) == {one};
    } else {
      var q :| q in YamlPaths(b) && q != PLUGIN_YAML;
      var other := [top] + q;
      assert other[1..] == q && other in YamlPaths(x) && other != one;
      var both := {one, other};
      assert YamlPaths(x) == both + (YamlPaths(x) - both);
      assert |both| == 2;
    }
  }

  lemma AssetNameIsPlain(name: string)
    requires PluginName(name)
    ensures var n := Strip(name); n != "" && n != "." && n != ".." && '/' !in n && '\\' !in n
  {
    hide PluginName;
    FirstOfName(name);
    StripKeepsFirst(name);
    forall c | c in Strip(name) ensures c != '/' && c != '\\' {
      StripChars(name, c);
      var i :| 0 <= i < |name| && name[i] == c;
      PluginNameChars(name, i);
    }
  }

  lemma ResolveAsset(f: Formats, b: Tree, y: PluginYaml)
    requires PLUGIN_YAML in b && f.yaml(b[PLUGIN_YAML]) == Some(y) && y.name.Some? && PluginName(y.name.value)
    requires y.runtime.Declared? && y.runtime.runtime.AgentAsset?
    ensures ResolveForInstall(f, b) == Ok(Source(y.runtime.runtime, Strip(y.name.value), None))
  {
    hide PluginName, FindWorkspace, Strip;
    AssetNameIsPlain(y.name.value);
  }

  /** Pack, then install, an asset without a SKILL.md at its root: what was shipped, under the stripped name of its
      plugin.yaml, if that bundle is found and validates. */
  lemma AssetTrip(f: Formats, t: Tree, walk: Path -> seq<Path>)
    requires ValidAsset(f, t) && Walker(t, walk) && SKILL_MD !in t
    ensures Pack(f, t, walk).Ok? && PLUGIN_YAML in t && f.yaml(t[PLUGIN_YAML]).Some?
    ensures var y, b := f.yaml(t[PLUGIN_YAML]).value, Shipped(t);
            && y.name.Some?
            && Install(f, Pack(f, t, walk).value) ==
               if !Findable(f, b) then Err(NoPluginRoot)
               else if Validate(f, b).issues != {} then Err(Invalid(Validate(f, b).issues))
               else Ok(Installed(Strip(y.name.value), b))
  {
    hide Validate, YamlIssues, PluginName, MarketplaceVersion, Pack, Strip, Extract, Sub, CleanName, FindPluginRoot,
         ResolveForInstall, Findable, KeptFiles;
    AssetExtracts(f, t, walk);
    AssetYaml(f, t);
    ShippedYaml(t);
    NoRoot(t);
    var y, b := f.yaml(t[PLUGIN_YAML]).value, Shipped(t);
    KeptPaths(t - {README}, SKILL_MD);
    KeptPaths(t - {README}, []);
    TopIsGood(y.name.value, y.version.value);
    assert '-' !in "plugin.yaml";
    AssetRoot(f, b, TopOf(y));
    ResolveAsset(f, b, y);
    AssetNameIsPlain(y.name.value);
  }
}
