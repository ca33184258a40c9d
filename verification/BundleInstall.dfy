/** What any archive installs, and what is refused: the parts of packing and installing that no skill of good layout
    meets. */
module BundleInstall {
  import opened Common
  import opened Text
  import opened Trees
  import opened SkillBundle
  import opened BundlePack
  import opened BundleYaml

  /** Nothing installs unless every entry name is safe, a bundle is found, and it validates. */
  lemma InstalledIsValid(f: Formats, zip: Archive)
    requires Install(f, zip).Ok?
    ensures forall e | e in zip :: SafeName(e.name)
    ensures FoundBundle(f, zip).Some? && Validate(f, FoundBundle(f, zip).value).issues == {}
  {
    hide Validate, SafeName, FindPluginRoot;
  }

  /** A type that is no agent asset any more is never in order. */
  lemma LegacyIsInvalid(f: Formats, t: Tree)
    requires Validate(f, t).runtime.Some? && Validate(f, t).runtime.value.Legacy?
    ensures LegacyRuntime in Validate(f, t).issues
  {
  }

  /** Without a declared type, a skill layout or anything wrong with one, plugin.yaml and README.md are asked for. */
  lemma UntypedNeedsBoth(f: Formats, t: Tree)
    requires Validate(f, t).runtime.None? && LayoutIssues(f, t) == {}
    ensures MissingPluginYaml in Validate(f, t).issues <==> !Exists(t, ["plugin.yaml"])
    ensures MissingReadme in Validate(f, t).issues <==> !Exists(t, ["README.md"])
  {
    hide FindWorkspace, LayoutIssues, InferRuntime, Exists;
  }

  /** An agent asset without a plugin.yaml lacks one, and what its own checks find is reported. */
  lemma AssetIssues(f: Formats, t: Tree)
    requires Validate(f, t).runtime.Some? && Validate(f, t).runtime.value.AgentAsset?
    ensures f.agentIssues(t, LoadYaml(f, t), Validate(f, t).runtime.value) <= Validate(f, t).issues
  {
    hide FindWorkspace, LayoutIssues, InferRuntime;
  }

  lemma ValidSkillBundle(f: Formats, b: Tree)
    requires Validate(f, b).issues == {} && IsSkillLike(f, b)
    ensures FindWorkspace(f, b).Some?
    ensures var ws := FindWorkspace(f, b).value;
            && ws.dir + SKILL_MD in b && SlugOf(f, b[ws.dir + SKILL_MD]) == Some(ws.slug)
            && Strip(ws.slug) == ws.slug && ws.slug != ""
            && (PLUGIN_YAML in b ==>
                  && f.yaml(b[PLUGIN_YAML]).Some? && f.yaml(b[PLUGIN_YAML]).value.name == Some(ws.slug)
                  && f.yaml(b[PLUGIN_YAML]).value.runtime == Declared(Validate(f, b).runtime.value))
  {
    hide FrontmatterIssues, TeamIssues, ValidSlug, Strip, MarketplaceVersion, PluginName;
    var v, data := Validate(f, b), LoadYaml(f, b);
    assert LayoutIssues(f, b) <= v.issues;
    assert FindWorkspace(f, b).None? ==> NoWorkspace in v.issues;
    WorkspaceFacts(f, b);
    var ws := FindWorkspace(f, b).value;
    StrippedSlug(f, b[ws.dir + SKILL_MD]);
    assert SkillIssues(f, b, ws, data, v.runtime.value) <= v.issues;
    if PLUGIN_YAML in b {
      assert Exists(b, PLUGIN_YAML);
      assert data.None? ==> BadPluginYaml in v.issues;
      assert YamlIssues(data.value) <= v.issues;
      assert YamlRuntime !in YamlIssues(data.value) && YamlName !in YamlIssues(data.value);
      assert SlugNotYamlName !in SkillIssues(f, b, ws, data, v.runtime.value);
    }
  }

  lemma StrippedSlug(f: Formats, skillMd: Content)
    requires SlugOf(f, skillMd).Some?
    ensures var slug := SlugOf(f, skillMd).value; Strip(slug) == slug && slug != ""
  {
    StripEnds(f.frontmatter(skillMd).value.name.value);
    StripKeeps(SlugOf(f, skillMd).value);
  }

  /** Whatever the archive, a skill that validates installs under its slug: the directory of that name beside a
      plugin.yaml if that has a SKILL.md, and otherwise the directory its layout shows. */
  lemma SkillInstalls(f: Formats, zip: Archive)
    requires FoundBundle(f, zip).Some?
    requires Validate(f, FoundBundle(f, zip).value).issues == {} && IsSkillLike(f, FoundBundle(f, zip).value)
    ensures var b := FoundBundle(f, zip).value;
            && FindWorkspace(f, b).Some?
            && var ws := FindWorkspace(f, b).value;
               var dir := if ["plugin.yaml"] in b && [ws.slug, "SKILL.md"] in b then [ws.slug] else ws.dir;
            Install(f, zip) == Ok(Installed(ws.slug, Sub(b, dir)))
  {
    hide Validate, FindWorkspace, FindPluginRoot, Extract, Strip, Sub, IsSkillLike;
    var b := FoundBundle(f, zip).value;
    assert IsSkillLike(f, b) ==> Validate(f, b).runtime.Some? && Validate(f, b).runtime.value.SkillLike() by {
      SkillLikeIs(f, b);
    }
    ValidSkillBundle(f, b);
    var ws := FindWorkspace(f, b).value;
    assert [ws.slug] + SKILL_MD == [ws.slug, "SKILL.md"];
  }

  lemma SkillLikeIs(f: Formats, b: Tree)
    ensures IsSkillLike(f, b) <==> Validate(f, b).runtime.Some? && Validate(f, b).runtime.value in {Skill, SwarmSkill}
  {
  }

  /** With a plugin.yaml, a skill is resolved by the name declared there, stripped; a layout that shows another is
      refused. */
  lemma DeclaredNameResolves(f: Formats, b: Tree, y: PluginYaml)
    requires ["plugin.yaml"] in b && f.yaml(b[["plugin.yaml"]]) == Some(y)
    requires y.runtime.Declared? && y.runtime.runtime in {Skill, SwarmSkill}
    requires y.name.Some? && Strip(y.name.value) != ""
    ensures var name, ws, source := Strip(y.name.value), FindWorkspace(f, b), ResolveForInstall(f, b);
            if [name, "SKILL.md"] in b then source == Ok(Source(y.runtime.runtime, name, Some([name])))
            else if ws.Some? && ws.value.slug == name then
              source == Ok(Source(y.runtime.runtime, name, Some(ws.value.dir)))
            else source.Err?
  {
    hide FindWorkspace, Strip;
  }

  /** Packing a skill takes the directory of its layout if that shows the name asked for, else the child of that name;
      it misses one exactly if there is neither. */
  lemma PackedDirectory(f: Formats, t: Tree, name: string, prefix: string, walk: Path -> seq<Path>)
    requires Walker(t, walk)
    ensures var ws, zip := FindWorkspace(f, t), PackSkill(f, t, name, prefix, walk);
            zip == Err(NoSkillDirectory) <==> !(ws.Some? && ws.value.slug == name) && [name, "SKILL.md"] !in t
  {
    hide FindWorkspace, SlugOf, TreeEntries;
    if FindWorkspace(f, t).Some? {
      WorkspaceFacts(f, t);
    }
    assert [name] + SKILL_MD == [name, "SKILL.md"];
  }

  /** Nothing is packed that does not validate, and the refusal says why. */
  lemma PackedIsValid(f: Formats, t: Tree, walk: Path -> seq<Path>)
    requires Walker(t, walk)
    ensures Validate(f, t).issues != {} ==> Pack(f, t, walk) == Err(Invalid(Validate(f, t).issues))
  {
    hide Validate, PackSkill;
  }

  // ---- where the bundle is in an archive -----------------------------------------------------------------

  /** A directory at the top, and not a hidden one. */
  ghost predicate TopDir(t: Tree, d: string) {
    (d != "" ==> d[0] != '.') && exists p :: p in t && |p| > 1 && p[0] == d
  }

  /** `p` is a file or a directory called plugin.yaml. */
  ghost predicate YamlAt(t: Tree, p: Path) {
    p != [] && p[|p| - 1] == "plugin.yaml" && exists q :: q in t && p <= q
  }

  lemma TopDirsAre(t: Tree, d: string)
    ensures d in TopDirs(t) <==> TopDir(t, d)
  {
  }

  lemma YamlPathsAre(t: Tree, p: Path)
    ensures p in YamlPaths(t) <==> YamlAt(t, p)
  {
    if q, k :| q in t && 0 < k <= |q| && q[k - 1] == "plugin.yaml" && q[..k] == p {
      assert p <= q && p[|p| - 1] == q[k - 1];
    }
    if p != [] && p[|p| - 1] == "plugin.yaml" {
      if q :| q in t && p <= q {
        assert q[..|p|] == p && q[|p| - 1] == "plugin.yaml";
      }
    }
  }

  ghost predicate OnlyTop(t: Tree, d: string) {
    TopDir(t, d) && forall e | TopDir(t, e) :: e == d
  }

  ghost predicate OnlyYaml(t: Tree, p: Path) {
    YamlAt(t, p) && forall q | YamlAt(t, q) :: q == p
  }

  lemma OneOf<T>(s: set<T>, x: T)
    requires x in s
    ensures |s| == 1 <==> forall y | y in s :: y == x
  {
    if |s| == 1 {
      assert |s - {x}| == 0;
    }
    if forall y | y in s :: y == x {
      assert s == {x};
    }
  }

  lemma OnlyTopIs(t: Tree, d: string)
    ensures Only(TopDirs(t)) == Some(d) <==> OnlyTop(t, d)
  {
    hide TopDirs, TopDir;
    forall e ensures e in TopDirs(t) <==> TopDir(t, e) {
      TopDirsAre(t, e);
    }
    if e :| e in TopDirs(t) {
      OneOf(TopDirs(t), e);
    }
  }

  lemma OnlyYamlIs(t: Tree, p: Path)
    ensures OnlyYaml(t, p) <==> |YamlPaths(t)| == 1 && p in YamlPaths(t)
  {
    hide YamlPaths, YamlAt;
    forall q ensures q in YamlPaths(t) <==> YamlAt(t, q) {
      YamlPathsAre(t, q);
    }
    if p in YamlPaths(t) {
      OneOf(YamlPaths(t), p);
    }
  }

  /** The bundle is the archive's root if that is a skill workspace, and else its only visible top directory if that is
      one. */
  lemma RootIsWorkspace(f: Formats, t: Tree, d: string)
    ensures FindWorkspace(f, t).Some? ==> FindPluginRoot(f, t) == Ok([])
    ensures FindWorkspace(f, t).None? && OnlyTop(t, d) && FindWorkspace(f, Sub(t, [d])).Some? ==>
              FindPluginRoot(f, t) == Ok([d])
  {
    hide FindWorkspace, OnlyTop, Sub, Only, TopDirs, YamlPaths;
    OnlyTopIs(t, d);
  }

  /** Otherwise it is the directory of the only plugin.yaml, and without just one there is none. */
  lemma RootHasYaml(f: Formats, t: Tree, p: Path)
    requires FindWorkspace(f, t).None? && forall d | OnlyTop(t, d) :: FindWorkspace(f, Sub(t, [d])).None?
    ensures OnlyYaml(t, p) ==> FindPluginRoot(f, t) == Ok(p[..|p| - 1])
    ensures (forall q :: !OnlyYaml(t, q)) ==> FindPluginRoot(f, t) == Err(NoPluginRoot)
  {
    hide FindWorkspace, OnlyTop, OnlyYaml, Sub, Only, TopDirs, YamlPaths;
    var top := Only(TopDirs(t));
    if top.Some? {
      OnlyTopIs(t, top.value);
    }
    OnlyYamlIs(t, p);
    if |YamlPaths(t)| == 1 {
      var q :| q in YamlPaths(t);
      OneOf(YamlPaths(t), q);
      OnlyYamlIs(t, q);
    }
  }

  /** What a packed archive is called after: the skill's slug without a plugin.yaml, and else what that declares. */
  lemma NamedAfter(f: Formats, t: Tree)
    ensures var named, rt := PackName(f, t), Validate(f, t).runtime;
            match LoadYaml(f, t)
            case None =>
              if rt.None? || rt.value !in {Skill, SwarmSkill} then named == Err(NoPluginYaml)
              else if FindWorkspace(f, t).None? then named == Err(NoSkillDirectory)
              else named == Ok(Named(FindWorkspace(f, t).value.slug, ""))
            case Some(y) =>
              if y.name.None? || y.version.None? then named == Err(NoVersion)
              else if rt.None? then named == Err(NoRuntime)
              else named == Ok(Named(y.name.value, y.version.value))
  {
    hide Validate, FindWorkspace;
  }
}
