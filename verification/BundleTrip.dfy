/** Packing, publishing and installing a skill: the trip gives back exactly its kept files. */
module BundleTrip {
  import opened Common
  import opened Text
  import opened Trees
  import opened SkillBundle
  import opened BundleArchive
  import opened BundleLayout
  import opened BundlePack

  // ---- Installing a bundle ----

  /** All that validation and installation ask of the bundle `b`. */
  ghost predicate BundleFacts(f: Formats, b: Tree, name: string, files: Tree, extras: map<string, Content>) {
    && FindWorkspace(f, b) == Some(Workspace([name], name))
    && LayoutIssues(f, b) == {}
    && SKILL_MD in files && f.frontmatter(files[SKILL_MD]).Some?
    && InferRuntime(f, b) == Some(Inferred(RuntimeOfKind(f.frontmatter(files[SKILL_MD]).value), [name]))
    && [name] + SKILL_MD in b && b[[name] + SKILL_MD] == files[SKILL_MD]
    && [name, "SKILL.md"] in b
    && (PLUGIN_YAML in b <==> "plugin.yaml" in extras)
    && (Exists(b, PLUGIN_YAML) <==> "plugin.yaml" in extras)
    && ("plugin.yaml" in extras ==> b[PLUGIN_YAML] == extras["plugin.yaml"])
    && (README in b <==> "README.md" in extras)
    && ("README.md" in extras ==> b[README] == extras["README.md"])
    && Sub(b, [name]) == files
    && ValidSlug(name) && Strip(name) == name && name != ""
  }

  lemma BundleHas(f: Formats, name: string, files: Tree, extras: map<string, Content>)
    requires SkillFiles(f, name, files) && Extras(extras)
    ensures BundleFacts(f, Bundle(name, files, extras), name, files, extras)
  {
    hide FindWorkspace, LayoutIssues, InferRuntime, Bundle, Sub, ValidSlug, Strip, RuntimeOfKind;
    SkillFilesSlug(f, name, files);
    BundleSkillDirs(f, name, files, extras);
    BundleWorkspace(f, name, files, extras);
    BundlePluginYaml(name, files, extras);
    BundleSub(name, files, extras);
    assert [name] + SKILL_MD == [name, "SKILL.md"];
  }

  /** Without a plugin.yaml, validation of the bundle looks at SKILL.md, and at the roles of a swarm skill. */
  lemma PlainBundleIssues(f: Formats, b: Tree, name: string, files: Tree, extras: map<string, Content>)
    requires BundleFacts(f, b, name, files, extras) && "plugin.yaml" !in extras
    ensures var fm := f.frontmatter(files[SKILL_MD]).value;
            var v := Validate(f, b);
            && v.runtime == Some(RuntimeOfKind(fm))
            && v.issues == FrontmatterIssues(fm, name, name)
                           + (if RuntimeOfKind(fm).SwarmSkill? && !RolesOk(fm) then {BadRoles} else {})
  {
  }

  /** A plugin.yaml of this name that declares a skill or a swarm skill. */
  ghost predicate Declares(f: Formats, name: string, yaml: Content) {
    var y := f.yaml(yaml);
    y.Some? && y.value.runtime.Declared? && y.value.runtime.runtime.SkillLike() && y.value.name == Some(name)
  }

  /** With such a plugin.yaml, it looks at SKILL.md, at that file, and at the roles if that file declares a swarm. */
  lemma YamlBundleIssues(f: Formats, b: Tree, name: string, files: Tree, extras: map<string, Content>)
    requires BundleFacts(f, b, name, files, extras) && "plugin.yaml" in extras
    requires Declares(f, name, extras["plugin.yaml"])
    ensures var fm := f.frontmatter(files[SKILL_MD]).value;
            var y := f.yaml(extras["plugin.yaml"]).value;
            var v := Validate(f, b);
            && v.runtime == Some(y.runtime.runtime)
            && v.issues == FrontmatterIssues(fm, name, name) + YamlIssues(y)
                           + (if y.runtime.runtime.SwarmSkill? && !RolesOk(fm) then {BadRoles} else {})
  {
  }

  lemma ResolveBundle(f: Formats, b: Tree, name: string, files: Tree, extras: map<string, Content>)
    requires BundleFacts(f, b, name, files, extras)
    requires "plugin.yaml" in extras ==> Declares(f, name, extras["plugin.yaml"])
    ensures var source := ResolveForInstall(f, b);
            source.Ok? && source.value.name == name && source.value.dir == Some([name])
  {
  }

  /** Installing an archive of the bundle: its files, under its name, if the bundle validates. */
  lemma InstallBundle(f: Formats, zip: Archive, x: Tree, top: string, b: Tree, name: string, files: Tree,
                      extras: map<string, Content>)
    requires BundleFacts(f, b, name, files, extras)
    requires Extract(zip) == Some(x) && FindPluginRoot(f, x) == Ok([top]) && Sub(x, [top]) == b
    requires "plugin.yaml" in extras ==> Declares(f, name, extras["plugin.yaml"])
    ensures var issues := Validate(f, b).issues;
            Install(f, zip) == if issues == {} then Ok(Installed(name, files)) else Err(Invalid(issues))
  {
    ResolveBundle(f, b, name, files, extras);
  }

  /** The kept files of a valid skill, as its archive carries them. */
  ghost function KeptSkill(f: Formats, t: Tree): Tree
    requires FindWorkspace(f, t).Some?
  {
    KeptFiles(Sub(t, FindWorkspace(f, t).value.dir))
  }

  lemma KeptSkillFiles(f: Formats, t: Tree)
    requires ValidSkill(f, t)
    ensures FindWorkspace(f, t).Some? && PackName(f, t).Ok?
    ensures var ws := FindWorkspace(f, t).value;
            var kept := KeptSkill(f, t);
            && SkillFiles(f, ws.slug, kept) && KeptFiles(kept) == kept && ws.slug !in ReadmeOf(t)
            && FrontmatterIssues(f.frontmatter(kept[SKILL_MD]).value, ws.slug, ws.slug) == {}
            && GoodTop(PackPrefix(PackName(f, t).value))
  {
    ValidSkillFacts(f, t);
    var ws := FindWorkspace(f, t).value;
    PackedSkill(f, t, ws, PackName(f, t).value);
    KeptTree(f, ws.slug, Sub(t, ws.dir));
    InSub(t, ws.dir, SKILL_MD);
  }

  /** Installing a bundle that has no plugin.yaml. */
  lemma PlainInstall(f: Formats, zip: Archive, x: Tree, top: string, b: Tree, name: string, files: Tree,
                     extras: map<string, Content>)
    requires BundleFacts(f, b, name, files, extras) && "plugin.yaml" !in extras
    requires Extract(zip) == Some(x) && FindPluginRoot(f, x) == Ok([top]) && Sub(x, [top]) == b
    requires FrontmatterIssues(f.frontmatter(files[SKILL_MD]).value, name, name) == {}
    ensures var fm := f.frontmatter(files[SKILL_MD]).value;
            Install(f, zip) == if RuntimeOfKind(fm).SwarmSkill? && !RolesOk(fm) then Err(Invalid({BadRoles}))
                               else Ok(Installed(name, files))
  {
    InstallBundle(f, zip, x, top, b, name, files, extras);
    PlainBundleIssues(f, b, name, files, extras);
  }

  /** The archive carries the files of skill `name`, below `top`. */
  ghost predicate Carries(f: Formats, zip: Archive, top: string, name: string, files: Tree, extras: map<string,
                          Content>) {
    && SkillFiles(f, name, files) && KeptFiles(files) == files && Extras(extras) && name !in extras && GoodTop(top)
    && Extract(zip) == Some(Place([top], Bundle(name, files, extras)))
    && FrontmatterIssues(f.frontmatter(files[SKILL_MD]).value, name, name) == {}
  }

  /** Whether the kind of SKILL.md asks for roles that are in order, whatever plugin.yaml declared. */
  ghost predicate KindHolds(f: Formats, files: Tree) {
    && SKILL_MD in files && f.frontmatter(files[SKILL_MD]).Some?
    && var fm := f.frontmatter(files[SKILL_MD]).value;
    RuntimeOfKind(fm).SwarmSkill? ==> RolesOk(fm)
  }

  lemma InstallCarried(f: Formats, zip: Archive, top: string, name: string, files: Tree, extras: map<string, Content>)
    requires Carries(f, zip, top, name, files, extras) && "plugin.yaml" !in extras
    ensures Install(f, zip) == if KindHolds(f, files) then Ok(Installed(name, files)) else Err(Invalid({BadRoles}))
  {
    var b := Bundle(name, files, extras);
    BundleHas(f, name, files, extras);
    BundleRoot(f, top, name, files, extras);
    PlainInstall(f, zip, Place([top], b), top, b, name, files, extras);
  }

  lemma PackCarries(f: Formats, t: Tree, walk: Path -> seq<Path>)
    requires ValidSkill(f, t) && Walker(t, walk)
    ensures FindWorkspace(f, t).Some? && PackName(f, t).Ok? && Pack(f, t, walk).Ok?
    ensures Carries(f, Pack(f, t, walk).value, PackPrefix(PackName(f, t).value),
                    FindWorkspace(f, t).value.slug, KeptSkill(f, t), ReadmeOf(t))
  {
    PackExtracts(f, t, walk);
    KeptSkillFiles(f, t);
  }

  /**
   Pack, then install: a valid skill packs; its archive installs exactly when the kind of its SKILL.md holds, and
   then leaves, under the slug, exactly the files of the skill directory that are not ignored.
   */
  lemma PackInstallTrip(f: Formats, t: Tree, walk: Path -> seq<Path>)
    requires ValidSkill(f, t) && Walker(t, walk)
    ensures FindWorkspace(f, t).Some? && Pack(f, t, walk).Ok?
    ensures Install(f, Pack(f, t, walk).value)
            == if KindHolds(f, KeptSkill(f, t)) then Ok(Installed(FindWorkspace(f, t).value.slug, KeptSkill(f, t)))
               else Err(Invalid({BadRoles}))
  {
    hide Pack, Install, Carries, FindWorkspace, PackName, KindHolds, KeptSkill, ValidSkill, Walker;
    PackCarries(f, t, walk);
    InstallCarried(f, Pack(f, t, walk).value, PackPrefix(PackName(f, t).value),
                   FindWorkspace(f, t).value.slug, KeptSkill(f, t), ReadmeOf(t));
  }
}
