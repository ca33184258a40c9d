/** Layout inference and validation, run again on the bundle a pack or a publish produced. */
module BundleLayout {
  import opened Common
  import opened Text
  import opened Trees
  import opened SkillBundle
  import opened BundleArchive

  lemma OnlyOne(n: string)
    ensures Only({n}) == Some(n)
  {
  }

  lemma SlugFacts(s: string)
    requires s != "" && !IsSpace(s[|s| - 1]) && ValidSlug(s)
    ensures CleanName(s) && NoDrive(s) && !Hidden(s) && s != "README.md" && s != "plugin.yaml" && s != "SKILL.md"
    ensures IsSlug(s) && Strip(s) == s
  {
    assert IsSlug(s);
    StripKeeps(s);
    assert "README.md"[0] == 'R' && "SKILL.md"[0] == 'S' && "plugin.yaml"[6] == '.';
  }

  /** A skill's kept files, with the name its SKILL.md declares. */
  ghost predicate SkillFiles(f: Formats, name: string, files: Tree) {
    FileTree(files) && SKILL_MD in files && SlugOf(f, files[SKILL_MD]) == Some(name)
  }

  ghost predicate Extras(extras: map<string, Content>) {
    extras.Keys <= {"README.md", "plugin.yaml"}
  }

  lemma SkillFilesSlug(f: Formats, name: string, files: Tree)
    requires SkillFiles(f, name, files)
    ensures ValidSlug(name) && CleanName(name) && NoDrive(name) && !Hidden(name)
    ensures name != "README.md" && name != "plugin.yaml" && name != "SKILL.md" && Strip(name) == name
    ensures name != "" && IsSlug(name) && !IsSpace(name[|name| - 1])
    ensures [] !in files
  {
    StripEnds(f.frontmatter(files[SKILL_MD]).value.name.value);
    SlugFacts(name);
    assert !CleanPath([]);
  }

  lemma BundleSkillDirs(f: Formats, name: string, files: Tree, extras: map<string, Content>)
    requires SkillFiles(f, name, files) && Extras(extras)
    ensures SKILL_MD !in Bundle(name, files, extras)
    ensures [name, "SKILL.md"] in Bundle(name, files, extras)
    ensures Bundle(name, files, extras)[[name, "SKILL.md"]] == files[SKILL_MD]
    ensures SkillDirs(Bundle(name, files, extras)) == {name}
  {
    hide Bundle, FileTree, SlugOf, ValidSlug, CleanName, Strip;
    SkillFilesSlug(f, name, files);
    var b := Bundle(name, files, extras);
    InBundle(name, files, extras, SKILL_MD);
    InBundle(name, files, extras, [name, "SKILL.md"]);
    assert [name, "SKILL.md"][1..] == SKILL_MD;
    forall p | p in b && |p| == 2
      ensures p[0] == name
    {
      InBundle(name, files, extras, p);
    }
    assert [name, "SKILL.md"][0] == name;
  }

  /** One child directory with a SKILL.md that names it. */
  lemma NestedWorkspace(f: Formats, t: Tree, name: string)
    requires SKILL_MD !in t && SkillDirs(t) == {name} && [name, "SKILL.md"] in t
    requires SlugOf(f, t[[name, "SKILL.md"]]) == Some(name)
    ensures SkillSubdirectory(t) == Some(name) && FindWorkspace(f, t) == Some(Workspace([name], name))
  {
    OnlyOne(name);
  }

  lemma NestedClean(f: Formats, t: Tree, name: string)
    requires SkillSubdirectory(t) == Some(name) && FindWorkspace(f, t) == Some(Workspace([name], name))
    requires [name, "SKILL.md"] in t && SlugOf(f, t[[name, "SKILL.md"]]) == Some(name) && name != ""
    ensures LayoutIssues(f, t) == {}
    ensures InferRuntime(f, t) == Some(Inferred(RuntimeOfKind(f.frontmatter(t[[name, "SKILL.md"]]).value), [name]))
  {
    assert [name] + SKILL_MD == [name, "SKILL.md"];
  }

  /** The bundle is a workspace whose skill directory is `name`, with nothing to complain about. */
  lemma BundleWorkspace(f: Formats, name: string, files: Tree, extras: map<string, Content>)
    requires SkillFiles(f, name, files) && Extras(extras)
    ensures var b := Bundle(name, files, extras);
            && SkillSubdirectory(b) == Some(name)
            && FindWorkspace(f, b) == Some(Workspace([name], name))
            && LayoutIssues(f, b) == {}
            && InferRuntime(f, b) == Some(Inferred(RuntimeOfKind(f.frontmatter(files[SKILL_MD]).value), [name]))
  {
    SkillFilesSlug(f, name, files);
    BundleSkillDirs(f, name, files, extras);
    var b := Bundle(name, files, extras);
    NestedWorkspace(f, b, name);
    NestedClean(f, b, name);
  }

  lemma PlacedTops(t: Tree, top: string)
    requires [] !in t && SKILL_MD !in t && t != map[] && !Hidden(top)
    ensures var x := Place([top], t); SKILL_MD !in x && SkillDirs(x) == {} && TopDirs(x) == {top}
  {
    var x := Place([top], t);
    forall p
      ensures p in x <==> |p| > 1 && p[0] == top && p[1..] in t
    {
      InPlace([top], t, p);
      assert |p| > 1 && p[0] == top ==> [top] <= p;
    }
    forall p | p in x && |p| == 2
      ensures p[1] != "SKILL.md"
    {
      assert p[1..] == [p[1]];
    }
    var q :| q in t;
    assert ([top] + q)[1..] == q;
    assert [top] + q in x;
  }

  /** A workspace moved below a top directory is found again from the extraction root. */
  lemma PlacedRoot(f: Formats, t: Tree, top: string)
    requires [] !in t && SKILL_MD !in t && t != map[] && !Hidden(top) && FindWorkspace(f, t).Some?
    ensures FindPluginRoot(f, Place([top], t)) == Ok([top]) && Sub(Place([top], t), [top]) == t
  {
    PlacedTops(t, top);
    SubPlace([top], t);
    OnlyOne(top);
  }

  lemma BundleRoot(f: Formats, top: string, name: string, files: Tree, extras: map<string, Content>)
    requires SkillFiles(f, name, files) && Extras(extras) && !Hidden(top)
    ensures var b := Bundle(name, files, extras);
            FindPluginRoot(f, Place([top], b)) == Ok([top]) && Sub(Place([top], b), [top]) == b
  {
    var b := Bundle(name, files, extras);
    SkillFilesSlug(f, name, files);
    BundleSkillDirs(f, name, files, extras);
    BundleWorkspace(f, name, files, extras);
    InBundle(name, files, extras, []);
    PlacedRoot(f, b, top);
  }

  lemma BundlePluginYaml(name: string, files: Tree, extras: map<string, Content>)
    requires name != "plugin.yaml" && name !in extras
    ensures var b := Bundle(name, files, extras);
            && (PLUGIN_YAML in b <==> "plugin.yaml" in extras)
            && (Exists(b, PLUGIN_YAML) <==> "plugin.yaml" in extras)
            && ("plugin.yaml" in extras ==> b[PLUGIN_YAML] == extras["plugin.yaml"])
            && (README in b ==> "README.md" in extras || name == "README.md")
            && ("README.md" in extras ==> README in b && b[README] == extras["README.md"])
  {
    var b := Bundle(name, files, extras);
    InBundle(name, files, extras, PLUGIN_YAML);
    InBundle(name, files, extras, README);
    assert PLUGIN_YAML[0] == "plugin.yaml";
    forall q | q in b
      ensures !(PLUGIN_YAML < q)
    {
      InBundle(name, files, extras, q);
    }
  }
}
