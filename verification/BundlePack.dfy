/** The archive that `Pack` writes, and what it extracts to. */
module BundlePack {
  import opened Common
  import opened Text
  import opened Trees
  import opened SkillBundle
  import opened BundleArchive
  import opened BundleLayout

  // ---- The archive that `Pack` writes ----

  /** A directory that validates as a skill or swarm skill. */
  ghost predicate ValidSkill(f: Formats, t: Tree) {
    && FileTree(t)
    && var v := Validate(f, t);
    && v.issues == {} && v.runtime.Some? && v.runtime.value.SkillLike()
  }

  lemma ValidSkillParts(f: Formats, t: Tree)
    requires ValidSkill(f, t)
    ensures FindWorkspace(f, t).Some?
    ensures SkillIssues(f, t, FindWorkspace(f, t).value, LoadYaml(f, t), Validate(f, t).runtime.value) == {}
    ensures LoadYaml(f, t).Some? ==> YamlIssues(LoadYaml(f, t).value) == {}
    ensures Exists(t, PLUGIN_YAML) ==> LoadYaml(f, t).Some?
  {
    var v := Validate(f, t);
    assert LayoutIssues(f, t) <= v.issues;
    assert FindWorkspace(f, t).None? ==> NoWorkspace in v.issues;
    assert FindWorkspace(f, t).Some? ==>
             SkillIssues(f, t, FindWorkspace(f, t).value, LoadYaml(f, t), v.runtime.value) <= v.issues;
    assert LoadYaml(f, t).Some? ==> YamlIssues(LoadYaml(f, t).value) <= v.issues;
    assert LoadYaml(f, t).None? && Exists(t, PLUGIN_YAML) ==> BadPluginYaml in v.issues;
  }

  lemma WorkspaceFacts(f: Formats, t: Tree)
    requires FindWorkspace(f, t).Some?
    ensures var ws := FindWorkspace(f, t).value;
            ws.dir + SKILL_MD in t && SlugOf(f, t[ws.dir + SKILL_MD]) == Some(ws.slug)
  {
    var ws := FindWorkspace(f, t).value;
    if ws.dir == [] {
      assert ws.dir + SKILL_MD == SKILL_MD;
    } else {
      assert ws.dir + SKILL_MD == [ws.dir[0], "SKILL.md"];
    }
  }

  /** What validation has established about it. */
  lemma ValidSkillFacts(f: Formats, t: Tree)
    requires ValidSkill(f, t)
    ensures FindWorkspace(f, t).Some?
    ensures var ws := FindWorkspace(f, t).value;
            && ws.dir + SKILL_MD in t && SlugOf(f, t[ws.dir + SKILL_MD]) == Some(ws.slug)
            && FrontmatterIssues(f.frontmatter(t[ws.dir + SKILL_MD]).value, ws.slug, ws.slug) == {}
    ensures var ws := FindWorkspace(f, t).value;
            var named := PackName(f, t);
            && named.Ok? && named.value.name == ws.slug
            && (named.value.version == "" || MarketplaceVersion(named.value.version))
  {
    ValidSkillParts(f, t);
    WorkspaceFacts(f, t);
    var data := LoadYaml(f, t);
    if data.Some? {
      assert data.value.version.Some? && data.value.runtime.Declared?;
      assert YamlName !in YamlIssues(data.value);
    }
  }

  lemma KeptSkillMd()
    ensures Kept(SKILL_MD)
  {
    assert SKILL_MD[0] == "SKILL.md";
    assert "SKILL.md"[..7] == "SKILL.m" && "SKILL.m"[..6] == "SKILL.";
    assert LastDot("SKILL.") == 5;
    assert LastDot("SKILL.m") == 5;
    assert LastDot("SKILL.md") == 5;
    assert Suffix("SKILL.md") == ".md";
  }

  lemma KeptTree(f: Formats, name: string, files: Tree)
    requires SkillFiles(f, name, files)
    ensures SkillFiles(f, name, KeptFiles(files)) && KeptFiles(KeptFiles(files)) == KeptFiles(files)
    ensures KeptFiles(files)[SKILL_MD] == files[SKILL_MD]
  {
    KeptSkillMd();
  }

  predicate PrefixChar(c: char) {
    SlugChar(c) || c == '-' || VersionChar(c)
  }

  lemma PlainName(p: string)
    requires p != "" && SlugChar(p[0]) && forall i :: 0 <= i < |p| ==> PrefixChar(p[i])
    ensures CleanName(p) && NoDrive(p) && !Hidden(p) && !IsSpace(p[0])
  {
    forall c | c in p ensures c !in {'/', '\\', '\0', ':'} {
      var i :| 0 <= i < |p| && p[i] == c;
    }
    assert |p| >= 2 ==> p[1] in p;
  }

  lemma PrefixChars(n: Named, i: nat)
    requires IsSlug(n.name) && (n.version == "" || MarketplaceVersion(n.version)) && i < |PackPrefix(n)|
    ensures PrefixChar(PackPrefix(n)[i])
  {
    hide MarketplaceVersion, VersionChar;
    if i < |n.name| {
      assert PackPrefix(n)[i] == n.name[i];
    } else if i > |n.name| {
      VersionChars(n.version, i - |n.name| - 1);
    }
  }

  /** A directory name of the archive: a slug, or a slug, a hyphen and a version. */
  lemma PrefixFacts(n: Named)
    requires IsSlug(n.name) && (n.version == "" || MarketplaceVersion(n.version))
    ensures var p := PackPrefix(n); CleanName(p) && NoDrive(p) && !Hidden(p) && !IsSpace(p[0])
  {
    hide MarketplaceVersion, PrefixChar, CleanName, NoDrive, IsSpace, Hidden;
    var p := PackPrefix(n);
    assert p[0] == n.name[0];
    forall i | 0 <= i < |p| ensures PrefixChar(p[i]) {
      PrefixChars(n, i);
    }
    PlainName(p);
  }

  lemma ToPosixClean(p: Path)
    requires CleanPath(p)
    ensures ToPosix(Join(p)) == Join(p)
  {
    JoinClean(p, '\\');
  }

  lemma ArcPrefixClean(top: string, name: string)
    requires CleanName(top) && CleanName(name) && !IsSpace(top[0]) && !IsSpace(name[|name| - 1])
    ensures top + "/" + name == Join([top, name])
    ensures ArcPrefix(ToPosix(top + "/" + name)) == Join([top, name])
  {
    assert [top, name][1..] == [name] && Join([name]) == name;
    var s := Join([top, name]);
    assert s == top + "/" + name;
    ToPosixClean([top, name]);
    assert s[0] == top[0] && s[|s| - 1] == name[|name| - 1];
    StripKeeps(s);
  }

  /** A single file below the top directory. */
  lemma SingleEntry(top: string, e: string)
    requires CleanName(top) && NoDrive(top) && CleanName(e)
    ensures ToPosix(top + "/" + e) == top + "/" + e && SafeName(top + "/" + e) && Target(top + "/" + e) == [top, e]
  {
    assert [top, e][1..] == [e];
    assert Join([top, e]) == top + "/" + e;
    ToPosixClean([top, e]);
    CleanNameExtracts([top, e]);
  }

  lemma SingleNamesClean()
    ensures CleanName("README.md") && CleanName("plugin.yaml")
  {
  }

  lemma ReadmeEntry(top: string)
    requires CleanName(top) && NoDrive(top)
    ensures ToPosix(top + "/" + "README.md") == top + "/" + "README.md"
  {
    SingleNamesClean();
    SingleEntry(top, "README.md");
  }

  function SinglePart(top: string, e: string, extras: map<string, Content>): Archive {
    if e in extras then [Entry(top + "/" + e, extras[e])] else []
  }

  function Singles(top: string, extras: map<string, Content>): Archive {
    SinglePart(top, "plugin.yaml", extras) + SinglePart(top, "README.md", extras)
  }

  lemma PartWritten(t: Tree, top: string, e: string, extras: map<string, Content>)
    requires CleanName(top) && NoDrive(top) && CleanName(e)
    ensures Write(t, SinglePart(top, e, extras)) == if e in extras then t[[top, e] := extras[e]] else t
    ensures forall x | x in SinglePart(top, e, extras) :: SafeName(x.name)
  {
    SingleEntry(top, e);
    if e in extras {
      assert SinglePart(top, e, extras)[..0] == [];
    }
  }

  /** The tree of the single files, as one or two updates of the empty tree. */
  function SinglesTree(top: string, a: string, b: string, extras: map<string, Content>): Tree {
    var t := if a in extras then map[[top, a] := extras[a]] else map[];
    if b in extras then t[[top, b] := extras[b]] else t
  }

  lemma SinglesTreeAt(top: string, a: string, b: string, name: string, extras: map<string, Content>, q: Path)
    requires extras.Keys <= {a, b} && name !in extras
    ensures var w := SinglesTree(top, a, b, extras);
            var x := Place([top], Bundle(name, map[], extras));
            (q in w <==> q in x) && (q in w ==> w[q] == x[q])
  {
    PlacedBundle(top, name, map[], extras, q);
    assert [top, a][1] == a && [top, b][1] == b;
    if |q| == 2 {
      assert q == [q[0], q[1]];
    }
  }

  lemma TwoSingles(top: string, a: string, b: string, name: string, extras: map<string, Content>)
    requires CleanName(top) && NoDrive(top) && CleanName(a) && CleanName(b)
    requires extras.Keys <= {a, b} && name !in extras
    ensures var singles := SinglePart(top, a, extras) + SinglePart(top, b, extras);
            && (forall e | e in singles :: SafeName(e.name))
            && Write(map[], singles) == Place([top], Bundle(name, map[], extras))
  {
    PartWritten(map[], top, a, extras);
    PartWritten(Write(map[], SinglePart(top, a, extras)), top, b, extras);
    WriteAppend(map[], SinglePart(top, a, extras), SinglePart(top, b, extras));
    forall q {
      SinglesTreeAt(top, a, b, name, extras, q);
    }
    SameTree(SinglesTree(top, a, b, extras), Place([top], Bundle(name, map[], extras)));
  }

  function BundleEntries(top: string, name: string, extras: map<string, Content>, t: Tree, walk: seq<Path>): Archive
    requires forall i :: 0 <= i < |walk| ==> walk[i] in t && walk[i] != []
  {
    Singles(top, extras) + TreeEntries(t, walk, Join([top, name]), {})
  }

  lemma BundleEntriesExtract(top: string, name: string, extras: map<string, Content>, t: Tree, walk: seq<Path>)
    requires FileTree(t) && Lists(walk, t) && CleanName(top) && NoDrive(top) && CleanName(name)
    requires Extras(extras) && name !in extras
    ensures Extract(BundleEntries(top, name, extras, t, walk)) == Some(Place([top], Bundle(name, KeptFiles(t), extras)))
  {
    SingleNamesClean();
    TwoSingles(top, "plugin.yaml", "README.md", name, extras);
    BundleExtracts(Singles(top, extras), top, name, extras, t, walk);
  }

  lemma EntriesNotEmpty(f: Formats, t: Tree, walk: seq<Path>, d: Path)
    requires FileTree(t) && Lists(walk, t) && GoodPrefix(d) && SKILL_MD in t
    ensures TreeEntries(t, walk, Join(d), {}) != []
  {
    KeptSkillMd();
    EntriesWritten(map[], t, walk, d, d + SKILL_MD);
    assert (d + SKILL_MD)[|d|..] == SKILL_MD;
  }

  // ---- Packing ----

  function ReadmeOf(t: Tree): map<string, Content> {
    if README in t then map["README.md" := t[README]] else map[]
  }

  ghost predicate GoodTop(top: string) {
    CleanName(top) && NoDrive(top) && !Hidden(top) && !IsSpace(top[0])
  }

  /** The skill directory, its slug and its archive prefix are as the archive needs them. */
  lemma PackedSkill(f: Formats, t: Tree, ws: Workspace, named: Named)
    requires FileTree(t) && FindWorkspace(f, t) == Some(ws) && named.name == ws.slug
    requires named.version == "" || MarketplaceVersion(named.version)
    ensures SkillFiles(f, ws.slug, Sub(t, ws.dir)) && CleanName(ws.slug) && !IsSpace(ws.slug[|ws.slug| - 1])
    ensures ws.slug !in ReadmeOf(t)
    ensures GoodTop(PackPrefix(named))
  {
    hide FindWorkspace, SlugOf, IsSlug, MarketplaceVersion, CleanName, FileTree, Strip, IsSpace, ValidSlug, Sub;
    WorkspaceFacts(f, t);
    SubTree(t, ws.dir);
    InSub(t, ws.dir, SKILL_MD);
    SkillFilesSlug(f, ws.slug, Sub(t, ws.dir));
    PrefixFacts(named);
  }

  lemma PackIsSkillPack(f: Formats, t: Tree, walk: Path -> seq<Path>)
    requires ValidSkill(f, t) && Walker(t, walk)
    ensures PackName(f, t).Ok?
    ensures Pack(f, t, walk) == PackSkill(f, t, PackName(f, t).value.name, PackPrefix(PackName(f, t).value), walk)
  {
    hide FindWorkspace, LayoutIssues, InferRuntime, YamlIssues, PackSkill, FrontmatterIssues, SkillIssues;
    ValidSkillFacts(f, t);
    ValidSkillParts(f, t);
  }

  lemma SkillPackEntries(f: Formats, t: Tree, ws: Workspace, top: string, walk: Path -> seq<Path>)
    requires Walker(t, walk) && FindWorkspace(f, t) == Some(ws) && ws.dir + SKILL_MD in t
    requires Lists(walk(ws.dir), Sub(t, ws.dir))
    requires TreeEntries(Sub(t, ws.dir), walk(ws.dir), Join([top, ws.slug]), {}) != []
    requires ArcPrefix(ToPosix(top + "/" + ws.slug)) == Join([top, ws.slug])
    requires ToPosix(top + "/" + "README.md") == top + "/" + "README.md"
    ensures PackSkill(f, t, ws.slug, top, walk)
            == Ok(BundleEntries(top, ws.slug, ReadmeOf(t), Sub(t, ws.dir), walk(ws.dir)))
  {
    hide TreeEntries, Join, ArcPrefix, ToPosix, Lists, FindWorkspace, Sub, Walker;
    assert "plugin.yaml" !in ReadmeOf(t);
    assert Singles(top, ReadmeOf(t)) == SinglePart(top, "README.md", ReadmeOf(t));
  }

  lemma SkillEntriesNotEmpty(f: Formats, skill: Tree, slug: string, top: string, walk: seq<Path>)
    requires SkillFiles(f, slug, skill) && GoodTop(top) && CleanName(slug) && Lists(walk, skill)
    ensures TreeEntries(skill, walk, Join([top, slug]), {}) != []
  {
    hide TreeEntries, Join, Hidden, FileTree;
    EntriesNotEmpty(f, skill, walk, [top, slug]);
  }

  lemma SkillPackArchive(f: Formats, t: Tree, ws: Workspace, top: string, walk: Path -> seq<Path>)
    requires Walker(t, walk) && FindWorkspace(f, t) == Some(ws) && ws.dir + SKILL_MD in t
    requires Lists(walk(ws.dir), Sub(t, ws.dir)) && SkillFiles(f, ws.slug, Sub(t, ws.dir))
    requires GoodTop(top) && CleanName(ws.slug) && !IsSpace(ws.slug[|ws.slug| - 1])
    ensures PackSkill(f, t, ws.slug, top, walk)
            == Ok(BundleEntries(top, ws.slug, ReadmeOf(t), Sub(t, ws.dir), walk(ws.dir)))
  {
    assert TreeEntries(Sub(t, ws.dir), walk(ws.dir), Join([top, ws.slug]), {}) != [] by {
      SkillEntriesNotEmpty(f, Sub(t, ws.dir), ws.slug, top, walk(ws.dir));
    }
    assert ArcPrefix(ToPosix(top + "/" + ws.slug)) == Join([top, ws.slug]) by {
      ArcPrefixClean(top, ws.slug);
    }
    assert ToPosix(top + "/" + "README.md") == top + "/" + "README.md" by {
      ReadmeEntry(top);
    }
    SkillPackEntries(f, t, ws, top, walk);
  }

  /** A valid skill packs, and its archive extracts to the bundle of its kept files, with the root's README beside. */
  lemma PackExtracts(f: Formats, t: Tree, walk: Path -> seq<Path>)
    requires ValidSkill(f, t) && Walker(t, walk)
    ensures FindWorkspace(f, t).Some? && PackName(f, t).Ok? && Pack(f, t, walk).Ok?
    ensures var ws := FindWorkspace(f, t).value;
            Extract(Pack(f, t, walk).value)
            == Some(Place([PackPrefix(PackName(f, t).value)], Bundle(ws.slug, KeptFiles(Sub(t, ws.dir)), ReadmeOf(t))))
  {
    ValidSkillFacts(f, t);
    PackIsSkillPack(f, t, walk);
    var ws := FindWorkspace(f, t).value;
    assert Lists(walk(ws.dir), Sub(t, ws.dir));
    var top := PackPrefix(PackName(f, t).value);
    PackedSkill(f, t, ws, PackName(f, t).value);
    SkillPackArchive(f, t, ws, top, walk);
    BundleEntriesExtract(top, ws.slug, ReadmeOf(t), Sub(t, ws.dir), walk(ws.dir));
  }
}
