/** Inputs of the bundle theorems: every tree has listings, a skill that makes every trip, and one that packs but does
    not install. */
module BundleWitness {

  import opened Common
  import opened Text
  import opened Trees
  import opened SkillBundle
  import opened BundlePack
  import opened BundleTrip
  import opened BundlePublish

  // ---- every tree has a listing --------------------------------------------------------------------------

  ghost function Listing(t: Tree): seq<Path> {
    if t == map[] then []
    else
      var p :| p in t;
      Listing(t - {p}) + [p]
  }

  lemma {:induction false} ListingLists(t: Tree)
    requires [] !in t
    ensures Lists(Listing(t), t)
    decreases |t|
  {
    if t != map[] {
      var walk := Listing(t);
      var p, front := walk[|walk| - 1], walk[..|walk| - 1];
      ListingLists(t - {p});
      assert walk == front + [p];
      forall q | q in t ensures q in walk {
        assert q == p || q in t - {p};
      }
    }
  }

  lemma SomeWalker(t: Tree) returns (walk: Path -> seq<Path>)
    ensures Walker(t, walk)
  {
    walk := d => Listing(Sub(t, d));
    forall d ensures Lists(walk(d), Sub(t, d)) {
      InSub(t, d, []);
      ListingLists(Sub(t, d));
    }
  }

  // ---- a flat directory with a SKILL.md in order is valid --------------------------------------------------

  ghost predicate FlatSkill(f: Formats, t: Tree, slug: string) {
    && FileTree(t) && SKILL_MD in t && !Exists(t, PLUGIN_YAML) && SkillDirs(t) == {}
    && SlugOf(f, t[SKILL_MD]) == Some(slug)
    && FrontmatterIssues(f.frontmatter(t[SKILL_MD]).value, slug, slug) == {}
    && KindHolds(f, t)
  }

  lemma FlatSkillLayout(f: Formats, t: Tree, slug: string)
    requires FlatSkill(f, t, slug)
    ensures FindWorkspace(f, t) == Some(Workspace([], slug)) && LayoutIssues(f, t) == {}
    ensures InferRuntime(f, t) == Some(Inferred(RuntimeOfKind(f.frontmatter(t[SKILL_MD]).value), []))
  {
    assert [] + SKILL_MD == SKILL_MD;
    assert |SkillDirs(t)| == 0;
  }

  /** Without a plugin.yaml, a SKILL.md whose name, description and roles are in order is all a skill needs. */
  lemma FlatSkillIsValid(f: Formats, t: Tree, slug: string)
    requires FlatSkill(f, t, slug)
    ensures ValidSkill(f, t)
  {
    FlatSkillLayout(f, t, slug);
    assert [] + SKILL_MD == SKILL_MD;
    assert PLUGIN_YAML !in t;
  }

  ghost predicate FlatSkillWithYaml(f: Formats, t: Tree, slug: string) {
    && FileTree(t) && SKILL_MD in t && PLUGIN_YAML in t && SkillDirs(t) == {}
    && SlugOf(f, t[SKILL_MD]) == Some(slug)
    && FrontmatterIssues(f.frontmatter(t[SKILL_MD]).value, slug, slug) == {}
    && Declares(f, slug, t[PLUGIN_YAML])
    && var y := f.yaml(t[PLUGIN_YAML]).value;
    YamlIssues(y) == {} && (y.runtime == Declared(SwarmSkill) ==> RolesOk(f.frontmatter(t[SKILL_MD]).value))
  }

  /** With a plugin.yaml in order it is the declared runtime that asks for roles, whatever the kind of SKILL.md. */
  lemma FlatSkillWithYamlIsValid(f: Formats, t: Tree, slug: string)
    requires FlatSkillWithYaml(f, t, slug)
    ensures ValidSkill(f, t) && FindWorkspace(f, t) == Some(Workspace([], slug))
  {
    hide FileTree, YamlIssues, FrontmatterIssues, RolesOk;
    assert [] + SKILL_MD == SKILL_MD;
    assert |SkillDirs(t)| == 0;
    assert SkillSubdirectory(t) == None;
  }

  // ---- one of them -----------------------------------------------------------------------------------------

  const FRONTMATTER := Frontmatter(Some("a"), Some("b"), None, None, "", NotAList, NoTags)

  lemma FrontmatterInOrder()
    ensures ValidSlug("a") && Strip("a") == "a" && FrontmatterIssues(FRONTMATTER, "a", "a") == {}
  {
    StripKeeps("a");
    StripKeeps("b");
    assert SlugUpTo("a", 1);
  }

  const VERSION := "0000000"

  lemma VersionInOrder()
    ensures MarketplaceVersion(VERSION)
  {
    StripKeeps(VERSION);
  }

  const SYNTHESIZED := SynthesizeYaml(FRONTMATTER, "a", VERSION, Skill)

  /** A reader and a writer that agree on the one plugin.yaml that gets written. */
  function PlainFormats(): Formats {
    Formats(_ => Some(FRONTMATTER), _ => Some(SYNTHESIZED), _ => "", (_, _, _) => {})
  }

  const PLAIN_TREE: Tree := map[SKILL_MD := ""]

  lemma PlainTreeIsSkill()
    ensures FlatSkill(PlainFormats(), PLAIN_TREE, "a")
  {
    FrontmatterInOrder();
    assert CleanName("SKILL.md");
    assert FRONTMATTER.kind == "" && RuntimeOfKind(FRONTMATTER) == Skill;
  }

  lemma PlainTreeKept()
    ensures ValidSkill(PlainFormats(), PLAIN_TREE)
    ensures FindWorkspace(PlainFormats(), PLAIN_TREE) == Some(Workspace([], "a"))
    ensures KindHolds(PlainFormats(), KeptSkill(PlainFormats(), PLAIN_TREE))
  {
    hide FlatSkill, ValidSkill, FindWorkspace, KeptSkill, FrontmatterIssues;
    PlainTreeIsSkill();
    FlatSkillLayout(PlainFormats(), PLAIN_TREE, "a");
    FlatSkillIsValid(PlainFormats(), PLAIN_TREE, "a");
    KeptSkillFiles(PlainFormats(), PLAIN_TREE);
  }

  lemma PlainYamlSurvives()
    requires ValidSkill(PlainFormats(), PLAIN_TREE)
    requires FindWorkspace(PlainFormats(), PLAIN_TREE) == Some(Workspace([], "a"))
    ensures YamlSurvives(PlainFormats(), PackedYaml(PlainFormats(), PLAIN_TREE, VERSION))
  {
    hide ValidSkill, FindWorkspace, KeptSkill;
    KeptSkillFiles(PlainFormats(), PLAIN_TREE);
    assert RuntimeOfKind(FRONTMATTER) == Skill;
  }

  /** A skill that packs and installs, is published and installs the same files, and is published again unchanged. */
  lemma SomeSkillTrips(strict: bool)
    returns (t: Tree, walk: Path -> seq<Path>, walk': Path -> seq<Path>, walk'': Path -> seq<Path>)
    ensures var f := PlainFormats();
            && ValidSkill(f, t) && Walker(t, walk) && Pack(f, t, walk).Ok? && Install(f, Pack(f, t, walk).value).Ok?
            && Extract(Pack(f, t, walk).value).Some? && Walker(Extract(Pack(f, t, walk).value).value, walk')
    ensures var f := PlainFormats();
            var zip := Pack(f, t, walk).value;
            var published := Publish(f, zip, VERSION, strict, walk');
            && published.Ok? && Install(f, published.value) == Install(f, zip)
            && Extract(published.value).Some? && Walker(Extract(published.value).value, walk'')
            && var again := Publish(f, published.value, VERSION, strict, walk'');
            again.Ok? && SameEntries(again.value, published.value)
  {
    hide ValidSkill, Walker, Pack, Install, Publish, Extract, FindWorkspace, KeptSkill, Carries, KindHolds,
         YamlSurvives,
         SameEntries, MarketplaceVersion, PackName, PackedYaml;
    var f := PlainFormats();
    t := PLAIN_TREE;
    PlainTreeKept();
    PlainYamlSurvives();
    VersionInOrder();
    walk := SomeWalker(t);
    PackInstallTrip(f, t, walk);
    PackExtracts(f, t, walk);
    var zip := Pack(f, t, walk).value;
    walk' := SomeWalker(Extract(zip).value);
    PublishPreserves(f, t, walk, VERSION, strict, walk');
    PublishedExtracts(f, t, walk, VERSION, strict, walk');
    var published := Publish(f, zip, VERSION, strict, walk').value;
    walk'' := SomeWalker(Extract(published).value);
    PackedPublishIdempotent(f, t, walk, VERSION, strict, walk', VERSION, strict, walk'');
  }

  // ---- one that packs but does not install ---------------------------------------------------------------

  const SWARM_FRONTMATTER := FRONTMATTER.(kind := "swarm-skill")

  /** SKILL.md of a swarm kind without roles, beside a plugin.yaml that declares a skill. */
  function SwarmFormats(): Formats {
    Formats(_ => Some(SWARM_FRONTMATTER), _ => Some(SYNTHESIZED), _ => "", (_, _, _) => {})
  }

  const SWARM_TREE: Tree := map[SKILL_MD := "", PLUGIN_YAML := ""]

  lemma SynthesizedInOrder()
    ensures YamlIssues(SYNTHESIZED) == {} && SYNTHESIZED.name == Some("a") && SYNTHESIZED.runtime == Declared(Skill)
  {
    FrontmatterInOrder();
    VersionInOrder();
    assert RuntimeOfKind(FRONTMATTER) == Skill;
    SynthesizedValid(FRONTMATTER, "a", VERSION);
  }

  lemma SwarmTreeIsSkill()
    ensures FlatSkillWithYaml(SwarmFormats(), SWARM_TREE, "a")
  {
    hide YamlIssues;
    FrontmatterInOrder();
    SynthesizedInOrder();
    assert CleanName("SKILL.md") && CleanName("plugin.yaml");
    assert SKILL_MD != PLUGIN_YAML && |SKILL_MD| == |PLUGIN_YAML| == 1;
  }

  /** The roles are missed only after packing: the packed archive has no plugin.yaml at its root to declare a skill. */
  lemma SomeSkillPacksButDoesNotInstall() returns (walk: Path -> seq<Path>)
    ensures var f, t := SwarmFormats(), SWARM_TREE;
            && ValidSkill(f, t) && Walker(t, walk) && Pack(f, t, walk).Ok?
            && Install(f, Pack(f, t, walk).value) == Err(Invalid({BadRoles}))
  {
    hide FlatSkillWithYaml, ValidSkill, Walker, Pack, Install, FindWorkspace, KeptSkill, Carries;
    var f, t := SwarmFormats(), SWARM_TREE;
    SwarmTreeIsSkill();
    FlatSkillWithYamlIsValid(f, t, "a");
    walk := SomeWalker(t);
    PackInstallTrip(f, t, walk);
    KeptSkillFiles(f, t);
    assert RuntimeOfKind(SWARM_FRONTMATTER) == SwarmSkill && !RolesOk(SWARM_FRONTMATTER);
  }
}
