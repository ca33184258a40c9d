/** Normalising an archive for publishing: what it installs stays the same, and doing it twice changes nothing. */
module BundlePublish {
  import opened Common
  import opened Text
  import opened Trees
  import opened SkillBundle
  import opened BundleArchive
  import opened BundleLayout
  import opened BundlePack
  import opened BundleTrip

  /** What is assumed of the YAML library, of the one document that is written: loading it gives back what was
      dumped. */
  ghost predicate YamlSurvives(f: Formats, y: PluginYaml) {
    f.yaml(f.dump(y)) == Some(y)
  }

  // ---- The synthesized plugin.yaml is valid ----

  lemma StripTwice(s: string)
    ensures Strip(Strip(s)) == Strip(s)
  {
    StripEnds(s);
    StripKeeps(Strip(s));
  }

  predicate NoneBlank(tags: seq<string>) {
    forall i :: 0 <= i < |tags| ==> !Blank(Some(tags[i]))
  }

  lemma {:induction false} NonBlankTagsAre(tags: seq<Option<string>>)
    ensures NoneBlank(NonBlankTags(tags))
  {
    hide Strip;
    if tags != [] {
      var rest := NonBlankTags(tags[1..]);
      NonBlankTagsAre(tags[1..]);
      if Blank(tags[0]) {
        assert NonBlankTags(tags) == rest;
      } else {
        assert !Blank(Some(Strip(tags[0].value))) by {
          StripTwice(tags[0].value);
        }
        assert NonBlankTags(tags) == [Strip(tags[0].value)] + rest;
      }
    }
  }

  lemma NonBlankOrIs(s: Option<string>, otherwise: string)
    requires !Blank(Some(otherwise))
    ensures !Blank(Some(NonBlankOr(s, otherwise)))
  {
    if s.Some? {
      StripTwice(s.value);
    }
  }

  lemma WordNotBlank(s: string)
    requires s != "" && !IsSpace(s[0]) && !IsSpace(s[|s| - 1])
    ensures !Blank(Some(s))
  {
    StripKeeps(s);
  }

  lemma UnknownNotBlank()
    ensures !Blank(Some("unknown"))
  {
    WordNotBlank("unknown");
  }

  lemma RuntimeNameNotBlank(rt: Runtime)
    requires rt.SkillLike()
    ensures !Blank(Some(RuntimeName(rt)))
  {
    WordNotBlank(RuntimeName(rt));
  }

  lemma ReadTagsValid(fm: Frontmatter, fallback: string)
    requires !Blank(Some(fallback))
    ensures NoneBlank(ReadTags(fm, fallback))
  {
    match fm.tags {
      case NoTags =>
      case OneTag(tag) => NonBlankTagsAre([Some(tag)]);
      case TagList(tags) => NonBlankTagsAre(tags);
    }
  }

  lemma YamlValid(y: PluginYaml, tags: seq<string>)
    requires y.runtime == Declared(Skill) && y.name.Some? && !Blank(y.name) && ValidSlug(y.name.value)
    requires y.version.Some? && MarketplaceVersion(y.version.value)
    requires !Blank(y.displayName) && !Blank(y.description)
    requires y.metadata.Some? && !Blank(y.metadata.value.author)
    requires y.metadata.value.tags == Some(Somes(tags)) && NoneBlank(tags)
    ensures YamlIssues(y) == {}
  {
    hide ValidSlug, MarketplaceVersion, Blank;
  }

  lemma SynthesizedValid(fm: Frontmatter, slug: string, version: string)
    requires ValidSlug(slug) && !Blank(Some(slug)) && MarketplaceVersion(version)
    ensures YamlIssues(SynthesizeYaml(fm, slug, version, RuntimeOfKind(fm))) == {}
  {
    NonBlankOrIs(fm.displayName, slug);
    NonBlankOrIs(fm.description, slug);
    AuthorNotBlank(fm);
    RuntimeNameNotBlank(RuntimeOfKind(fm));
    var tags := ReadTags(fm, RuntimeName(RuntimeOfKind(fm)));
    ReadTagsValid(fm, RuntimeName(RuntimeOfKind(fm)));
    YamlValid(SynthesizeYaml(fm, slug, version, RuntimeOfKind(fm)), tags);
  }

  lemma AuthorNotBlank(fm: Frontmatter)
    ensures !Blank(Some(NonBlankOr(fm.author, "unknown")))
  {
    UnknownNotBlank();
    NonBlankOrIs(fm.author, "unknown");
  }

  // ---- One normalisation ----

  /** The plugin.yaml the upload gets: the bundle's own, now declared a skill, or a synthesized one. */
  ghost function YamlFor(f: Formats, name: string, files: Tree, extras: map<string, Content>,
                         version: string): PluginYaml
    requires SKILL_MD in files && f.frontmatter(files[SKILL_MD]).Some?
    requires "plugin.yaml" in extras ==> Declares(f, name, extras["plugin.yaml"])
  {
    var fm := f.frontmatter(files[SKILL_MD]).value;
    if "plugin.yaml" in extras then f.yaml(extras["plugin.yaml"]).value.(runtime := Declared(Skill))
    else SynthesizeYaml(fm, name, version, RuntimeOfKind(fm))
  }

  /** The plugin.yaml, given or to be synthesized, is in order. */
  ghost predicate YamlReady(f: Formats, name: string, extras: map<string, Content>, version: string) {
    if "plugin.yaml" in extras then
      Declares(f, name, extras["plugin.yaml"]) && YamlIssues(f.yaml(extras["plugin.yaml"]).value) == {}
    else MarketplaceVersion(version)
  }

  /** The roles are in order if the kind of SKILL.md or the bundle's plugin.yaml asks for roles. */
  ghost predicate RolesHold(f: Formats, files: Tree, extras: map<string, Content>) {
    && KindHolds(f, files)
    && ("plugin.yaml" in extras && f.yaml(extras["plugin.yaml"]).Some? ==>
          (f.yaml(extras["plugin.yaml"]).value.runtime == Declared(SwarmSkill) ==>
             RolesOk(f.frontmatter(files[SKILL_MD]).value)))
  }

  lemma SubSub(t: Tree, a: string, b: string)
    ensures Sub(t, [a] + [b]) == Sub(Sub(t, [a]), [b])
  {
    hide Sub;
    forall r
      ensures r in Sub(t, [a] + [b]) <==> r in Sub(Sub(t, [a]), [b])
      ensures r in Sub(t, [a] + [b]) ==> Sub(t, [a] + [b])[r] == Sub(Sub(t, [a]), [b])[r]
    {
      InSub(t, [a] + [b], r);
      InSub(Sub(t, [a]), [b], r);
      InSub(t, [a], [b] + r);
      assert [a] + [b] + r == [a] + ([b] + r);
    }
    SameTree(Sub(t, [a] + [b]), Sub(Sub(t, [a]), [b]));
  }

  lemma VersionNotEmpty(version: string)
    requires MarketplaceVersion(version)
    ensures version != ""
  {
  }

  /** A bundle with a skill's files, repacked, has the same files below its own name, and the plugin.yaml. */
  lemma RepackEntries(f: Formats, x: Tree, top: string, name: string, files: Tree, extras: map<string, Content>,
                      y: PluginYaml, walk: Path -> seq<Path>)
    requires Walker(x, walk) && Sub(x, [top] + [name]) == files
    requires [top] + README in x <==> "README.md" in extras
    requires "README.md" in extras ==> x[[top] + README] == extras["README.md"]
    requires y.name == Some(name) && Strip(name) == name && name != ""
    requires Lists(walk([top] + [name]), files)
    requires TreeEntries(files, walk([top] + [name]), Join([name, name]), {}) != []
    requires ArcPrefix(ToPosix(name + "/" + name)) == Join([name, name])
    requires ToPosix(name + "/" + "README.md") == name + "/" + "README.md"
    ensures Repack(f, x, [top], [name], y, walk)
            == Ok(BundleEntries(name, name, extras["plugin.yaml" := f.dump(y)], files, walk([top] + [name])))
  {
    assert DirName([top] + [name]) == name;
  }

  /** A bundle that validates is repacked, unless its kind asks for roles that are not in order. */
  lemma PublishRepacks(f: Formats, zip: Archive, x: Tree, top: string, b: Tree, rt: Runtime, dir: Path, y: PluginYaml,
                       version: string, expectSkillLike: bool, walk: Path -> seq<Path>)
    requires Extract(zip) == Some(x) && Walker(x, walk)
    requires FindPluginRoot(f, x) == Ok([top]) && Sub(x, [top]) == b
    requires Validate(f, b).issues == {} && Validate(f, b).runtime.Some? && Validate(f, b).runtime.value.SkillLike()
    requires UploadYaml(f, b, version) == Ok(y) && y.runtime.Declared? && y.runtime.runtime.SkillLike()
    requires InferRuntime(f, b) == Some(Inferred(rt, dir))
    ensures Publish(f, zip, version, expectSkillLike, walk)
            == if rt.SwarmSkill? && TeamIssues(f, b, dir) != {} then Err(Invalid(TeamIssues(f, b, dir)))
               else Repack(f, x, [top], dir, y.(runtime := Declared(Skill)), walk)
  {
    hide Validate, UploadYaml, InferRuntime, Extract, FindPluginRoot, TeamIssues, Repack, Sub;
  }

  lemma PublishRefuses(f: Formats, zip: Archive, x: Tree, top: string, b: Tree,
                       version: string, expectSkillLike: bool, walk: Path -> seq<Path>)
    requires Extract(zip) == Some(x) && Walker(x, walk)
    requires FindPluginRoot(f, x) == Ok([top]) && Sub(x, [top]) == b
    requires Validate(f, b).issues == {BadRoles}
    ensures Publish(f, zip, version, expectSkillLike, walk) == Err(Invalid({BadRoles}))
  {
    assert {BadRoles} - {MissingPluginYaml, MissingReadme} == {BadRoles};
  }

  lemma UploadYamlIs(f: Formats, b: Tree, name: string, files: Tree, extras: map<string, Content>, version: string)
    requires BundleFacts(f, b, name, files, extras) && YamlReady(f, name, extras, version)
    ensures UploadYaml(f, b, version).Ok?
    ensures var y := UploadYaml(f, b, version).value;
            && y.(runtime := Declared(Skill)) == YamlFor(f, name, files, extras, version)
            && y.runtime.Declared? && y.runtime.runtime.SkillLike() && y.name == Some(name)
  {
    if "plugin.yaml" !in extras {
      VersionNotEmpty(version);
    }
  }

  /** Validation leaves at most the complaint about roles: it knows the declared runtime, or else the kind. */
  lemma BundleIssues(f: Formats, b: Tree, name: string, files: Tree, extras: map<string, Content>, version: string)
    requires BundleFacts(f, b, name, files, extras) && YamlReady(f, name, extras, version)
    requires FrontmatterIssues(f.frontmatter(files[SKILL_MD]).value, name, name) == {}
    ensures var fm, v := f.frontmatter(files[SKILL_MD]).value, Validate(f, b);
            var rt := if "plugin.yaml" in extras then f.yaml(extras["plugin.yaml"]).value.runtime.runtime
                      else RuntimeOfKind(fm);
            && v.issues == (if rt.SwarmSkill? && !RolesOk(fm) then {BadRoles} else {})
            && v.runtime == Some(rt) && rt.SkillLike()
  {
    hide Validate, FrontmatterIssues, YamlIssues, RolesOk, FindWorkspace, LayoutIssues, InferRuntime;
    if "plugin.yaml" in extras {
      YamlBundleIssues(f, b, name, files, extras);
    } else {
      PlainBundleIssues(f, b, name, files, extras);
    }
  }

  /** Up to the repacking: what `Publish` decides about the bundle. */
  lemma PublishDecides(f: Formats, zip: Archive, x: Tree, top: string, b: Tree, name: string, files: Tree,
                       extras: map<string, Content>, version: string, expectSkillLike: bool, walk: Path -> seq<Path>)
    requires Extract(zip) == Some(x) && Walker(x, walk)
    requires FindPluginRoot(f, x) == Ok([top]) && Sub(x, [top]) == b
    requires BundleFacts(f, b, name, files, extras)
    requires FrontmatterIssues(f.frontmatter(files[SKILL_MD]).value, name, name) == {}
    requires YamlReady(f, name, extras, version)
    ensures Publish(f, zip, version, expectSkillLike, walk)
            == if RolesHold(f, files, extras)
               then Repack(f, x, [top], [name], YamlFor(f, name, files, extras, version), walk)
               else Err(Invalid({BadRoles}))
  {
    hide Publish, Repack, Validate, InferRuntime, FindWorkspace, LayoutIssues, UploadYaml, YamlIssues,
         FrontmatterIssues, SynthesizeYaml, RolesOk, Walker, Extract, FindPluginRoot, Sub, Exists;
    var rt := RuntimeOfKind(f.frontmatter(files[SKILL_MD]).value);
    BundleIssues(f, b, name, files, extras, version);
    if Validate(f, b).issues == {} {
      UploadYamlIs(f, b, name, files, extras, version);
      PublishRepacks(f, zip, x, top, b, rt, [name], UploadYaml(f, b, version).value, version, expectSkillLike, walk);
    } else {
      PublishRefuses(f, zip, x, top, b, version, expectSkillLike, walk);
    }
  }

  /** The single files of the normalised archive. */
  function Uploaded(f: Formats, extras: map<string, Content>, y: PluginYaml): map<string, Content> {
    extras["plugin.yaml" := f.dump(y)]
  }

  lemma SlugIsGoodTop(name: string)
    requires ValidSlug(name) && Strip(name) == name && name != ""
    ensures GoodTop(name) && !IsSpace(name[|name| - 1]) && name != "README.md" && name != "plugin.yaml"
  {
    StripEnds(name);
    SlugFacts(name);
  }

  lemma CarriedPlaces(f: Formats, zip: Archive, top: string, name: string, files: Tree, extras: map<string, Content>)
    requires Carries(f, zip, top, name, files, extras)
    ensures var x := Extract(zip).value;
            && Sub(x, [top] + [name]) == files
            && ([top] + README in x <==> "README.md" in extras)
            && ("README.md" in extras ==> x[[top] + README] == extras["README.md"])
            && ValidSlug(name) && Strip(name) == name && name != ""
  {
    var b := Bundle(name, files, extras);
    var x := Place([top], b);
    BundleRoot(f, top, name, files, extras);
    BundleHas(f, name, files, extras);
    SubSub(x, top, name);
    InSub(x, [top], README);
  }

  lemma OwnNameEntries(f: Formats, name: string, files: Tree, walk: seq<Path>)
    requires SkillFiles(f, name, files) && Lists(walk, files)
    requires ValidSlug(name) && Strip(name) == name && name != ""
    ensures TreeEntries(files, walk, Join([name, name]), {}) != []
    ensures ArcPrefix(ToPosix(name + "/" + name)) == Join([name, name])
    ensures ToPosix(name + "/" + "README.md") == name + "/" + "README.md"
  {
    SlugIsGoodTop(name);
    assert TreeEntries(files, walk, Join([name, name]), {}) != [] by {
      SkillEntriesNotEmpty(f, files, name, name, walk);
    }
    assert ArcPrefix(ToPosix(name + "/" + name)) == Join([name, name]) by {
      ArcPrefixClean(name, name);
    }
    assert ToPosix(name + "/" + "README.md") == name + "/" + "README.md" by {
      ReadmeEntry(name);
    }
  }

  lemma CarriesSkill(f: Formats, zip: Archive, top: string, name: string, files: Tree, extras: map<string, Content>)
    requires Carries(f, zip, top, name, files, extras)
    ensures SkillFiles(f, name, files) && Extract(zip).Some?
  {
  }

  lemma WalkerLists(t: Tree, walk: Path -> seq<Path>, d: Path)
    requires Walker(t, walk)
    ensures Lists(walk(d), Sub(t, d))
  {
  }

  /** The entries `Repack` writes for a skill's archive. */
  lemma RepackCarried(f: Formats, zip: Archive, top: string, name: string, files: Tree, extras: map<string, Content>,
                      y: PluginYaml, walk: Path -> seq<Path>)
    requires Carries(f, zip, top, name, files, extras) && Walker(Extract(zip).value, walk) && y.name == Some(name)
    ensures Lists(walk([top] + [name]), files)
    ensures Repack(f, Extract(zip).value, [top], [name], y, walk)
            == Ok(BundleEntries(name, name, Uploaded(f, extras, y), files, walk([top] + [name])))
  {
    hide Repack, BundleEntries, TreeEntries, ArcPrefix, ToPosix, Join, Sub, Place, Bundle, Extract, Strip, ValidSlug,
      Carries, Lists, Walker;
    CarriesSkill(f, zip, top, name, files, extras);
    CarriedPlaces(f, zip, top, name, files, extras);
    WalkerLists(Extract(zip).value, walk, [top] + [name]);
    OwnNameEntries(f, name, files, walk([top] + [name]));
    RepackEntries(f, Extract(zip).value, top, name, files, extras, y, walk);
  }

  /** Publishing an archive of a skill succeeds exactly when the roles asked for are in order, and then writes these
      entries. */
  lemma PublishCarried(f: Formats, zip: Archive, top: string, name: string, files: Tree, extras: map<string, Content>,
                       version: string, expectSkillLike: bool, walk: Path -> seq<Path>)
    requires Carries(f, zip, top, name, files, extras) && YamlReady(f, name, extras, version)
    requires Walker(Extract(zip).value, walk)
    ensures Lists(walk([top] + [name]), files)
    ensures var y := YamlFor(f, name, files, extras, version);
            Publish(f, zip, version, expectSkillLike, walk)
            == if RolesHold(f, files, extras)
               then Ok(BundleEntries(name, name, Uploaded(f, extras, y), files, walk([top] + [name])))
               else Err(Invalid({BadRoles}))
  {
    var b := Bundle(name, files, extras);
    var x := Place([top], b);
    assert BundleFacts(f, b, name, files, extras) by {
      BundleHas(f, name, files, extras);
    }
    assert FindPluginRoot(f, x) == Ok([top]) && Sub(x, [top]) == b by {
      BundleRoot(f, top, name, files, extras);
    }
    var y := YamlFor(f, name, files, extras, version);
    assert y.name == Some(name) by {
      UploadYamlIs(f, b, name, files, extras, version);
    }
    RepackCarried(f, zip, top, name, files, extras, y, walk);
    PublishDecides(f, zip, x, top, b, name, files, extras, version, expectSkillLike, walk);
  }

  /** The normalised archive carries the same files, below the skill's own name. */
  lemma PublishedCarries(f: Formats, zip: Archive, top: string, name: string, files: Tree, extras: map<string, Content>,
                         y: PluginYaml, walk: seq<Path>)
    requires Carries(f, zip, top, name, files, extras) && Lists(walk, files)
    ensures var singles := Uploaded(f, extras, y);
            Carries(f, BundleEntries(name, name, singles, files, walk), name, name, files, singles)
  {
    assert ValidSlug(name) && Strip(name) == name && name != "" && CleanName(name) && NoDrive(name) by {
      SkillFilesSlug(f, name, files);
    }
    SlugIsGoodTop(name);
    BundleEntriesExtract(name, name, Uploaded(f, extras, y), files, walk);
  }

  lemma UploadedReady(f: Formats, name: string, files: Tree, extras: map<string, Content>, version: string)
    requires SkillFiles(f, name, files) && YamlReady(f, name, extras, version)
    requires YamlSurvives(f, YamlFor(f, name, files, extras, version))
    ensures var y := YamlFor(f, name, files, extras, version);
            var content := Uploaded(f, extras, y)["plugin.yaml"];
            && Declares(f, name, content) && f.yaml(content) == Some(y) && YamlIssues(y) == {}
            && y.runtime == Declared(Skill)
  {
    SkillFilesSlug(f, name, files);
    if "plugin.yaml" !in extras {
      SynthesizedValid(f.frontmatter(files[SKILL_MD]).value, name, version);
    }
  }

  lemma InstallUploaded(f: Formats, zip: Archive, top: string, name: string, files: Tree, extras: map<string, Content>)
    requires Carries(f, zip, top, name, files, extras) && "plugin.yaml" in extras
    requires Declares(f, name, extras["plugin.yaml"]) && YamlIssues(f.yaml(extras["plugin.yaml"]).value) == {}
    requires f.yaml(extras["plugin.yaml"]).value.runtime == Declared(Skill)
    ensures Install(f, zip) == Ok(Installed(name, files))
  {
    var b := Bundle(name, files, extras);
    BundleHas(f, name, files, extras);
    BundleRoot(f, top, name, files, extras);
    YamlBundleIssues(f, b, name, files, extras);
    InstallBundle(f, zip, Place([top], b), top, b, name, files, extras);
  }

  // ---- The theorems ----

  /** Two archives hold the same entries. */
  ghost predicate SameEntries(a: Archive, b: Archive) {
    forall e :: e in a <==> e in b
  }

  /** `e` is the entry of the i-th listed file, and that file is kept. */
  predicate EntryFrom(t: Tree, walk: seq<Path>, prefix: string, e: Entry, i: nat)
    requires i < |walk| && walk[i] in t && walk[i] != []
  {
    Kept(walk[i]) && e == Entry(ArcName(prefix, walk[i]), t[walk[i]])
  }

  lemma {:induction false} EntryComesFrom(t: Tree, walk: seq<Path>, prefix: string, e: Entry) returns (i: nat)
    requires forall k :: 0 <= k < |walk| ==> walk[k] in t && walk[k] != []
    requires e in TreeEntries(t, walk, prefix, {})
    ensures i < |walk| && EntryFrom(t, walk, prefix, e, i)
    decreases |walk|
  {
    var front, p := walk[..|walk| - 1], walk[|walk| - 1];
    if e in TreeEntries(t, front, prefix, {}) {
      i := EntryComesFrom(t, front, prefix, e);
    } else {
      i := |walk| - 1;
    }
  }

  lemma {:induction false} EntryIsWritten(t: Tree, walk: seq<Path>, prefix: string, i: nat)
    requires forall k :: 0 <= k < |walk| ==> walk[k] in t && walk[k] != []
    requires i < |walk| && Kept(walk[i])
    ensures Entry(ArcName(prefix, walk[i]), t[walk[i]]) in TreeEntries(t, walk, prefix, {})
    decreases |walk|
  {
    if i < |walk| - 1 {
      EntryIsWritten(t, walk[..|walk| - 1], prefix, i);
    }
  }

  lemma EntriesIncluded(t: Tree, walk: seq<Path>, walk': seq<Path>, prefix: string, e: Entry)
    requires Lists(walk, t) && Lists(walk', t) && e in TreeEntries(t, walk, prefix, {})
    ensures e in TreeEntries(t, walk', prefix, {})
  {
    var i := EntryComesFrom(t, walk, prefix, e);
    var j :| 0 <= j < |walk'| && walk'[j] == walk[i];
    EntryIsWritten(t, walk', prefix, j);
  }

  /** The entries of a tree do not depend on the order in which it is listed. */
  lemma ListingOrderIrrelevant(t: Tree, walk: seq<Path>, walk': seq<Path>, prefix: string)
    requires Lists(walk, t) && Lists(walk', t)
    ensures SameEntries(TreeEntries(t, walk, prefix, {}), TreeEntries(t, walk', prefix, {}))
  {
    forall e | e in TreeEntries(t, walk, prefix, {}) {
      EntriesIncluded(t, walk, walk', prefix, e);
    }
    forall e | e in TreeEntries(t, walk', prefix, {}) {
      EntriesIncluded(t, walk', walk, prefix, e);
    }
  }

  /** An archive of a skill is published exactly when the roles asked for are in order, and the published archive then
      installs the skill's files under its name. */
  lemma PublishedInstalls(f: Formats, zip: Archive, top: string, name: string, files: Tree,
                          extras: map<string, Content>,
                          version: string, expectSkillLike: bool, walk: Path -> seq<Path>)
    requires Carries(f, zip, top, name, files, extras) && YamlReady(f, name, extras, version)
    requires YamlSurvives(f, YamlFor(f, name, files, extras, version)) && Walker(Extract(zip).value, walk)
    ensures var published := Publish(f, zip, version, expectSkillLike, walk);
            && (published.Ok? <==> RolesHold(f, files, extras))
            && (published.Ok? ==> Install(f, published.value) == Ok(Installed(name, files)))
  {
    hide Publish, Install, Extract, YamlIssues, Carries, Lists, TreeEntries, Sub, Place, Walker, RolesHold;
    CarriesSkill(f, zip, top, name, files, extras);
    PublishCarried(f, zip, top, name, files, extras, version, expectSkillLike, walk);
    var y := YamlFor(f, name, files, extras, version);
    var listing := walk([top] + [name]);
    PublishedCarries(f, zip, top, name, files, extras, y, listing);
    UploadedReady(f, name, files, extras, version);
    InstallUploaded(f, BundleEntries(name, name, Uploaded(f, extras, y), files, listing), name, name, files,
                    Uploaded(f, extras, y));
  }

  /** The plugin.yaml that is written when the archive of a valid skill is published. */
  ghost function PackedYaml(f: Formats, t: Tree, version: string): PluginYaml
    requires ValidSkill(f, t)
  {
    hide ValidSkill, FindWorkspace, KeptSkill, KeptFiles, FileTree, FrontmatterIssues, PackName, GoodTop, Strip;
    KeptSkillFiles(f, t);
    YamlFor(f, FindWorkspace(f, t).value.slug, KeptSkill(f, t), ReadmeOf(t), version)
  }

  /**
   Pack, publish, install: for a valid version the packed archive is published exactly when it installs, and the
   published archive then installs the same files under the same name.
   */
  lemma PublishPreserves(f: Formats, t: Tree, walk: Path -> seq<Path>, version: string, expectSkillLike: bool,
                         walk': Path -> seq<Path>)
    requires ValidSkill(f, t) && Walker(t, walk) && MarketplaceVersion(version)
    requires YamlSurvives(f, PackedYaml(f, t, version)) && Pack(f, t, walk).Ok?
    requires Extract(Pack(f, t, walk).value).Some? && Walker(Extract(Pack(f, t, walk).value).value, walk')
    ensures var zip := Pack(f, t, walk).value;
            var published := Publish(f, zip, version, expectSkillLike, walk');
            && (published.Ok? <==> Install(f, zip).Ok?)
            && (published.Ok? ==> Install(f, published.value) == Install(f, zip))
  {
    hide Pack, Install, Publish, Carries, FindWorkspace, PackName, KeptSkill, ValidSkill, Walker, YamlFor,
         Extract, KindHolds, MarketplaceVersion;
    PackCarries(f, t, walk);
    var zip, slug, kept := Pack(f, t, walk).value, FindWorkspace(f, t).value.slug, KeptSkill(f, t);
    InstallCarried(f, zip, PackPrefix(PackName(f, t).value), slug, kept, ReadmeOf(t));
    PublishedInstalls(f, zip, PackPrefix(PackName(f, t).value), slug, kept, ReadmeOf(t), version, expectSkillLike,
                      walk');
  }

  /** What was published is a readable archive. */
  lemma PublishedExtracts(f: Formats, t: Tree, walk: Path -> seq<Path>, version: string, strict: bool,
                          walk': Path -> seq<Path>)
    requires ValidSkill(f, t) && Walker(t, walk) && MarketplaceVersion(version) && Pack(f, t, walk).Ok?
    requires var zip := Pack(f, t, walk).value;
             Extract(zip).Some? && Walker(Extract(zip).value, walk') && Publish(f, zip, version, strict, walk').Ok?
    ensures Extract(Publish(f, Pack(f, t, walk).value, version, strict, walk').value).Some?
  {
    hide Pack, Publish, FindWorkspace, PackName, KeptSkill, ValidSkill, Walker, YamlFor, MarketplaceVersion, Lists,
         Bundle, Place, SkillFiles, FrontmatterIssues, Uploaded, BundleEntries;
    PackCarries(f, t, walk);
    var zip, name, files := Pack(f, t, walk).value, FindWorkspace(f, t).value.slug, KeptSkill(f, t);
    var top := PackPrefix(PackName(f, t).value);
    CarriesSkill(f, zip, top, name, files, ReadmeOf(t));
    PublishCarried(f, zip, top, name, files, ReadmeOf(t), version, strict, walk');
    var y := YamlFor(f, name, files, ReadmeOf(t), version);
    PublishedCarries(f, zip, top, name, files, ReadmeOf(t), y, walk'([top] + [name]));
  }

  /** Publishing an archive whose plugin.yaml is already the one to be written. */
  lemma Republish(f: Formats, zip: Archive, name: string, files: Tree, singles: map<string, Content>,
                  listing: seq<Path>,
                  version: string, strict: bool, walk: Path -> seq<Path>)
    requires Lists(listing, files) && zip == BundleEntries(name, name, singles, files, listing)
    requires Carries(f, zip, name, name, files, singles) && Walker(Extract(zip).value, walk) && KindHolds(f, files)
    requires "plugin.yaml" in singles && Declares(f, name, singles["plugin.yaml"])
    requires var y := f.yaml(singles["plugin.yaml"]).value;
             YamlIssues(y) == {} && f.dump(y) == singles["plugin.yaml"] && y.runtime == Declared(Skill)
    ensures var again := Publish(f, zip, version, strict, walk); again.Ok? && SameEntries(again.value, zip)
  {
    hide Publish, Extract, YamlIssues, Carries, Lists, TreeEntries, Sub, Place, Walker;
    PublishCarried(f, zip, name, name, files, singles, version, strict, walk);
    var y := f.yaml(singles["plugin.yaml"]).value;
    assert Uploaded(f, singles, y) == singles;
    ListingOrderIrrelevant(files, listing, walk([name] + [name]), Join([name, name]));
  }

  /** Normalising what was normalised gives the same entries again, whatever version is asked for. */
  lemma PublishIdempotent(f: Formats, zip: Archive, top: string, name: string, files: Tree, extras: map<string,
                          Content>,
                          version: string, strict: bool, walk: Path -> seq<Path>,
                          version': string, strict': bool, walk': Path -> seq<Path>)
    requires Carries(f, zip, top, name, files, extras) && YamlReady(f, name, extras, version)
    requires YamlSurvives(f, YamlFor(f, name, files, extras, version))
    requires Walker(Extract(zip).value, walk) && Publish(f, zip, version, strict, walk).Ok?
    requires var once := Publish(f, zip, version, strict, walk).value;
             Extract(once).Some? && Walker(Extract(once).value, walk')
    ensures var once := Publish(f, zip, version, strict, walk).value;
            var twice := Publish(f, once, version', strict', walk');
            twice.Ok? && SameEntries(twice.value, once)
  {
    PublishCarried(f, zip, top, name, files, extras, version, strict, walk);
    var y := YamlFor(f, name, files, extras, version);
    var listing := walk([top] + [name]);
    PublishedCarries(f, zip, top, name, files, extras, y, listing);
    UploadedReady(f, name, files, extras, version);
    Republish(f, Publish(f, zip, version, strict, walk).value, name, files, Uploaded(f, extras, y), listing,
              version', strict', walk');
  }

  /** Pack, publish, publish again. */
  lemma PackedPublishIdempotent(f: Formats, t: Tree, walk: Path -> seq<Path>,
                                version: string, strict: bool, walk': Path -> seq<Path>,
                                version': string, strict': bool, walk'': Path -> seq<Path>)
    requires ValidSkill(f, t) && Walker(t, walk) && MarketplaceVersion(version)
    requires YamlSurvives(f, PackedYaml(f, t, version)) && Pack(f, t, walk).Ok?
    requires var zip := Pack(f, t, walk).value;
             Extract(zip).Some? && Walker(Extract(zip).value, walk') && Publish(f, zip, version, strict, walk').Ok?
    requires var once := Publish(f, Pack(f, t, walk).value, version, strict, walk').value;
             Extract(once).Some? && Walker(Extract(once).value, walk'')
    ensures var once := Publish(f, Pack(f, t, walk).value, version, strict, walk').value;
            var twice := Publish(f, once, version', strict', walk'');
            twice.Ok? && SameEntries(twice.value, once)
  {
    hide Pack, Publish, Carries, FindWorkspace, PackName, KeptSkill, ValidSkill, Walker, YamlFor, Extract,
         SameEntries;
    PackCarries(f, t, walk);
    PublishIdempotent(f, Pack(f, t, walk).value, PackPrefix(PackName(f, t).value), FindWorkspace(f, t).value.slug,
                      KeptSkill(f, t), ReadmeOf(t), version, strict, walk', version', strict', walk'');
  }
}
