/** The plugin.yaml of a published archive, field by field, and what is published as it is or refused. */
module BundleYaml {
  import opened Common
  import opened Text
  import opened Trees
  import opened SkillBundle
  import opened BundlePack
  import opened BundleFilter

  /** What is shown for a field of SKILL.md: its stripped text unless that is missing or blank. */
  predicate Shows(shown: Option<string>, field: Option<string>, otherwise: string) {
    shown == Some(if field.Some? && Strip(field.value) != "" then Strip(field.value) else otherwise)
  }

  /** `tags` are the stripped texts of `raw` that are strings and not blank, in their order. */
  predicate NonBlankOf(tags: seq<string>, raw: seq<Option<string>>) {
    if raw == [] then tags == []
    else
      var last := raw[|raw| - 1];
      if last.Some? && Strip(last.value) != "" then
        tags != [] && tags[|tags| - 1] == Strip(last.value) && NonBlankOf(tags[..|tags| - 1], raw[..|raw| - 1])
      else NonBlankOf(tags, raw[..|raw| - 1])
  }

  function RawTags(tags: Tags): seq<Option<string>> {
    match tags
    case NoTags => []
    case OneTag(tag) => [Some(tag)]
    case TagList(list) => list
  }

  /** The tags written for SKILL.md: its own, or what its kind makes it. */
  ghost predicate TagsFor(written: Option<seq<Option<string>>>, fm: Frontmatter) {
    exists own: seq<string> ::
      && NonBlankOf(own, RawTags(fm.tags))
      && var shown := if own != [] then own
                      else if fm.kind in {"team-skill", "swarm-skill"} then ["swarmskill"] else ["skill"];
         written.Some? && |written.value| == |shown|
         && forall i :: 0 <= i < |shown| ==> written.value[i] == Some(shown[i])
  }

  /** A plugin.yaml made up for a skill. */
  ghost predicate MadeUp(y: PluginYaml, fm: Frontmatter, slug: string, version: string) {
    && y.name == Some(slug) && y.version == Some(version) && y.runtime == Declared(Skill)
    && Shows(y.displayName, fm.displayName, slug) && Shows(y.description, fm.description, slug)
    && y.metadata.Some? && Shows(y.metadata.value.author, fm.author, "unknown")
    && TagsFor(y.metadata.value.tags, fm)
  }

  lemma {:induction false} NonBlankAppend(a: seq<Option<string>>, b: seq<Option<string>>)
    ensures NonBlankTags(a + b) == NonBlankTags(a) + NonBlankTags(b)
  {
    hide Strip;
    if a == [] {
      assert a + b == b;
    } else {
      assert (a + b)[0] == a[0] && (a + b)[1..] == a[1..] + b;
      NonBlankAppend(a[1..], b);
    }
  }

  lemma {:induction false} NonBlankTagsAreThose(raw: seq<Option<string>>)
    ensures NonBlankOf(NonBlankTags(raw), raw)
    decreases |raw|
  {
    hide Strip;
    if raw != [] {
      var front, last := raw[..|raw| - 1], raw[|raw| - 1];
      assert raw == front + [last];
      NonBlankTagsAreThose(front);
      NonBlankAppend(front, [last]);
      assert NonBlankTags([last]) == if Blank(last) then [] else [Strip(last.value)];
      var tags := NonBlankTags(raw);
      if Blank(last) {
        assert tags == NonBlankTags(front);
      } else {
        assert tags[..|tags| - 1] == NonBlankTags(front);
      }
    }
  }

  lemma TagsAreFor(fm: Frontmatter)
    ensures TagsFor(Some(Somes(ReadTags(fm, RuntimeName(RuntimeOfKind(fm))))), fm)
  {
    var raw := RawTags(fm.tags);
    NonBlankTagsAreThose(raw);
    assert NonBlankTags([]) == [];
    var own := NonBlankTags(raw);
    assert NonBlankOf(own, raw);
  }

  lemma SynthesizedIsMadeUp(fm: Frontmatter, slug: string, version: string)
    ensures MadeUp(SynthesizeYaml(fm, slug, version, RuntimeOfKind(fm)), fm, slug, version)
  {
    hide Strip, TagsFor;
    TagsAreFor(fm);
  }

  /** The bundle that `Publish` and `Install` find in an archive. */
  ghost function FoundBundle(f: Formats, zip: Archive): Option<Tree> {
    if Extract(zip).None? || FindPluginRoot(f, Extract(zip).value).Err? then None
    else Some(Sub(Extract(zip).value, FindPluginRoot(f, Extract(zip).value).value))
  }

  ghost predicate IsSkillLike(f: Formats, t: Tree) {
    var rt := Validate(f, t).runtime; rt.Some? && rt.value.SkillLike()
  }

  lemma InferredIsOfKind(f: Formats, t: Tree)
    requires FindWorkspace(f, t).Some? && InferRuntime(f, t).Some?
    ensures var ws := FindWorkspace(f, t).value;
            && ws.dir + SKILL_MD in t && f.frontmatter(t[ws.dir + SKILL_MD]).Some?
            && InferRuntime(f, t).value == Inferred(RuntimeOfKind(f.frontmatter(t[ws.dir + SKILL_MD]).value), ws.dir)
  {
    WorkspaceFacts(f, t);
  }

  /** What is uploaded for a skill: made up from its SKILL.md, or the bundle's own plugin.yaml now declaring a skill.
      */
  lemma UploadYamlFields(f: Formats, t: Tree, version: string)
    requires UploadYaml(f, t, version).Ok? && InferRuntime(f, t).Some?
    ensures var y := UploadYaml(f, t, version).value.(runtime := Declared(Skill));
            if LoadYaml(f, t).Some? then y == LoadYaml(f, t).value.(runtime := Declared(Skill))
            else
              && FindWorkspace(f, t).Some? && version != ""
              && var ws := FindWorkspace(f, t).value;
              && ws.dir + SKILL_MD in t && f.frontmatter(t[ws.dir + SKILL_MD]).Some?
              && MadeUp(y, f.frontmatter(t[ws.dir + SKILL_MD]).value, ws.slug, version)
  {
    hide FindWorkspace, InferRuntime, SynthesizeYaml, MadeUp;
    if LoadYaml(f, t).None? {
      InferredIsOfKind(f, t);
      var ws := FindWorkspace(f, t).value;
      var fm := f.frontmatter(t[ws.dir + SKILL_MD]).value;
      SynthesizedIsMadeUp(fm, ws.slug, version);
      assert SynthesizeYaml(fm, ws.slug, version, RuntimeOfKind(fm)).runtime == Declared(Skill) by {
        SynthesizedRuntime(fm, ws.slug, version, RuntimeOfKind(fm));
      }
    }
  }

  lemma SynthesizedRuntime(fm: Frontmatter, slug: string, version: string, rt: Runtime)
    ensures var y := SynthesizeYaml(fm, slug, version, rt); y.runtime == Declared(Skill)
    ensures var y := SynthesizeYaml(fm, slug, version, rt); y.(runtime := Declared(Skill)) == y
  {
  }

  /** The plugin.yaml is the first entry, below the name it declares. */
  lemma RepackBegins(f: Formats, x: Tree, root: Path, dir: Path, y: PluginYaml, walk: Path -> seq<Path>)
    requires Walker(x, walk) && Repack(f, x, root, dir, y, walk).Ok?
    ensures var zip := Repack(f, x, root, dir, y, walk).value;
            && zip != [] && zip[0].content == f.dump(y)
            && (y.name.Some? && Strip(y.name.value) != "" ==> zip[0].name == Strip(y.name.value) + "/plugin.yaml")
  {
    assert forall p: string :: p + "/" + "plugin.yaml" == p + "/plugin.yaml";
  }

  /** Beside it are the bundle's README and the files of the skill directory whose names are not skipped, below the
      name of that directory; at the top of an archive that is the staging area's. */
  lemma RepackHolds(f: Formats, x: Tree, root: Path, dir: Path, y: PluginYaml, walk: Path -> seq<Path>, e: Entry)
    requires Walker(x, walk) && Repack(f, x, root, dir, y, walk).Ok? && y.name.Some? && Strip(y.name.value) != ""
    ensures var zip, name, from := Repack(f, x, root, dir, y, walk).value, Strip(y.name.value), root + dir;
            var last := if from == [] then "publish-zip-stage" else from[|from| - 1];
            && zip != []
            && (e in zip <==>
                  || e == zip[0]
                  || (root + ["README.md"] in x && e.content == x[root + ["README.md"]]
                      && e.name == ToPosix(name + "/" + "README.md"))
                  || exists p :: EntryOf(Sub(x, from), ArcPrefix(ToPosix(name + "/" + last)), p, e) && !Skipped(p))
  {
    hide TreeEntries, EntryOf, Skipped, ArcPrefix, ToPosix, Sub, Strip, Join, Lists;
    var name, from := Strip(y.name.value), root + dir;
    assert NonBlankOr(y.name, DirName(from)) == name;
    ListsAll(x, walk, from);
    EntriesExactly(Sub(x, from), walk(from), ArcPrefix(ToPosix(name + "/" + DirName(from))), {}, e);
  }

  lemma ListsAll(x: Tree, walk: Path -> seq<Path>, d: Path)
    requires Walker(x, walk)
    ensures Lists(walk(d), Sub(x, d))
  {
  }

  /** Whatever the archive: a skill that is published gets a plugin.yaml made up from its SKILL.md and the version
      asked for, or keeps its own but for the runtime. */
  lemma PublishedYaml(f: Formats, zip: Archive, version: string, strict: bool, walk: Path -> seq<Path>)
    returns (y: PluginYaml)
    requires Extract(zip).Some? ==> Walker(Extract(zip).value, walk)
    requires Publish(f, zip, version, strict, walk).Ok?
    requires FoundBundle(f, zip).Some? && IsSkillLike(f, FoundBundle(f, zip).value)
    ensures var t, published := FoundBundle(f, zip).value, Publish(f, zip, version, strict, walk).value;
            && published != [] && published[0].content == f.dump(y)
            && (y.name.Some? && Strip(y.name.value) != "" ==> published[0].name == Strip(y.name.value) + "/plugin.yaml")
            && if LoadYaml(f, t).Some? then y == LoadYaml(f, t).value.(runtime := Declared(Skill))
               else
                 && FindWorkspace(f, t).Some?
                 && var ws := FindWorkspace(f, t).value;
                 && ws.dir + SKILL_MD in t && f.frontmatter(t[ws.dir + SKILL_MD]).Some?
                 && MadeUp(y, f.frontmatter(t[ws.dir + SKILL_MD]).value, ws.slug, version)
  {
    hide FindWorkspace, InferRuntime, UploadYaml, Validate, Repack, MadeUp, FindPluginRoot, Extract, TeamIssues, Walker,
         Sub, Strip, LoadYaml;
    var t := FoundBundle(f, zip).value;
    var x, root := Extract(zip).value, FindPluginRoot(f, Extract(zip).value).value;
    UploadYamlFields(f, t, version);
    y := UploadYaml(f, t, version).value.(runtime := Declared(Skill));
    RepackBegins(f, x, root, InferRuntime(f, t).value.dir, y, walk);
  }

  /** A skill without a plugin.yaml is not published without a version. */
  lemma PublishNeedsVersion(f: Formats, zip: Archive, strict: bool, walk: Path -> seq<Path>)
    requires Extract(zip).Some? ==> Walker(Extract(zip).value, walk)
    requires FoundBundle(f, zip).Some? && IsSkillLike(f, FoundBundle(f, zip).value)
    requires LoadYaml(f, FoundBundle(f, zip).value).None?
    ensures Publish(f, zip, "", strict, walk).Err?
  {
  }

  /** What validates as anything else is published as it is, or refused where a skill is expected. */
  lemma OthersPublishedAsTheyAre(f: Formats, zip: Archive, version: string, strict: bool, walk: Path -> seq<Path>)
    requires Extract(zip).Some? ==> Walker(Extract(zip).value, walk)
    requires FoundBundle(f, zip).Some? && !IsSkillLike(f, FoundBundle(f, zip).value)
    requires Validate(f, FoundBundle(f, zip).value).issues == {}
    ensures Publish(f, zip, version, strict, walk) == if strict then Err(NotASkill) else Ok(zip)
  {
    hide Validate;
  }

  /** Nothing is published that does not validate; where a skill is expected, a missing plugin.yaml or README aside. */
  lemma PublishedIsValid(f: Formats, zip: Archive, version: string, strict: bool, walk: Path -> seq<Path>)
    requires Extract(zip).Some? ==> Walker(Extract(zip).value, walk)
    requires Publish(f, zip, version, strict, walk).Ok?
    ensures FoundBundle(f, zip).Some?
    ensures var issues := Validate(f, FoundBundle(f, zip).value).issues;
            issues == {} || (strict && issues <= {MissingPluginYaml, MissingReadme})
  {
    hide Validate;
  }
}
