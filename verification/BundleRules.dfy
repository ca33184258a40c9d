/** Which skills are valid, rule by rule in plain terms: names, versions, descriptions, roles and plugin.yaml. */
module BundleRules {
  import opened Common
  import opened Text
  import opened Trees
  import opened SkillBundle
  import opened BundlePack

  // ---- names and versions as the patterns write them -----------------------------------------------------

  predicate Word(w: string) {
    w != "" && forall c | c in w :: 'a' <= c <= 'z' || '0' <= c <= '9'
  }

  function Hyphenated(words: seq<string>): string
    requires words != []
  {
    if |words| == 1 then words[0] else words[0] + "-" + Hyphenated(words[1..])
  }

  /** Words of lower-case letters and digits, joined by single hyphens. */
  ghost predicate SlugText(s: string) {
    exists words: seq<string> :: words != [] && (forall w | w in words :: Word(w)) && s == Hyphenated(words)
  }

  lemma WordIsSlug(w: string)
    requires Word(w)
    ensures IsSlug(w)
  {
    assert forall i :: 0 <= i < |w| ==> w[i] in w;
  }

  lemma SlugJoin(w: string, rest: string)
    requires Word(w) && IsSlug(rest)
    ensures IsSlug(w + "-" + rest)
  {
    var s := w + "-" + rest;
    assert forall i :: 0 <= i < |w| ==> s[i] == w[i] && s[i] in w;
    assert forall i :: |w| < i < |s| ==> s[i] == rest[i - |w| - 1];
  }

  lemma {:induction false} HyphenatedIsSlug(words: seq<string>)
    requires words != [] && forall w | w in words :: Word(w)
    ensures IsSlug(Hyphenated(words))
  {
    WordIsSlug(words[0]);
    if |words| > 1 {
      HyphenatedIsSlug(words[1..]);
      SlugJoin(words[0], Hyphenated(words[1..]));
    }
  }

  lemma {:induction false} IndexOfStands(s: string, c: char)
    ensures c !in s[..IndexOf(s, c)] && (IndexOf(s, c) < |s| ==> s[IndexOf(s, c)] == c)
  {
    if s != "" && s[0] != c {
      IndexOfStands(s[1..], c);
      assert s[..IndexOf(s, c)] == [s[0]] + s[1..][..IndexOf(s[1..], c)];
    }
  }

  lemma {:induction false} SlugHasWords(s: string) returns (words: seq<string>)
    requires IsSlug(s)
    ensures words != [] && (forall w | w in words :: Word(w)) && s == Hyphenated(words)
    decreases |s|
  {
    IndexOfStands(s, '-');
    var i := IndexOf(s, '-');
    assert forall k | 0 <= k < i :: s[..i][k] == s[k] && s[k] in s[..i];
    if i == |s| {
      assert s[..i] == s;
      words := [s];
    } else {
      var rest := s[i + 1..];
      assert rest[0] == s[i + 1] && rest[|rest| - 1] == s[|s| - 1];
      words := SlugHasWords(rest);
      assert s == s[..i] + "-" + rest;
      words := [s[..i]] + words;
      assert words[1..] == words[1..];
    }
  }

  lemma SlugExactly(s: string)
    ensures IsSlug(s) <==> SlugText(s)
  {
    if IsSlug(s) {
      var words := SlugHasWords(s);
    }
    if words: seq<string> :| words != [] && (forall w | w in words :: Word(w)) && s == Hyphenated(words) {
      HyphenatedIsSlug(words);
    }
  }

  /** A name is at most 64 characters of a slug; the pattern lets a final line feed pass. */
  lemma NameExactly(s: string)
    ensures ValidSlug(s) <==> |s| <= 64 && (SlugText(s) || exists r :: SlugText(r) && s == r + "\n")
  {
    SlugExactly(s);
    if s != "" && s[|s| - 1] == '\n' && SlugUpTo(s, |s| - 1) {
      var r := s[..|s| - 1];
      assert s == r + "\n" && IsSlug(r);
      SlugExactly(r);
    }
    if r :| SlugText(r) && s == r + "\n" {
      SlugExactly(r);
      assert forall i :: 0 <= i < |r| ==> s[i] == r[i];
    }
  }

  /** A stripped name ends in no line feed. */
  lemma StrippedNameExactly(s: string)
    ensures ValidSlug(Strip(s)) <==> |Strip(s)| <= 64 && SlugText(Strip(s))
  {
    hide Strip, SlugText;
    NameExactly(Strip(s));
    StripEnds(s);
    assert IsSpace('\n');
    forall r: string ensures Strip(s) != r + "\n" {
      assert (r + "\n")[|r|] == '\n';
    }
  }

  predicate Number(s: string) {
    s != "" && forall c | c in s :: '0' <= c <= '9'
  }

  /** Three numbers joined by dots, or seven hexadecimal digits, spaces around aside. */
  ghost predicate VersionText(v: string) {
    || (exists a, b, c :: Number(a) && Number(b) && Number(c) && Strip(v) == a + "." + b + "." + c)
    || (|Strip(v)| == 7 && forall c | c in Strip(v) :: '0' <= c <= '9' || 'a' <= c <= 'f' || 'A' <= c <= 'F')
  }

  lemma TripleIsNumbers(s: string, i: nat, j: nat) returns (a: string, b: string, c: string)
    requires DottedTriple(s, i, j)
    ensures Number(a) && Number(b) && Number(c) && s == a + "." + b + "." + c
  {
    a, b, c := s[..i], s[i + 1..j], s[j + 1..];
    assert s == s[..i] + [s[i]] + s[i + 1..j] + [s[j]] + s[j + 1..];
  }

  lemma NumbersAreTriple(a: string, b: string, c: string)
    requires Number(a) && Number(b) && Number(c)
    ensures DottedTriple(a + "." + b + "." + c, |a|, |a| + 1 + |b|)
  {
    var s, j := a + "." + b + "." + c, |a| + 1 + |b|;
    assert forall k :: 0 <= k < |a| ==> s[k] == a[k] && a[k] in a;
    assert forall k :: |a| < k < j ==> s[k] == b[k - |a| - 1] && s[k] in b;
    assert forall k :: j < k < |s| ==> s[k] == c[k - j - 1] && s[k] in c;
  }

  lemma VersionExactly(v: string)
    ensures MarketplaceVersion(v) <==> VersionText(v)
  {
    hide Strip;
    var s := Strip(v);
    if i: nat, j: nat :| i < j < |s| && DottedTriple(s, i, j) {
      var a, b, c := TripleIsNumbers(s, i, j);
    }
    if a, b, c :| Number(a) && Number(b) && Number(c) && s == a + "." + b + "." + c {
      NumbersAreTriple(a, b, c);
    }
    assert (forall c | c in s :: HexDigit(c)) <==> forall i :: 0 <= i < |s| ==> HexDigit(s[i]);
  }

  // ---- SKILL.md ------------------------------------------------------------------------------------------

  /** At least two roles, each with an id, and no id twice. */
  ghost predicate TeamRoles(fm: Frontmatter) {
    && fm.roles.Listed? && |fm.roles.roles| >= 2
    && exists ids: seq<string> ::
         && |ids| == |fm.roles.roles|
         && (forall i :: 0 <= i < |ids| ==> fm.roles.roles[i] == Id(ids[i]))
         && forall i, j :: 0 <= i < j < |ids| ==> ids[i] != ids[j]
  }

  lemma RolesExactly(fm: Frontmatter)
    ensures RolesOk(fm) <==> TeamRoles(fm)
  {
    if RolesOk(fm) {
      var roles := fm.roles.roles;
      var ids := seq(|roles|, i requires 0 <= i < |roles| => roles[i].id);
      assert forall i :: 0 <= i < |ids| ==> roles[i] == Id(ids[i]);
    }
  }

  ghost predicate NamedSo(fm: Frontmatter, slug: string) {
    fm.name.Some? && slug == Strip(fm.name.value) && |slug| <= 64 && SlugText(slug)
  }

  ghost predicate Described(fm: Frontmatter) {
    fm.description.Some? && 1 <= |Strip(fm.description.value)| <= 4096
  }

  predicate SwarmKind(fm: Frontmatter) {
    fm.kind in {"team-skill", "swarm-skill"}
  }

  lemma FrontmatterExactly(fm: Frontmatter, slug: string)
    ensures FrontmatterIssues(fm, slug, slug) == {} <==> NamedSo(fm, slug) && Described(fm)
  {
    hide Strip, ValidSlug, SlugText;
    if fm.name.Some? {
      StrippedNameExactly(fm.name.value);
    }
    if fm.description.Some? {
      assert Strip(fm.description.value) == "" <==> |Strip(fm.description.value)| == 0;
    }
  }

  /** What is wrong with the name and what with the description, each at most one thing. */
  lemma FrontmatterTells(fm: Frontmatter, slug: string, yamlName: string)
    ensures var issues := FrontmatterIssues(fm, slug, yamlName);
            && (NoName in issues <==> fm.name.None?)
            && (BadSlug in issues <==> fm.name.Some? && !ValidSlug(Strip(fm.name.value)))
            && (SlugNotDirectory in issues <==>
                  fm.name.Some? && ValidSlug(Strip(fm.name.value)) && Strip(fm.name.value) != slug)
            && (SlugNotYamlName in issues <==>
                  fm.name.Some? && ValidSlug(Strip(fm.name.value)) && Strip(fm.name.value) == slug && slug != yamlName)
            && (NoDescription in issues <==> fm.description.None? || Strip(fm.description.value) == "")
            && (LongDescription in issues <==> fm.description.Some? && |Strip(fm.description.value)| > 4096)
  {
    hide ValidSlug, Strip;
  }

  lemma SlugOfExactly(f: Formats, skillMd: Content, slug: string)
    ensures SlugOf(f, skillMd) == Some(slug)
            <==> f.frontmatter(skillMd).Some? && NamedSo(f.frontmatter(skillMd).value, slug)
  {
    hide Strip, ValidSlug, SlugText;
    var fm := f.frontmatter(skillMd);
    if fm.Some? && fm.value.name.Some? {
      StrippedNameExactly(fm.value.name.value);
    }
  }

  /** What is wrong with the SKILL.md of a layout: it does not parse, or its name is missing, blank, no slug, or not
      that of its directory. */
  lemma SkillMdTells(f: Formats, skillMd: Content, d: Option<string>)
    ensures SkillMdIssues(f, skillMd, d) ==
            match f.frontmatter(skillMd)
            case None => {BadFrontmatter}
            case Some(fm) =>
              if fm.name.None? || Strip(fm.name.value) == "" then {NoName}
              else if !ValidSlug(Strip(fm.name.value)) then {BadSlug}
              else if d.Some? && ValidSlug(d.value) && Strip(fm.name.value) != d.value then {SlugNotDirectory}
              else {}
  {
    hide ValidSlug, Strip;
  }

  ghost predicate OnlySkillChild(t: Tree, d: string) {
    SkillChild(t, d) && forall c | SkillChild(t, c) :: c == d
  }

  /** None, or more than one. */
  ghost predicate NoOneSkillChild(t: Tree) {
    forall d :: !OnlySkillChild(t, d)
  }

  lemma OnlySkillChildIs(t: Tree)
    ensures forall d :: OnlySkillChild(t, d) <==> SkillSubdirectory(t) == Some(d)
  {
    hide SkillDirs, SkillChild;
    var dirs := SkillDirs(t);
    forall c ensures c in dirs <==> SkillChild(t, c) {
      SkillChildren(t, c);
    }
    forall d ensures OnlySkillChild(t, d) <==> SkillSubdirectory(t) == Some(d) {
      if OnlySkillChild(t, d) {
        assert dirs == {d};
      }
      if |dirs| == 1 && d in dirs {
        assert |dirs - {d}| == 0;
      }
    }
  }

  /** The only visible child with a SKILL.md is looked at even beside one at the root; several are not. */
  lemma LayoutTells(f: Formats, t: Tree, d: string)
    requires FindWorkspace(f, t).Some?
    ensures OnlySkillChild(t, d) ==> LayoutIssues(f, t) == SkillMdIssues(f, t[[d, "SKILL.md"]], Some(d))
    ensures NoOneSkillChild(t) ==> LayoutIssues(f, t) == {}
  {
    hide SkillMdIssues, FindWorkspace, OnlySkillChild, SkillSubdirectory;
    OnlySkillChildIs(t);
    if OnlySkillChild(t, d) {
      OnlyHasFile(t, d);
    }
  }

  lemma OnlyHasFile(t: Tree, d: string)
    requires OnlySkillChild(t, d)
    ensures [d, "SKILL.md"] in t
  {
  }

  /** The type a layout shows, by the kind in its SKILL.md. */
  lemma RuntimeTells(f: Formats, t: Tree)
    requires FindWorkspace(f, t).Some?
    ensures var skillMd := t[WorkspaceFile(f, t)];
            && f.frontmatter(skillMd).Some?
            && InferRuntime(f, t).Some?
            && InferRuntime(f, t).value.runtime ==
               if f.frontmatter(skillMd).value.kind in {"team-skill", "swarm-skill"} then SwarmSkill else Skill
  {
    hide FindWorkspace;
    WorkspaceFacts(f, t);
  }

  /** A layout that is no workspace still shows its type if one visible child has a SKILL.md that parses. */
  lemma BrokenLayoutTells(f: Formats, t: Tree, d: string)
    requires FindWorkspace(f, t).None?
    ensures OnlySkillChild(t, d) ==>
              var fm := f.frontmatter(t[[d, "SKILL.md"]]);
              InferRuntime(f, t) ==
                if fm.None? then None
                else Some(Inferred(if fm.value.kind in {"team-skill", "swarm-skill"} then SwarmSkill else Skill, [d]))
    ensures NoOneSkillChild(t) ==> InferRuntime(f, t) == None
  {
    hide FindWorkspace, OnlySkillChild, SkillSubdirectory;
    assert [d] + SKILL_MD == [d, "SKILL.md"];
    OnlySkillChildIs(t);
    if OnlySkillChild(t, d) {
      OnlyHasFile(t, d);
    }
  }

  ghost function WorkspaceFile(f: Formats, t: Tree): (p: Path)
    requires FindWorkspace(f, t).Some?
    ensures p in t
  {
    WorkspaceFacts(f, t);
    FindWorkspace(f, t).value.dir + ["SKILL.md"]
  }

  // ---- whole directories without a plugin.yaml -----------------------------------------------------------

  /** A child directory with a SKILL.md, and not a hidden one. */
  ghost predicate SkillChild(t: Tree, d: string) {
    [d, "SKILL.md"] in t && (d != "" ==> d[0] != '.')
  }

  lemma SkillChildren(t: Tree, d: string)
    ensures d in SkillDirs(t) <==> SkillChild(t, d)
  {
    assert [d, "SKILL.md"][0] == d && [d, "SKILL.md"][1] == "SKILL.md";
    if p :| p in t && |p| == 2 && p[1] == "SKILL.md" && !Hidden(p[0]) && p[0] == d {
      assert p == [d, "SKILL.md"];
    }
  }

  /** With a SKILL.md at its root, and no other below, a directory is a valid skill exactly if that file is in order.
      */
  lemma FlatSkillExactly(f: Formats, t: Tree)
    requires FileTree(t) && ["SKILL.md"] in t && !Exists(t, ["plugin.yaml"])
    requires forall d :: !SkillChild(t, d)
    ensures ValidSkill(f, t) <==>
              && f.frontmatter(t[["SKILL.md"]]).Some?
              && var fm := f.frontmatter(t[["SKILL.md"]]).value;
                 && (exists slug :: NamedSo(fm, slug)) && Described(fm) && (SwarmKind(fm) ==> TeamRoles(fm))
  {
    hide FileTree, SlugOf, FrontmatterIssues, RolesOk, TeamRoles, NamedSo, Described, Exists;
    NoChildren(t);
    assert [] + SKILL_MD == SKILL_MD;
    assert SkillSubdirectory(t) == None;
    var fm := f.frontmatter(t[SKILL_MD]);
    if fm.Some? {
      RolesExactly(fm.value);
      var slug := SlugOf(f, t[SKILL_MD]);
      forall s ensures slug == Some(s) <==> NamedSo(fm.value, s) {
        SlugOfExactly(f, t[SKILL_MD], s);
      }
      if slug.Some? {
        FrontmatterExactly(fm.value, slug.value);
        FlatValidation(f, t, slug.value, fm.value);
      } else {
        UnnamedIsInvalid(f, t);
      }
    } else {
      SlugOfUnparsed(f, t[SKILL_MD]);
      UnnamedIsInvalid(f, t);
    }
  }

  lemma SlugOfUnparsed(f: Formats, skillMd: Content)
    requires f.frontmatter(skillMd).None?
    ensures SlugOf(f, skillMd) == None
  {
  }

  lemma NoChildren(t: Tree)
    requires forall d :: !SkillChild(t, d)
    ensures SkillDirs(t) == {} && SkillSubdirectory(t) == None
  {
    forall d ensures d !in SkillDirs(t) {
      SkillChildren(t, d);
    }
    assert SkillDirs(t) == {} && |SkillDirs(t)| == 0;
  }

  lemma FlatValidation(f: Formats, t: Tree, slug: string, fm: Frontmatter)
    requires SKILL_MD in t && !Exists(t, PLUGIN_YAML) && SkillSubdirectory(t) == None
    requires f.frontmatter(t[SKILL_MD]) == Some(fm) && SlugOf(f, t[SKILL_MD]) == Some(slug)
    ensures var v := Validate(f, t);
            && v.runtime.Some? && v.runtime.value.SkillLike()
            && (v.issues == {} <==> FrontmatterIssues(fm, slug, slug) == {} && (SwarmKind(fm) ==> RolesOk(fm)))
  {
    hide FrontmatterIssues, RolesOk, SkillSubdirectory, ValidSlug, Strip;
    assert [] + SKILL_MD == SKILL_MD;
    SlugOfIsValid(f, t[SKILL_MD]);
    assert PLUGIN_YAML !in t;
    assert FindWorkspace(f, t) == Some(Workspace([], slug));
    assert RuntimeOfKind(fm) == if SwarmKind(fm) then SwarmSkill else Skill;
  }

  lemma SlugOfIsValid(f: Formats, skillMd: Content)
    ensures SlugOf(f, skillMd).Some? ==> ValidSlug(SlugOf(f, skillMd).value)
  {
  }

  /** Without a workspace nothing is a valid skill. */
  lemma UnnamedIsInvalid(f: Formats, t: Tree)
    requires SKILL_MD in t && SlugOf(f, t[SKILL_MD]) == None
    ensures !ValidSkill(f, t)
  {
    hide Validate;
    if ValidSkill(f, t) {
      ValidSkillParts(f, t);
    }
  }

  /** Nested: one visible child directory has a SKILL.md. */
  ghost predicate Nested(t: Tree, d: string) {
    ["SKILL.md"] !in t && OnlySkillChild(t, d)
  }

  lemma OnlyChild(t: Tree, d: string)
    requires Nested(t, d)
    ensures SkillSubdirectory(t) == Some(d) && [d, "SKILL.md"] in t && SKILL_MD !in t
  {
    forall c ensures c in SkillDirs(t) <==> c in {d} {
      SkillChildren(t, c);
    }
    assert SkillDirs(t) == {d} && |SkillDirs(t)| == 1;
  }

  /** With one such child a directory is a valid skill exactly if its SKILL.md is in order and, unless the directory's
      own name is no slug, names that directory. */
  lemma NestedSkillExactly(f: Formats, t: Tree, d: string)
    requires FileTree(t) && Nested(t, d) && !Exists(t, ["plugin.yaml"])
    ensures ValidSkill(f, t) <==>
              && f.frontmatter(t[[d, "SKILL.md"]]).Some?
              && var fm := f.frontmatter(t[[d, "SKILL.md"]]).value;
                 && (exists slug :: NamedSo(fm, slug) && (ValidSlug(d) ==> slug == d))
                 && Described(fm) && (SwarmKind(fm) ==> TeamRoles(fm))
  {
    hide FileTree, SlugOf, FrontmatterIssues, RolesOk, TeamRoles, NamedSo, Described, Exists, ValidSlug;
    OnlyChild(t, d);
    var content := t[[d, "SKILL.md"]];
    var fm, slug := f.frontmatter(content), SlugOf(f, content);
    if fm.Some? {
      RolesExactly(fm.value);
      forall s ensures slug == Some(s) <==> NamedSo(fm.value, s) {
        SlugOfExactly(f, content, s);
      }
    } else {
      SlugOfUnparsed(f, content);
    }
    if slug.Some? && (ValidSlug(d) ==> slug.value == d) {
      FrontmatterExactly(fm.value, slug.value);
      NestedValidation(f, t, d, slug.value, fm.value);
    } else {
      MisplacedIsInvalid(f, t, d);
    }
  }

  lemma NestedValidation(f: Formats, t: Tree, d: string, slug: string, fm: Frontmatter)
    requires SKILL_MD !in t && !Exists(t, PLUGIN_YAML) && SkillSubdirectory(t) == Some(d) && [d, "SKILL.md"] in t
    requires f.frontmatter(t[[d, "SKILL.md"]]) == Some(fm) && SlugOf(f, t[[d, "SKILL.md"]]) == Some(slug)
    requires ValidSlug(d) ==> slug == d
    ensures var v := Validate(f, t);
            && v.runtime.Some? && v.runtime.value.SkillLike()
            && (v.issues == {} <==> FrontmatterIssues(fm, slug, slug) == {} && (SwarmKind(fm) ==> RolesOk(fm)))
  {
    hide FrontmatterIssues, RolesOk, SkillSubdirectory, ValidSlug, Strip;
    assert [d] + SKILL_MD == [d, "SKILL.md"];
    SlugOfIsValid(f, t[[d, "SKILL.md"]]);
    assert PLUGIN_YAML !in t;
    assert FindWorkspace(f, t) == Some(Workspace([d], slug));
    assert RuntimeOfKind(fm) == if SwarmKind(fm) then SwarmSkill else Skill;
    NamedIsFine(f, t[[d, "SKILL.md"]], d, slug, fm);
    assert NestedIssues(f, t) == {};
  }

  lemma NamedIsFine(f: Formats, skillMd: Content, d: string, slug: string, fm: Frontmatter)
    requires f.frontmatter(skillMd) == Some(fm) && SlugOf(f, skillMd) == Some(slug) && (ValidSlug(d) ==> slug == d)
    ensures SkillMdIssues(f, skillMd, Some(d)) == {}
  {
  }

  lemma MisplacedIsInvalid(f: Formats, t: Tree, d: string)
    requires SKILL_MD !in t && SkillSubdirectory(t) == Some(d) && [d, "SKILL.md"] in t
    requires var slug := SlugOf(f, t[[d, "SKILL.md"]]); slug.None? || (ValidSlug(d) && slug.value != d)
    ensures !ValidSkill(f, t)
  {
    hide Validate;
    if ValidSkill(f, t) {
      ValidSkillParts(f, t);
    }
  }

  // ---- with a plugin.yaml --------------------------------------------------------------------------------

  predicate Filled(field: Option<string>) {
    field.Some? && Strip(field.value) != ""
  }

  /** A lower-case letter, then lower-case letters, digits and hyphens; the pattern lets a final line feed pass. */
  ghost predicate AssetName(s: string) {
    exists r :: (s == r || s == r + "\n") && r != "" && 'a' <= r[0] <= 'z'
                && forall c | c in r :: 'a' <= c <= 'z' || '0' <= c <= '9' || c == '-'
  }

  lemma AssetNameExactly(s: string)
    ensures PluginName(s) <==> AssetName(s)
  {
    if PluginName(s) {
      var n := if s != "" && s[|s| - 1] == '\n' then |s| - 1 else |s|;
      var r := s[..n];
      assert s == r || s == r + "\n";
      assert r[0] == s[0];
    }
    if r :| (s == r || s == r + "\n") && r != "" && 'a' <= r[0] <= 'z'
            && forall c | c in r :: 'a' <= c <= 'z' || '0' <= c <= '9' || c == '-' {
      assert forall i :: 0 <= i < |r| ==> s[i] == r[i] && r[i] in r;
    }
  }

  /** Every field of a plugin.yaml that is asked for. */
  ghost predicate YamlInOrder(y: PluginYaml) {
    && y.runtime.Declared?
    && y.name.Some? && (if y.runtime.runtime in {Skill, SwarmSkill} then Filled(y.name) && ValidSlug(y.name.value)
                        else AssetName(y.name.value))
    && y.version.Some? && VersionText(y.version.value)
    && Filled(y.displayName) && Filled(y.description)
    && y.metadata.Some? && Filled(y.metadata.value.author)
    && y.metadata.value.tags.Some? && forall tag | tag in y.metadata.value.tags.value :: Filled(tag)
  }

  lemma YamlExactly(y: PluginYaml)
    ensures YamlIssues(y) == {} <==> YamlInOrder(y)
  {
    hide Strip, ValidSlug, MarketplaceVersion, VersionText, PluginName, AssetName;
    if y.version.Some? {
      VersionExactly(y.version.value);
    }
    if y.name.Some? {
      AssetNameExactly(y.name.value);
    }
    if y.metadata.Some? && y.metadata.value.tags.Some? {
      var tags := y.metadata.value.tags.value;
      assert forall i | 0 <= i < |tags| :: tags[i] in tags && (Blank(tags[i]) <==> !Filled(tags[i]));
    }
    if YamlInOrder(y) {
      NoIssues(y);
    }
    if YamlIssues(y) == {} {
      OrderFromNoIssues(y);
    }
  }

  lemma NoIssues(y: PluginYaml)
    requires y.runtime.Declared? && y.name.Some?
    requires if y.runtime.runtime.SkillLike() then !Blank(y.name) && ValidSlug(y.name.value)
             else PluginName(y.name.value)
    requires y.version.Some? && MarketplaceVersion(y.version.value) && !Blank(y.displayName) && !Blank(y.description)
    requires y.metadata.Some? && !Blank(y.metadata.value.author) && y.metadata.value.tags.Some?
    requires var tags := y.metadata.value.tags.value; forall i :: 0 <= i < |tags| ==> !Blank(tags[i])
    ensures YamlIssues(y) == {}
  {
    hide Blank, ValidSlug, MarketplaceVersion, PluginName;
  }

  lemma OrderFromNoIssues(y: PluginYaml)
    requires YamlIssues(y) == {}
    ensures y.runtime.Declared? && y.name.Some?
    ensures if y.runtime.runtime.SkillLike() then !Blank(y.name) && ValidSlug(y.name.value)
            else PluginName(y.name.value)
    ensures y.version.Some? && MarketplaceVersion(y.version.value) && !Blank(y.displayName) && !Blank(y.description)
    ensures y.metadata.Some? && !Blank(y.metadata.value.author) && y.metadata.value.tags.Some?
    ensures var tags := y.metadata.value.tags.value; forall i :: 0 <= i < |tags| ==> !Blank(tags[i])
  {
  }

  /** With a plugin.yaml beside a SKILL.md at the root it is the declared runtime that asks for roles, and the declared
      name has to be that of SKILL.md. */
  lemma FlatSkillWithYamlExactly(f: Formats, t: Tree)
    requires FileTree(t) && ["SKILL.md"] in t && ["plugin.yaml"] in t && forall d :: !SkillChild(t, d)
    ensures ValidSkill(f, t) <==>
              && f.frontmatter(t[["SKILL.md"]]).Some? && f.yaml(t[["plugin.yaml"]]).Some?
              && var fm, y := f.frontmatter(t[["SKILL.md"]]).value, f.yaml(t[["plugin.yaml"]]).value;
                 && YamlInOrder(y) && y.runtime.runtime in {Skill, SwarmSkill}
                 && NamedSo(fm, y.name.value) && Described(fm)
                 && (y.runtime == Declared(SwarmSkill) ==> TeamRoles(fm))
  {
    hide FileTree, SlugOf, FrontmatterIssues, RolesOk, TeamRoles, NamedSo, Described, Exists, ValidSlug, YamlIssues,
         YamlInOrder, Validate;
    NoChildren(t);
    assert Exists(t, PLUGIN_YAML) by {
      YamlIsThere(t);
    }
    var fm, y, slug := f.frontmatter(t[SKILL_MD]), f.yaml(t[PLUGIN_YAML]), SlugOf(f, t[SKILL_MD]);
    if fm.None? {
      SlugOfUnparsed(f, t[SKILL_MD]);
    }
    if slug.None? {
      UnnamedIsInvalid(f, t);
      if fm.Some? && y.Some? && YamlInOrder(y.value) {
        YamlHasName(y.value);
        SlugOfExactly(f, t[SKILL_MD], y.value.name.value);
      }
    } else {
      RolesExactly(fm.value);
      FrontmatterExactly(fm.value, slug.value);
      SlugOfExactly(f, t[SKILL_MD], slug.value);
      FlatYamlValidation(f, t, slug.value, fm.value);
      if y.Some? {
        YamlExactly(y.value);
        if YamlInOrder(y.value) {
          YamlHasName(y.value);
          SlugOfExactly(f, t[SKILL_MD], y.value.name.value);
        }
      }
    }
  }

  lemma YamlIsThere(t: Tree)
    requires PLUGIN_YAML in t
    ensures Exists(t, PLUGIN_YAML)
  {
  }

  lemma YamlHasName(y: PluginYaml)
    requires YamlInOrder(y)
    ensures y.runtime.Declared? && y.name.Some?
    ensures y.runtime.runtime in {Skill, SwarmSkill} ==> ValidSlug(y.name.value)
  {
    hide ValidSlug, VersionText, AssetName;
  }

  lemma FlatYamlValidation(f: Formats, t: Tree, slug: string, fm: Frontmatter)
    requires FileTree(t) && SKILL_MD in t && PLUGIN_YAML in t && SkillSubdirectory(t) == None
    requires f.frontmatter(t[SKILL_MD]) == Some(fm) && SlugOf(f, t[SKILL_MD]) == Some(slug)
    ensures var y := f.yaml(t[PLUGIN_YAML]);
            ValidSkill(f, t) <==>
              && y.Some? && YamlIssues(y.value) == {} && y.value.runtime.Declared?
              && y.value.runtime.runtime.SkillLike() && y.value.name == Some(slug)
              && FrontmatterIssues(fm, slug, slug) == {}
              && (y.value.runtime == Declared(SwarmSkill) ==> RolesOk(fm))
  {
    hide FileTree, FrontmatterIssues, RolesOk, SkillSubdirectory, ValidSlug, Strip, Validate, MarketplaceVersion, Blank,
         PluginName;
    SlugOfIsValid(f, t[SKILL_MD]);
    FlatYamlIssues(f, t, slug, fm);
    var y := f.yaml(t[PLUGIN_YAML]);
    if y.Some? && YamlIssues(y.value) == {} {
      OrderFromNoIssues(y.value);
    }
  }

  lemma FlatSkillIssues(f: Formats, t: Tree, slug: string, fm: Frontmatter, y: PluginYaml, rt: Runtime)
    requires SKILL_MD in t && f.frontmatter(t[SKILL_MD]) == Some(fm)
    requires y.name.Some? && ValidSlug(y.name.value) && rt.SkillLike()
    ensures SkillIssues(f, t, Workspace([], slug), Some(y), rt) == {} <==>
              y.name == Some(slug) && FrontmatterIssues(fm, slug, slug) == {} && (rt == SwarmSkill ==> RolesOk(fm))
  {
    hide FrontmatterIssues, RolesOk, ValidSlug;
    assert [] + SKILL_MD == SKILL_MD;
    var issues := SkillIssues(f, t, Workspace([], slug), Some(y), rt);
    if y.name != Some(slug) {
      assert SlugNotYamlName in issues;
    } else {
      assert issues == FrontmatterIssues(fm, slug, slug) + if rt.SwarmSkill? then TeamIssues(f, t, []) else {};
      assert rt == SwarmSkill && !RolesOk(fm) ==> BadRoles in issues;
    }
  }

  lemma UnionIsEmpty(a: set<Issue>, b: set<Issue>)
    ensures a + b == {} <==> a == {} && b == {}
  {
    assert a <= a + b && b <= a + b;
  }

  lemma FlatYamlIssues(f: Formats, t: Tree, slug: string, fm: Frontmatter)
    requires SKILL_MD in t && PLUGIN_YAML in t && SkillSubdirectory(t) == None && ValidSlug(slug)
    requires f.frontmatter(t[SKILL_MD]) == Some(fm) && SlugOf(f, t[SKILL_MD]) == Some(slug)
    ensures var y, v := f.yaml(t[PLUGIN_YAML]), Validate(f, t);
            && (y.None? ==> v.issues != {})
            && (y.Some? ==> YamlIssues(y.value) <= v.issues)
            && (y.Some? && y.value.runtime.Declared? ==>
                  && v.runtime == Some(y.value.runtime.runtime)
                  && (y.value.runtime.runtime.SkillLike() && y.value.name.Some? && ValidSlug(y.value.name.value) ==>
                        (v.issues == {} <==>
                           && YamlIssues(y.value) == {} && y.value.name == Some(slug)
                           && FrontmatterIssues(fm, slug, slug) == {}
                           && (y.value.runtime == Declared(SwarmSkill) ==> RolesOk(fm)))))
  {
    hide FrontmatterIssues, RolesOk, SkillSubdirectory, ValidSlug, Strip, YamlIssues, SlugOf, SkillIssues, Exists;
    YamlIsThere(t);
    assert FindWorkspace(f, t) == Some(Workspace([], slug)) && LayoutIssues(f, t) == {};
    var y, v := f.yaml(t[PLUGIN_YAML]), Validate(f, t);
    if y.Some? && y.value.runtime.Declared? && y.value.runtime.runtime.SkillLike() {
      var rt := y.value.runtime.runtime;
      assert v.issues == SkillIssues(f, t, Workspace([], slug), y, rt) + YamlIssues(y.value);
      UnionIsEmpty(SkillIssues(f, t, Workspace([], slug), y, rt), YamlIssues(y.value));
      if y.value.name.Some? && ValidSlug(y.value.name.value) {
        FlatSkillIssues(f, t, slug, fm, y.value, rt);
      }
    }
    if y.None? {
      assert BadPluginYaml in v.issues;
    }
  }

  /** Each field that is missing or out of order is told apart. */
  lemma YamlTells(y: PluginYaml)
    ensures var issues, skill := YamlIssues(y), y.runtime in {Declared(Skill), Declared(SwarmSkill)};
            && (YamlRuntime in issues <==> !y.runtime.Declared?)
            && (YamlVersion in issues <==> y.version.None? || !VersionText(y.version.value))
            && (YamlName in issues <==> if skill then !Filled(y.name) else y.name.None? || !AssetName(y.name.value))
            && (BadYamlSlug in issues <==> skill && Filled(y.name) && !ValidSlug(y.name.value))
  {
    hide Strip, ValidSlug, MarketplaceVersion, VersionText, PluginName, AssetName;
    if y.version.Some? {
      VersionExactly(y.version.value);
    }
    if y.name.Some? {
      AssetNameExactly(y.name.value);
    }
  }

  lemma YamlTextsTell(y: PluginYaml)
    ensures var issues := YamlIssues(y);
            && (YamlDisplayName in issues <==> !Filled(y.displayName))
            && (YamlDescription in issues <==> !Filled(y.description))
            && (YamlMetadata in issues <==> y.metadata.None?)
            && (YamlAuthor in issues <==> y.metadata.Some? && !Filled(y.metadata.value.author))
            && (YamlTags in issues <==>
                  y.metadata.Some? && (y.metadata.value.tags.None?
                                       || exists tag :: tag in y.metadata.value.tags.value && !Filled(tag)))
  {
    hide Strip, ValidSlug, MarketplaceVersion, PluginName;
    if y.metadata.Some? && y.metadata.value.tags.Some? {
      var tags := y.metadata.value.tags.value;
      assert forall i | 0 <= i < |tags| :: tags[i] in tags && (Blank(tags[i]) <==> !Filled(tags[i]));
    }
  }
}
