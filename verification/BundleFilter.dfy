/** Which files end up in an archive, told from their names, and under which entry names. */
module BundleFilter {
  import opened Text
  import opened Trees
  import opened SkillBundle
  import opened BundlePack

  ghost predicate EndsIn(name: string, tail: string) {
    exists stem :: name == stem + tail
  }

  /** Version control, caches, virtual environments and build output: skipped with all that is below them. */
  ghost predicate SkippedName(name: string) {
    || name in {".git", "__pycache__", ".venv", "venv", ".eggs", "dist", "out", "__MACOSX"}
    || EndsIn(name, ".egg-info")
  }

  /** Compiled Python files, which have a name before the suffix, and Finder's. */
  ghost predicate SkippedFile(name: string) {
    || name == ".DS_Store"
    || (name != ".pyc" && EndsIn(name, ".pyc"))
    || (name != ".pyo" && EndsIn(name, ".pyo"))
  }

  ghost predicate Skipped(p: Path)
    requires p != []
  {
    (exists n :: n in p && SkippedName(n)) || SkippedFile(p[|p| - 1])
  }

  lemma EndsInIs(name: string, tail: string)
    ensures EndsWith(name, tail) <==> EndsIn(name, tail)
  {
    if EndsWith(name, tail) {
      assert name == name[..|name| - |tail|] + tail;
    }
  }

  lemma {:induction false} LastDotStands(n: string)
    ensures forall i :: LastDot(n) < i < |n| ==> n[i] != '.'
    ensures LastDot(n) >= 0 ==> n[LastDot(n)] == '.'
    decreases |n|
  {
    if n != "" && n[|n| - 1] != '.' {
      LastDotStands(n[..|n| - 1]);
    }
  }

  /** A suffix of a dot and letters is there exactly if something stands before it. */
  lemma SuffixIs(n: string, tail: string)
    requires |tail| >= 2 && tail[0] == '.' && forall i :: 0 < i < |tail| ==> tail[i] != '.'
    ensures Suffix(n) == tail <==> n != tail && EndsIn(n, tail)
  {
    LastDotStands(n);
    EndsInIs(n, tail);
    var i := LastDot(n);
    if EndsWith(n, tail) {
      var k := |n| - |tail|;
      assert n[k..] == tail && n[k] == '.';
      assert forall j :: k < j < |n| ==> n[j] == tail[j - k];
      assert i == k;
    }
  }

  /** The filter lets a file through exactly if none of its names is skipped. */
  lemma KeptExactly(p: Path)
    requires p != []
    ensures Kept(p) <==> !Skipped(p)
  {
    hide Suffix, EndsWith, EndsIn;
    var last := p[|p| - 1];
    SuffixIs(last, ".pyc");
    SuffixIs(last, ".pyo");
    EggInfoIsSkipped(last);
    forall n ensures EndsWith(n, ".egg-info") <==> EndsIn(n, ".egg-info") {
      EndsInIs(n, ".egg-info");
    }
    assert last in p;
    assert forall i | 0 <= i < |p| :: p[i] in p;
    if n :| n in p && SkippedName(n) {
      var i :| 0 <= i < |p| && p[i] == n;
    }
  }

  lemma EggInfoIsSkipped(n: string)
    ensures Suffix(n) == ".egg-info" ==> EndsIn(n, ".egg-info")
  {
    EndsInIs(n, ".egg-info");
    LastDotStands(n);
  }

  // ---- entries ---------------------------------------------------------------------------------------------

  /** The entry of file `p` in an archive whose files stand below `prefix`. */
  ghost predicate EntryOf(t: Tree, prefix: string, p: Path, e: Entry) {
    && p in t && p != []
    && e.content == t[p] && e.name == (if prefix == "" then "" else prefix + "/") + Join(p)
  }

  lemma {:induction false} EntryHasFile(t: Tree, walk: seq<Path>, prefix: string, skip: set<string>, e: Entry)
    returns (p: Path)
    requires forall i :: 0 <= i < |walk| ==> walk[i] in t && walk[i] != []
    requires e in TreeEntries(t, walk, prefix, skip)
    ensures p in walk && EntryOf(t, prefix, p, e) && !Skipped(p) && Join(p) !in skip
    decreases |walk|
  {
    hide Kept, Skipped, Join;
    var front, last := walk[..|walk| - 1], walk[|walk| - 1];
    if e in TreeEntries(t, front, prefix, skip) {
      p := EntryHasFile(t, front, prefix, skip, e);
    } else {
      p := last;
      KeptExactly(last);
      assert "" + Join(p) == Join(p);
    }
  }

  lemma {:induction false} FileHasEntry(t: Tree, walk: seq<Path>, prefix: string, skip: set<string>, p: Path, e: Entry)
    requires forall i :: 0 <= i < |walk| ==> walk[i] in t && walk[i] != []
    requires p in walk && EntryOf(t, prefix, p, e) && !Skipped(p) && Join(p) !in skip
    ensures e in TreeEntries(t, walk, prefix, skip)
    decreases |walk|
  {
    hide Kept, Skipped, Join;
    var front, last := walk[..|walk| - 1], walk[|walk| - 1];
    if p == last {
      KeptExactly(last);
      assert "" + Join(p) == Join(p);
      assert e == Entry(ArcName(prefix, p), t[p]);
    } else {
      assert walk == front + [last];
      FileHasEntry(t, front, prefix, skip, p, e);
    }
  }

  lemma EntriesOfWalk(t: Tree, walk: seq<Path>, prefix: string, skip: set<string>, e: Entry)
    requires forall i :: 0 <= i < |walk| ==> walk[i] in t && walk[i] != []
    ensures e in TreeEntries(t, walk, prefix, skip)
            <==> exists p :: p in walk && EntryOf(t, prefix, p, e) && !Skipped(p) && Join(p) !in skip
  {
    hide TreeEntries, Skipped, Join;
    if e in TreeEntries(t, walk, prefix, skip) {
      var p := EntryHasFile(t, walk, prefix, skip, e);
    }
    if p :| p in walk && EntryOf(t, prefix, p, e) && !Skipped(p) && Join(p) !in skip {
      FileHasEntry(t, walk, prefix, skip, p, e);
    }
  }

  /** Of a listed tree exactly the files whose names are not skipped have an entry: their content, below the prefix. */
  lemma EntriesExactly(t: Tree, walk: seq<Path>, prefix: string, skip: set<string>, e: Entry)
    requires Lists(walk, t)
    ensures e in TreeEntries(t, walk, prefix, skip)
            <==> exists p :: EntryOf(t, prefix, p, e) && !Skipped(p) && Join(p) !in skip
  {
    hide TreeEntries, Skipped, Join;
    EntriesOfWalk(t, walk, prefix, skip, e);
  }

  // ---- the archive of a skill ----------------------------------------------------------------------------

  /** The archive's top directory: the slug, and the version if a plugin.yaml declares one. */
  ghost predicate TopOf(f: Formats, t: Tree, slug: string, top: string) {
    if ["plugin.yaml"] in t && f.yaml(t[["plugin.yaml"]]).Some? then
      var version := f.yaml(t[["plugin.yaml"]]).value.version;
      version.Some? && top == if version.value == "" then slug else slug + "-" + version.value
    else top == slug
  }

  lemma TopIs(f: Formats, t: Tree)
    requires ValidSkill(f, t)
    ensures FindWorkspace(f, t).Some? && PackName(f, t).Ok?
    ensures TopOf(f, t, FindWorkspace(f, t).value.slug, PackPrefix(PackName(f, t).value))
  {
    hide Validate, FindWorkspace, FrontmatterIssues, SkillIssues, YamlIssues;
    ValidSkillFacts(f, t);
    ValidSkillParts(f, t);
  }

  lemma JoinTwo(a: string, b: string)
    ensures Join([a, b]) == a + "/" + b
  {
    assert [a, b][1..] == [b];
  }

  lemma ReadmeIsEntry(t: Tree, top: string, e: Entry)
    ensures e in Singles(top, ReadmeOf(t)) <==>
              ["README.md"] in t && e == Entry(top + "/README.md", t[["README.md"]])
  {
    assert top + "/" + "README.md" == top + "/README.md";
  }

  lemma PackIsEntries(f: Formats, t: Tree, walk: Path -> seq<Path>)
    requires ValidSkill(f, t) && Walker(t, walk)
    ensures FindWorkspace(f, t).Some? && PackName(f, t).Ok?
    ensures var ws := FindWorkspace(f, t).value;
            && Lists(walk(ws.dir), Sub(t, ws.dir))
            && Pack(f, t, walk) == Ok(BundleEntries(PackPrefix(PackName(f, t).value), ws.slug, ReadmeOf(t),
                                                    Sub(t, ws.dir), walk(ws.dir)))
  {
    hide Validate, FindWorkspace, BundleEntries, MarketplaceVersion, FrontmatterIssues;
    ValidSkillFacts(f, t);
    var ws, named := FindWorkspace(f, t).value, PackName(f, t).value;
    PackedSkill(f, t, ws, named);
    PackIsSkillPack(f, t, walk);
    SkillPackArchive(f, t, ws, PackPrefix(named), walk);
  }

  /** Every entry of a packed skill is the README of the packed directory or a file of the skill directory whose names
      are not skipped, below the slug; and every such file is an entry. */
  lemma PackedEntries(f: Formats, t: Tree, walk: Path -> seq<Path>, e: Entry) returns (top: string)
    requires ValidSkill(f, t) && Walker(t, walk)
    ensures FindWorkspace(f, t).Some? && Pack(f, t, walk).Ok?
    ensures var ws := FindWorkspace(f, t).value;
            && TopOf(f, t, ws.slug, top)
            && (e in Pack(f, t, walk).value <==>
                  || (["README.md"] in t && e == Entry(top + "/README.md", t[["README.md"]]))
                  || exists p :: EntryOf(Sub(t, ws.dir), top + "/" + ws.slug, p, e) && !Skipped(p))
  {
    hide TreeEntries, Join, EntryOf, Skipped, ValidSkill, FindWorkspace, Sub, Pack, PackName, PackPrefix, TopOf,
         Singles, Walker, Lists;
    TopIs(f, t);
    PackIsEntries(f, t, walk);
    var ws := FindWorkspace(f, t).value;
    top := PackPrefix(PackName(f, t).value);
    JoinTwo(top, ws.slug);
    ReadmeIsEntry(t, top, e);
    EntriesExactly(Sub(t, ws.dir), walk(ws.dir), Join([top, ws.slug]), {}, e);
  }
}
