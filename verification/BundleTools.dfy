/** The steps of the bundle tools that work by loops and by writing to disk. */
module BundleTools {
  import opened Common
  import opened Text
  import opened Trees
  import opened SkillBundle
  import opened BundleFilter

  lemma NextEntry(t: Tree, walk: seq<Path>, i: nat, prefix: string, skip: set<string>)
    requires i < |walk| && forall k :: 0 <= k < |walk| ==> walk[k] in t && walk[k] != []
    ensures var before := TreeEntries(t, walk[..i], prefix, skip);
            TreeEntries(t, walk[..i + 1], prefix, skip)
            == if Kept(walk[i]) && Join(walk[i]) !in skip then before + [Entry(ArcName(prefix, walk[i]), t[walk[i]])]
               else before
  {
    assert walk[..i + 1][..i] == walk[..i];
  }

  lemma IsSkillDir(t: Tree, n: string)
    ensures n in SkillDirs(t) <==> [n, "SKILL.md"] in t && !Hidden(n)
  {
    if [n, "SKILL.md"] in t && !Hidden(n) {
      assert [n, "SKILL.md"][0] == n;
    }
    if p :| p in t && |p| == 2 && p[1] == "SKILL.md" && !Hidden(p[0]) && p[0] == n {
      assert p == [n, "SKILL.md"];
    }
  }

  class ZipFile {
    var entries: Archive

    constructor ()
      ensures entries == []
    {
      entries := [];
    }

    /** `plugin_zip_write_directory_tree`. */
    method WriteDirectoryTree(t: Tree, walk: seq<Path>, arcnamePrefix: string,
                              skipRelative: set<string>) returns (n: nat)
      requires forall i :: 0 <= i < |walk| ==> walk[i] in t && walk[i] != []
      modifies this
      ensures entries == old(entries) + TreeEntries(t, walk, ArcPrefix(arcnamePrefix), skipRelative)
      ensures n == |TreeEntries(t, walk, ArcPrefix(arcnamePrefix), skipRelative)|
      ensures forall e :: e in entries[|old(entries)|..] <==>
                exists p :: p in walk && EntryOf(t, ArcPrefix(arcnamePrefix), p, e) && !Skipped(p)
                            && Join(p) !in skipRelative
    {
      forall e {
        EntriesOfWalk(t, walk, ArcPrefix(arcnamePrefix), skipRelative, e);
      }
      n := WriteKept(t, walk, ArcPrefix(arcnamePrefix), skipRelative);
    }

    method WriteKept(t: Tree, walk: seq<Path>, prefix: string, skipRelative: set<string>) returns (n: nat)
      requires forall i :: 0 <= i < |walk| ==> walk[i] in t && walk[i] != []
      modifies this
      ensures entries == old(entries) + TreeEntries(t, walk, prefix, skipRelative)
      ensures n == |TreeEntries(t, walk, prefix, skipRelative)|
    {
      assert walk[..0] == [] && TreeEntries(t, [], prefix, skipRelative) == [];
      hide TreeEntries, Kept, Join, ArcName, EntryOf, Skipped;
      n := 0;
      for i := 0 to |walk|
        invariant entries == old(entries) + TreeEntries(t, walk[..i], prefix, skipRelative)
        invariant n == |TreeEntries(t, walk[..i], prefix, skipRelative)|
      {
        NextEntry(t, walk, i, prefix, skipRelative);
        var p := walk[i];
        if Kept(p) && Join(p) !in skipRelative {
          entries := entries + [Entry(ArcName(prefix, p), t[p])];
          n := n + 1;
        }
      }
      assert walk[..|walk|] == walk;
    }
  }

  lemma {:induction false} EachOnce(dirs: set<string>, found: seq<string>)
    requires forall n :: n in found <==> n in dirs
    requires forall i, j :: 0 <= i < j < |found| ==> found[i] != found[j]
    ensures |dirs| == |found|
    decreases |found|
  {
    if found != [] {
      var front, last := found[..|found| - 1], found[|found| - 1];
      assert found == front + [last];
      EachOnce(dirs - {last}, front);
    }
  }

  lemma OnlyFound(dirs: set<string>, found: seq<string>)
    requires forall n :: n in found <==> n in dirs
    requires forall i, j :: 0 <= i < j < |found| ==> found[i] != found[j]
    ensures Only(dirs) == if |found| == 1 then Some(found[0]) else None
  {
    EachOnce(dirs, found);
    if |found| == 1 {
      assert found[0] in found;
      assert dirs == {found[0]};
    }
  }

  /** `_find_skill_subdirectory`: `children` lists the names found at the root, each once. */
  method FindSkillSubdirectory(t: Tree, children: seq<string>) returns (r: Option<string>)
    requires forall p | p in t && p != [] :: p[0] in children
    requires forall i, j :: 0 <= i < j < |children| ==> children[i] != children[j]
    ensures r == SkillSubdirectory(t)
  {
    var found: seq<string> := [];
    for i := 0 to |children|
      invariant forall n :: n in found <==> n in children[..i] && n in SkillDirs(t)
      invariant forall j, k :: 0 <= j < k < |found| ==> found[j] != found[k]
    {
      var child := children[i];
      IsSkillDir(t, child);
      assert children[..i + 1] == children[..i] + [child];
      assert child !in children[..i];
      if [child, "SKILL.md"] in t && !Hidden(child) {
        found := found + [child];
      }
    }
    assert children[..|children|] == children;
    OnlyFound(SkillDirs(t), found);
    r := if |found| != 1 then None else Some(found[0]);
  }

  /** The directories below an install destination, with their files. */
  class Destination {
    var dirs: map<string, Tree>

    /** `_install_skill_from_staging`: copies the whole staged directory, replacing the old one only by force. */
    method InstallSkill(source: Tree, slug: string, force: bool) returns (r: Result<string>)
      modifies this
      ensures SKILL_MD !in source ==> r == Err(NotASkill)
      ensures SKILL_MD in source && slug in old(dirs) && !force ==> r == Err(DestinationExists)
      ensures SKILL_MD in source && (slug !in old(dirs) || force) ==> r == Ok(slug)
      ensures dirs == if r.Ok? then old(dirs)[slug := source] else old(dirs)
    {
      if SKILL_MD !in source {
        return Err(NotASkill);
      }
      if slug in dirs {
        if !force {
          return Err(DestinationExists);
        }
        dirs := dirs - {slug};
      }
      dirs := dirs[slug := source];
      r := Ok(slug);
    }
  }
}
