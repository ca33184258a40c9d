/** What a packed skill bundle is once extracted: one directory of kept files beside a few single files. */
module BundleArchive {
  import opened Common
  import opened Text
  import opened Trees
  import opened SkillBundle

  /** The directory `name` holding `files`, beside single files. */
  function Bundle(name: string, files: Tree, extras: map<string, Content>): Tree {
    map q | q in Place([name], files).Keys + (set e | e in extras :: [e]) ::
      if q in Place([name], files) then Place([name], files)[q]
      else if q != [] && q[0] in extras then extras[q[0]] else ""
  }

  lemma InBundle(name: string, files: Tree, extras: map<string, Content>, q: Path)
    requires name !in extras
    ensures q in Bundle(name, files, extras) <==>
              (q != [] && q[0] == name && q[1..] in files) || (|q| == 1 && q[0] in extras)
    ensures q in Bundle(name, files, extras) ==>
              Bundle(name, files, extras)[q] == if q[0] == name then files[q[1..]] else extras[q[0]]
  {
    InPlace([name], files, q);
    if q != [] && q[0] == name {
      assert [name] <= q;
    }
    if |q| == 1 && q[0] in extras {
      assert q == [q[0]];
    }
  }

  lemma BundleSub(name: string, files: Tree, extras: map<string, Content>)
    requires name !in extras && [] !in files
    ensures Sub(Bundle(name, files, extras), [name]) == files
  {
    var b := Bundle(name, files, extras);
    forall r
      ensures r in Sub(b, [name]) <==> r in files
      ensures r in files ==> Sub(b, [name])[r] == files[r]
    {
      InSub(b, [name], r);
      InBundle(name, files, extras, [name] + r);
      assert ([name] + r)[1..] == r;
    }
  }

  // ---- Writing the entries back ----

  lemma {:induction false} WriteAppend(t: Tree, a: Archive, b: Archive)
    ensures Write(t, a + b) == Write(Write(t, a), b)
    decreases |b|
  {
    if b == [] {
      assert a + b == a;
    } else {
      assert (a + b)[..|a + b| - 1] == a + b[..|b| - 1];
      WriteAppend(t, a, b[..|b| - 1]);
    }
  }

  lemma {:induction false} JoinAppend(a: Path, b: Path)
    requires a != [] && b != []
    ensures Join(a + b) == Join(a) + "/" + Join(b)
  {
    if |a| == 1 {
      assert (a + b)[1..] == b;
    } else {
      assert (a + b)[1..] == a[1..] + b;
      JoinAppend(a[1..], b);
      assert a[0] + "/" + (Join(a[1..]) + "/" + Join(b)) == a[0] + "/" + Join(a[1..]) + "/" + Join(b);
    }
  }

  ghost predicate GoodPrefix(d: Path) {
    CleanPath(d) && NoDrive(d[0])
  }

  lemma EntryExtracts(d: Path, p: Path)
    requires GoodPrefix(d) && CleanPath(p)
    ensures SafeName(ArcName(Join(d), p)) && Target(ArcName(Join(d), p)) == d + p
  {
    JoinAppend(d, p);
    forall i | 0 <= i < |d + p|
      ensures CleanName((d + p)[i])
    {
      assert (d + p)[i] == if i < |d| then d[i] else p[i - |d|];
    }
    assert CleanPath(d + p);
    CleanNameExtracts(d + p);
    assert CleanName(d[0]) && Join(d) != "";
  }

  lemma {:induction false} EntriesSafe(t: Tree, walk: seq<Path>, d: Path)
    requires FileTree(t) && GoodPrefix(d)
    requires forall i :: 0 <= i < |walk| ==> walk[i] in t && walk[i] != []
    ensures forall e | e in TreeEntries(t, walk, Join(d), {}) :: SafeName(e.name)
    decreases |walk|
  {
    if walk != [] {
      EntriesSafe(t, walk[..|walk| - 1], d);
      EntryExtracts(d, walk[|walk| - 1]);
    }
  }

  lemma LastEntryWritten(base: Tree, t: Tree, walk: seq<Path>, d: Path)
    requires FileTree(t) && GoodPrefix(d) && walk != []
    requires forall i :: 0 <= i < |walk| ==> walk[i] in t && walk[i] != []
    ensures var front, p := walk[..|walk| - 1], walk[|walk| - 1];
            var before := Write(base, TreeEntries(t, front, Join(d), {}));
            Write(base, TreeEntries(t, walk, Join(d), {})) == if Kept(p) then before[d + p := t[p]] else before
  {
    hide Target, SafeName, ArcName, Kept, Join;
    var front, p := walk[..|walk| - 1], walk[|walk| - 1];
    EntryExtracts(d, p);
    var before := TreeEntries(t, front, Join(d), {});
    if Kept(p) {
      assert (before + [Entry(ArcName(Join(d), p), t[p])])[..|before|] == before;
    }
  }

  /** At `q`, `w` is what `base` is once the kept files of `walk` have landed below `d`. */
  ghost predicate Landed(base: Tree, t: Tree, walk: seq<Path>, d: Path, q: Path, w: Tree)
    requires forall i :: 0 <= i < |walk| ==> walk[i] in t && walk[i] != []
  {
    var packed := d <= q && q[|d|..] in walk && Kept(q[|d|..]);
    && (q in w <==> q in base || packed)
    && (q in w ==> w[q] == if packed then t[q[|d|..]] else base[q])
  }

  lemma NothingLands(base: Tree, t: Tree, prefix: string, d: Path, q: Path)
    ensures Landed(base, t, [], d, q, Write(base, TreeEntries(t, [], prefix, {})))
  {
  }

  lemma OneMoreLands(base: Tree, t: Tree, front: seq<Path>, p: Path, d: Path, q: Path, before: Tree)
    requires forall i :: 0 <= i < |front| ==> front[i] in t && front[i] != []
    requires p in t && p != [] && Landed(base, t, front, d, q, before)
    ensures Landed(base, t, front + [p], d, q, if Kept(p) then before[d + p := t[p]] else before)
  {
    hide Kept;
    assert (d + p)[|d|..] == p;
    if d <= q {
      assert q == d + q[|d|..];
    }
  }

  /** Extracting the entries of a tree adds its kept files below the prefix, and nothing else. */
  lemma {:induction false} EntriesWritten(base: Tree, t: Tree, walk: seq<Path>, d: Path, q: Path)
    requires FileTree(t) && GoodPrefix(d)
    requires forall i :: 0 <= i < |walk| ==> walk[i] in t && walk[i] != []
    ensures Landed(base, t, walk, d, q, Write(base, TreeEntries(t, walk, Join(d), {})))
    decreases |walk|
  {
    hide Landed, TreeEntries, Write, FileTree, Kept, Join;
    if walk == [] {
      NothingLands(base, t, Join(d), d, q);
    } else {
      var front, p := walk[..|walk| - 1], walk[|walk| - 1];
      EntriesWritten(base, t, front, d, q);
      LastEntryWritten(base, t, walk, d);
      OneMoreLands(base, t, front, p, d, q, Write(base, TreeEntries(t, front, Join(d), {})));
      assert walk == front + [p];
    }
  }

  lemma PlacedBundle(top: string, name: string, files: Tree, extras: map<string, Content>, q: Path)
    requires name !in extras
    ensures var x := Place([top], Bundle(name, files, extras));
            var inside := [top, name] <= q && q[2..] in files;
            && (q in x <==> inside || (|q| == 2 && q[0] == top && q[1] in extras))
            && (q in x ==> x[q] == if inside then files[q[2..]] else extras[q[1]])
  {
    InPlace([top], Bundle(name, files, extras), q);
    if q != [] {
      InBundle(name, files, extras, q[1..]);
      if |q| >= 2 {
        assert q[1..][1..] == q[2..];
        assert [top] <= q <==> q[0] == top;
        assert [top, name] <= q <==> q[0] == top && q[1] == name;
      }
    }
  }

  lemma WrittenAt(singles: Archive, top: string, name: string, extras: map<string, Content>, t: Tree,
                  walk: seq<Path>, q: Path)
    requires FileTree(t) && Lists(walk, t) && GoodPrefix([top, name]) && name !in extras
    requires Write(map[], singles) == Place([top], Bundle(name, map[], extras))
    ensures var w := Write(Write(map[], singles), TreeEntries(t, walk, Join([top, name]), {}));
            var x := Place([top], Bundle(name, KeptFiles(t), extras));
            (q in w <==> q in x) && (q in w ==> w[q] == x[q])
  {
    EntriesWritten(Write(map[], singles), t, walk, [top, name], q);
    PlacedBundle(top, name, map[], extras, q);
    PlacedBundle(top, name, KeptFiles(t), extras, q);
  }

  lemma SameTree(a: Tree, b: Tree)
    requires forall q :: q in a <==> q in b
    requires forall q | q in a :: q in b && a[q] == b[q]
    ensures a == b
  {
  }

  lemma BundleSafe(singles: Archive, top: string, name: string, t: Tree, walk: seq<Path>)
    requires FileTree(t) && Lists(walk, t) && GoodPrefix([top, name])
    requires forall e | e in singles :: SafeName(e.name)
    ensures var zip := singles + TreeEntries(t, walk, Join([top, name]), {});
            forall i :: 0 <= i < |zip| ==> SafeName(zip[i].name)
  {
    EntriesSafe(t, walk, [top, name]);
  }

  lemma BundleWritten(singles: Archive, top: string, name: string, extras: map<string, Content>, t: Tree,
                      walk: seq<Path>)
    requires FileTree(t) && Lists(walk, t) && GoodPrefix([top, name]) && name !in extras
    requires Write(map[], singles) == Place([top], Bundle(name, map[], extras))
    ensures Write(map[], singles + TreeEntries(t, walk, Join([top, name]), {}))
            == Place([top], Bundle(name, KeptFiles(t), extras))
  {
    var files := TreeEntries(t, walk, Join([top, name]), {});
    WriteAppend(map[], singles, files);
    forall q {
      WrittenAt(singles, top, name, extras, t, walk, q);
    }
    SameTree(Write(Write(map[], singles), files), Place([top], Bundle(name, KeptFiles(t), extras)));
  }

  /**
   Single files below `top`, then the entries of a listed tree below `top/name`: extracted, they are the bundle
   of the tree's kept files, in directory `top`.
   */
  lemma BundleExtracts(singles: Archive, top: string, name: string, extras: map<string, Content>, t: Tree,
                       walk: seq<Path>)
    requires FileTree(t) && Lists(walk, t) && GoodPrefix([top, name]) && name !in extras
    requires forall e | e in singles :: SafeName(e.name)
    requires Write(map[], singles) == Place([top], Bundle(name, map[], extras))
    ensures Extract(singles + TreeEntries(t, walk, Join([top, name]), {}))
            == Some(Place([top], Bundle(name, KeptFiles(t), extras)))
  {
    BundleSafe(singles, top, name, t, walk);
    BundleWritten(singles, top, name, extras, t, walk);
  }
}
