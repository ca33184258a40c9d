/** Directory trees as maps from relative file paths to contents, and zip archives as lists of named entries. */
module Trees {
  import opened Common
  import opened Text

  type Path = seq<string>
  type Content = string
  type Tree = map<Path, Content>
  datatype Entry = Entry(name: string, content: Content)
  type Archive = seq<Entry>

  /** A file name a POSIX tree can hold; names with backslashes are not considered. */
  predicate CleanName(n: string) {
    && n != "" && (n[0] == '.' ==> |n| > 2 || (|n| == 2 && n[1] != '.'))
    && forall i :: 0 <= i < |n| ==> n[i] != '/' && n[i] != '\\' && n[i] != '\0'
  }

  predicate CleanPath(p: Path) {
    p != [] && forall i :: 0 <= i < |p| ==> CleanName(p[i])
  }

  /** Every key is a file: clean, and no file lies below another. */
  predicate FileTree(t: Tree) {
    && (forall p | p in t :: CleanPath(p))
    && (forall p, q | p in t && q in t :: !(p < q))
  }

  function Below(t: Tree, d: Path): set<Path> {
    set p | p in t && d < p :: p[|d|..]
  }

  /** The files below directory `d`. */
  function Sub(t: Tree, d: Path): Tree {
    map r | r in Below(t, d) && d + r in t :: t[d + r]
  }

  lemma InSub(t: Tree, d: Path, r: Path)
    ensures r in Sub(t, d) <==> r != [] && d + r in t
    ensures r in Sub(t, d) ==> Sub(t, d)[r] == t[d + r]
  {
    if r != [] && d + r in t {
      assert (d + r)[|d|..] == r;
      assert d < d + r;
    }
  }

  lemma SubTree(t: Tree, d: Path)
    requires FileTree(t)
    ensures FileTree(Sub(t, d))
  {
    forall r | r in Sub(t, d)
      ensures CleanPath(r)
    {
      InSub(t, d, r);
      forall i | 0 <= i < |r|
        ensures CleanName(r[i])
      {
        assert (d + r)[|d| + i] == r[i];
      }
    }
    forall r, r' | r in Sub(t, d) && r' in Sub(t, d)
      ensures !(r < r')
    {
      InSub(t, d, r);
      InSub(t, d, r');
      assert r < r' ==> d + r < d + r';
    }
  }

  /** `t` moved into directory `d`. */
  function Place(d: Path, t: Tree): Tree {
    map p | p in (set q | q in t :: d + q) && |d| <= |p| && p[|d|..] in t :: t[p[|d|..]]
  }

  lemma InPlace(d: Path, t: Tree, p: Path)
    ensures p in Place(d, t) <==> d <= p && p[|d|..] in t
    ensures p in Place(d, t) ==> Place(d, t)[p] == t[p[|d|..]]
  {
    if d <= p && p[|d|..] in t {
      assert p == d + p[|d|..];
    }
    if p in Place(d, t) {
      var q :| q in t && p == d + q;
      assert p[|d|..] == q;
    }
  }

  lemma SubPlace(d: Path, t: Tree)
    requires [] !in t
    ensures Sub(Place(d, t), d) == t
  {
    forall r
      ensures r in Sub(Place(d, t), d) <==> r in t
      ensures r in t ==> Sub(Place(d, t), d)[r] == t[r]
    {
      InSub(Place(d, t), d, r);
      InPlace(d, t, d + r);
      assert (d + r)[|d|..] == r;
    }
  }

  predicate Exists(t: Tree, p: Path) {
    p in t || exists q :: q in t && p < q
  }

  /** `tops` of the extracted root: its directories that are not hidden. */
  function TopDirs(t: Tree): set<string> {
    set p | p in t && |p| > 1 && !Hidden(p[0]) :: p[0]
  }

  predicate Hidden(n: string) {
    n != "" && n[0] == '.'
  }

  // ---- Extraction ----

  /** `posixpath.normpath` of a relative name, as components. */
  function NormParts(parts: seq<string>, done: seq<string>): seq<string> {
    if parts == [] then done
    else
      var c := parts[0];
      if c == "" || c == "." then NormParts(parts[1..], done)
      else if c != ".." || done == [] || done[|done| - 1] == ".." then NormParts(parts[1..], done + [c])
      else NormParts(parts[1..], done[..|done| - 1])
  }

  function ToPosix(name: string): string {
    seq(|name|, i requires 0 <= i < |name| => if name[i] == '\\' then '/' else name[i])
  }

  predicate Letter(c: char) {
    'a' <= c <= 'z' || 'A' <= c <= 'Z'
  }

  /** What `_safe_extractall` lets through. */
  predicate SafeName(name: string) {
    && name != "" && '\0' !in name
    && var norm := ToPosix(name);
    && norm[0] != '/'
    && !(|norm| >= 2 && Letter(norm[0]) && norm[1] == ':')
    && var parts := NormParts(Split(norm), []);
    && parts != [] && ".." !in parts
  }

  function Meaningful(parts: seq<string>): Path {
    if parts == [] then []
    else if parts[0] == "" || parts[0] == "." || parts[0] == ".." then Meaningful(parts[1..])
    else [parts[0]] + Meaningful(parts[1..])
  }

  /** Where `extractall` writes a member. */
  function Target(name: string): Path {
    Meaningful(Split(name))
  }

  function Write(t: Tree, entries: Archive): Tree
    decreases |entries|
  {
    if entries == [] then t
    else
      var e := entries[|entries| - 1];
      Write(t, entries[..|entries| - 1])[Target(e.name) := e.content]
  }

  /** Nothing is written unless every name is safe; of two entries with one target the later stays. */
  function Extract(entries: Archive): Option<Tree> {
    if forall i :: 0 <= i < |entries| ==> SafeName(entries[i].name) then Some(Write(map[], entries)) else None
  }

  // ---- Clean names survive the trip through a zip ----

  lemma {:induction false} NormPartsClean(parts: seq<string>, done: seq<string>)
    requires forall i :: 0 <= i < |parts| ==> CleanName(parts[i])
    ensures NormParts(parts, done) == done + parts
  {
    if parts != [] {
      NormPartsClean(parts[1..], done + [parts[0]]);
      assert done + [parts[0]] + parts[1..] == done + parts;
    } else {
      assert done + parts == done;
    }
  }

  lemma {:induction false} MeaningfulClean(parts: seq<string>)
    requires forall i :: 0 <= i < |parts| ==> CleanName(parts[i])
    ensures Meaningful(parts) == parts
  {
    if parts != [] {
      MeaningfulClean(parts[1..]);
    }
  }

  lemma JoinClean(p: Path, c: char)
    requires CleanPath(p) && (c == '\\' || c == '\0')
    ensures c !in Join(p)
  {
    forall i | 0 <= i < |p|
      ensures c !in p[i]
    {
      assert CleanName(p[i]);
    }
    if c in Join(p) {
      JoinChars(p, c);
    }
  }

  predicate NoDrive(n: string) {
    |n| >= 2 ==> n[1] != ':'
  }

  /** A clean path, written as a zip entry name, is accepted and read back as the same path. */
  lemma CleanNameExtracts(p: Path)
    requires CleanPath(p) && NoDrive(p[0])
    ensures SafeName(Join(p)) && Target(Join(p)) == p
  {
    var name := Join(p);
    JoinClean(p, '\\');
    JoinClean(p, '\0');
    assert ToPosix(name) == name;
    SplitJoin(p);
    NormPartsClean(p, []);
    MeaningfulClean(p);
    assert [] + p == p;
    assert name[0] == p[0][0];
    if |name| >= 2 && |p[0]| == 1 {
      assert |p| > 1 && name == p[0] + "/" + Join(p[1..]);
      assert name[1] == '/';
    }
  }
}
