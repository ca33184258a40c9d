/** Which entry names are let through, where an entry lands, and what an archive extracts to. */
module TreeLaws {
  import opened Text
  import opened Trees
  import opened SkillBundle

  // ---- white space ---------------------------------------------------------------------------------------

  /** The characters `str.strip` takes off. */
  predicate AllWhite(s: string) {
    forall c | c in s :: c as int in {0x09, 0x0a, 0x0b, 0x0c, 0x0d, 0x1c, 0x1d, 0x1e, 0x1f, 0x20, 0x85, 0xa0, 0x1680,
                                      0x2000, 0x2001, 0x2002, 0x2003, 0x2004, 0x2005, 0x2006, 0x2007, 0x2008, 0x2009,
                                      0x200a, 0x2028, 0x2029, 0x202f, 0x205f, 0x3000}
  }

  lemma SpaceIsWhite(c: char)
    ensures IsSpace(c) <==> AllWhite([c])
  {
    assert c in [c];
  }

  lemma {:induction false} SpacesAreWhite(s: string)
    requires forall i :: 0 <= i < |s| ==> IsSpace(s[i])
    ensures AllWhite(s)
  {
    hide IsSpace;
    if s != "" {
      SpacesAreWhite(s[1..]);
      SpaceIsWhite(s[0]);
      assert s == [s[0]] + s[1..];
    }
  }

  /** White space goes at both ends and nothing else: what is left neither begins nor ends with any. */
  lemma StripIs(s: string) returns (a: string, b: string)
    ensures s == a + Strip(s) + b && AllWhite(a) && AllWhite(b)
    ensures Strip(s) != "" ==> !AllWhite(Strip(s)[..1]) && !AllWhite(Strip(s)[|Strip(s)| - 1..])
  {
    hide IsSpace, AllWhite, StripLeft, StripRight;
    var left := StripLeft(s);
    var r := Strip(s);
    StripLeftCuts(s);
    StripRightCuts(left);
    a, b := s[..|s| - |left|], left[|r|..];
    SpacesAreWhite(a);
    SpacesAreWhite(b);
    assert left == r + b && s == a + left;
    assert s == a + (r + b) == a + r + b;
    StripEnds(s);
    if r != "" {
      SpaceIsWhite(r[0]);
      SpaceIsWhite(r[|r| - 1]);
      assert r[..1] == [r[0]] && r[|r| - 1..] == [r[|r| - 1]];
    }
  }

  // ---- names that stay inside ----------------------------------------------------------------------------

  /** Walking the components from depth `d` never climbs out, and ends below the start. */
  predicate StaysInside(parts: seq<string>, d: nat) {
    if parts == [] then d > 0
    else if parts[0] == "" || parts[0] == "." then StaysInside(parts[1..], d)
    else if parts[0] == ".." then d > 0 && StaysInside(parts[1..], d - 1)
    else StaysInside(parts[1..], d + 1)
  }

  lemma {:induction false} OutsideStays(parts: seq<string>, done: seq<string>)
    requires done != [] && done[0] == ".."
    ensures ".." in NormParts(parts, done)
  {
    if parts != [] {
      var c := parts[0];
      if c == "" || c == "." {
        OutsideStays(parts[1..], done);
      } else if c != ".." || done[|done| - 1] == ".." {
        OutsideStays(parts[1..], done + [c]);
      } else {
        OutsideStays(parts[1..], done[..|done| - 1]);
      }
    }
  }

  lemma {:induction false} NormInside(parts: seq<string>, done: seq<string>)
    requires ".." !in done
    ensures NormParts(parts, done) != [] && ".." !in NormParts(parts, done) <==> StaysInside(parts, |done|)
  {
    if parts != [] {
      var c := parts[0];
      if c == "" || c == "." {
        NormInside(parts[1..], done);
      } else if c == ".." && done == [] {
        OutsideStays(parts[1..], [".."]);
        assert done + [c] == [".."];
      } else if c == ".." {
        NormInside(parts[1..], done[..|done| - 1]);
      } else {
        NormInside(parts[1..], done + [c]);
      }
    }
  }

  /** An entry is let through exactly if its name is not empty, has no NUL, is not absolute, names no drive and stays
      inside the directory, backslashes read as slashes. */
  lemma SafeNameExactly(name: string)
    ensures SafeName(name) <==>
              && name != "" && '\0' !in name && name[0] != '/' && name[0] != '\\'
              && !(|name| >= 2 && ('a' <= name[0] <= 'z' || 'A' <= name[0] <= 'Z') && name[1] == ':')
              && StaysInside(Split(ToPosix(name)), 0)
  {
    NormInside(Split(ToPosix(name)), []);
  }

  lemma PosixIs(name: string)
    ensures |ToPosix(name)| == |name|
    ensures forall i :: 0 <= i < |name| ==> ToPosix(name)[i] == if name[i] == '\\' then '/' else name[i]
  {
  }

  // ---- where an entry lands ------------------------------------------------------------------------------

  lemma {:induction false} SplitJoins(a: string, b: string)
    ensures Split(a + "/" + b) == Split(a) + Split(b)
    decreases |a|
  {
    var i := IndexOf(a, '/');
    if i == |a| {
      NoneBefore(a, '/');
      IndexOfSkips(a, '/', "/" + b);
      assert a + "/" + b == a + ("/" + b);
      assert (a + "/" + b)[..|a|] == a && (a + "/" + b)[|a| + 1..] == b;
    } else {
      FirstStands(a, '/');
      IndexOfSkips(a[..i], '/', a[i..] + "/" + b);
      assert a + "/" + b == a[..i] + (a[i..] + "/" + b);
      assert (a + "/" + b)[..i] == a[..i] && (a + "/" + b)[i + 1..] == a[i + 1..] + "/" + b;
      SplitJoins(a[i + 1..], b);
      assert [a[..i]] + (Split(a[i + 1..]) + Split(b)) == [a[..i]] + Split(a[i + 1..]) + Split(b);
    }
  }

  lemma {:induction false} FirstStands(s: string, c: char)
    requires IndexOf(s, c) < |s|
    ensures s[IndexOf(s, c)] == c && c !in s[..IndexOf(s, c)]
  {
    if s[0] != c {
      FirstStands(s[1..], c);
      assert s[..IndexOf(s, c)] == [s[0]] + s[1..][..IndexOf(s[1..], c)];
    }
  }

  lemma {:induction false} NoneBefore(s: string, c: char)
    requires IndexOf(s, c) == |s|
    ensures c !in s
  {
    if s != "" {
      NoneBefore(s[1..], c);
      assert s == [s[0]] + s[1..];
    }
  }

  lemma {:induction false} MeaningfulJoins(a: seq<string>, b: seq<string>)
    ensures Meaningful(a + b) == Meaningful(a) + Meaningful(b)
  {
    if a == [] {
      assert a + b == b;
    } else {
      assert (a + b)[0] == a[0] && (a + b)[1..] == a[1..] + b;
      MeaningfulJoins(a[1..], b);
    }
  }

  /** The path of a joined name is that of its parts, one after the other. */
  lemma TargetJoins(a: string, b: string)
    ensures Target(a + "/" + b) == Target(a) + Target(b)
  {
    SplitJoins(a, b);
    MeaningfulJoins(Split(a), Split(b));
  }

  /** A single component stands for itself, or for nothing if it is empty or dots. */
  lemma TargetOfOne(n: string)
    requires '/' !in n
    ensures Target(n) == if n in {"", ".", ".."} then [] else [n]
  {
    IndexOfSkips(n, '/', "");
    assert n + "" == n;
    assert Split(n) == [n] && [n][1..] == [];
    assert Meaningful([n]) == if n in {"", ".", ".."} then [] else [n] + Meaningful([]);
  }

  /** An archive extracts if every name is let through; every entry lands where its name says, the last one stays. */
  lemma {:induction false} WrittenExactly(t: Tree, zip: Archive, p: Path) returns (i: nat)
    ensures p in Write(t, zip) <==> p in t || exists j :: 0 <= j < |zip| && Target(zip[j].name) == p
    ensures p in Write(t, zip) && (exists j :: 0 <= j < |zip| && Target(zip[j].name) == p) ==>
              && i < |zip| && Target(zip[i].name) == p && Write(t, zip)[p] == zip[i].content
              && forall j :: i < j < |zip| ==> Target(zip[j].name) != p
    decreases |zip|
  {
    hide Target;
    i := 0;
    if zip != [] {
      var front, k := zip[..|zip| - 1], |zip| - 1;
      var m := WrittenExactly(t, front, p);
      assert forall j :: 0 <= j < k ==> front[j] == zip[j];
      i := if Target(zip[k].name) == p then k else m;
      assert Target(zip[k].name) == p ==> 0 <= k < |zip|;
    }
  }

  lemma ExtractsExactly(zip: Archive, p: Path) returns (i: nat)
    ensures Extract(zip).Some? <==> forall e | e in zip :: SafeName(e.name)
    ensures Extract(zip).Some? ==>
              var x := Extract(zip).value;
              && (p in x <==> exists j :: 0 <= j < |zip| && Target(zip[j].name) == p)
              && (p in x ==> i < |zip| && Target(zip[i].name) == p && x[p] == zip[i].content
                             && forall j :: i < j < |zip| ==> Target(zip[j].name) != p)
  {
    hide SafeName, Target, Write;
    i := WrittenExactly(map[], zip, p);
  }

  // ---- the prefix below which a tree is packed -----------------------------------------------------------

  lemma {:induction false} StripSlashesIs(s: string) returns (a: string, b: string)
    ensures s == a + StripSlashes(s) + b && (forall c | c in a || c in b :: c == '/')
    ensures var r := StripSlashes(s); r != "" ==> r[0] != '/' && r[|r| - 1] != '/'
    decreases |s|
  {
    a, b := "", "";
    if s != "" && s[0] == '/' {
      a, b := StripSlashesIs(s[1..]);
      assert s == [s[0]] + s[1..];
      assert s == ([s[0]] + a) + StripSlashes(s) + b;
      a := [s[0]] + a;
    } else if s != "" && s[|s| - 1] == '/' {
      a, b := StripSlashesIs(s[..|s| - 1]);
      assert s == s[..|s| - 1] + [s[|s| - 1]];
      assert s == a + StripSlashes(s) + (b + [s[|s| - 1]]);
      b := b + [s[|s| - 1]];
    }
  }

  /** White space around it, backslashes and slashes at either end of a prefix make no difference. */
  lemma PrefixIs(prefix: string) returns (a: string, b: string)
    ensures ToPosix(Strip(prefix)) == a + ArcPrefix(prefix) + b && (forall c | c in a || c in b :: c == '/')
    ensures var r := ArcPrefix(prefix); r != "" ==> r[0] != '/' && r[|r| - 1] != '/'
  {
    a, b := StripSlashesIs(ToPosix(Strip(prefix)));
  }
}
