/** The string operations the bundle code relies on: strip, split and join on '/', slugs and versions. */
module Text {

  /** `str.isspace` for one character. */
  predicate IsSpace(c: char) {
    var n := c as int;
    || 0x09 <= n <= 0x0d || 0x1c <= n <= 0x20 || n == 0x85 || n == 0xa0 || n == 0x1680
    || 0x2000 <= n <= 0x200a || n == 0x2028 || n == 0x2029 || n == 0x202f || n == 0x205f || n == 0x3000
  }

  function StripLeft(s: string): string {
    if s != "" && IsSpace(s[0]) then StripLeft(s[1..]) else s
  }

  function StripRight(s: string): string {
    if s != "" && IsSpace(s[|s| - 1]) then StripRight(s[..|s| - 1]) else s
  }

  function Strip(s: string): string {
    StripRight(StripLeft(s))
  }

  lemma {:induction false} StripLeftCuts(s: string)
    ensures var r := StripLeft(s);
            && |r| <= |s| && r == s[|s| - |r|..] && (r != "" ==> !IsSpace(r[0]))
            && forall i :: 0 <= i < |s| - |r| ==> IsSpace(s[i])
  {
    hide IsSpace;
    if s != "" && IsSpace(s[0]) {
      StripLeftCuts(s[1..]);
      var r := StripLeft(s);
      forall i | 0 < i < |s| - |r| ensures IsSpace(s[i]) {
        assert s[i] == s[1..][i - 1];
      }
    }
  }

  lemma {:induction false} StripRightCuts(s: string)
    ensures var r := StripRight(s);
            && |r| <= |s| && r == s[..|r|] && (r != "" ==> !IsSpace(r[|r| - 1]))
            && forall i :: |r| <= i < |s| ==> IsSpace(s[i])
  {
    hide IsSpace;
    if s != "" && IsSpace(s[|s| - 1]) {
      StripRightCuts(s[..|s| - 1]);
    }
  }

  /** Every character of a string is a space or belongs to its stripped form. */
  lemma StripSplits(s: string, i: nat)
    requires i < |s|
    ensures IsSpace(s[i]) || s[i] in Strip(s)
  {
    hide IsSpace;
    StripLeftCuts(s);
    StripRightCuts(StripLeft(s));
    var left := StripLeft(s);
    var d := |s| - |left|;
    if i >= d && i - d < |Strip(s)| {
      assert s[i] == left[i - d] == Strip(s)[i - d];
    }
  }

  lemma StripEnds(s: string)
    ensures Strip(s) != "" ==> !IsSpace(Strip(s)[0]) && !IsSpace(Strip(s)[|Strip(s)| - 1])
  {
    hide IsSpace;
    StripLeftCuts(s);
    StripRightCuts(StripLeft(s));
  }

  /** A string with no space at either end is its own stripped form. */
  lemma StripKeeps(s: string)
    requires s == "" || (!IsSpace(s[0]) && !IsSpace(s[|s| - 1]))
    ensures Strip(s) == s
  {
  }

  // ---- '/'-separated names ----

  /** Where `c` first stands in `s`, or the length of `s`. */
  function IndexOf(s: string, c: char): (i: nat)
    ensures i <= |s|
  {
    if s == "" || s[0] == c then 0 else 1 + IndexOf(s[1..], c)
  }

  lemma {:induction false} IndexOfSkips(a: string, c: char, b: string)
    requires c !in a && (b == "" || b[0] == c)
    ensures IndexOf(a + b, c) == |a|
  {
    if a == "" {
      assert a + b == b;
    } else {
      assert (a + b)[1..] == a[1..] + b && (a + b)[0] == a[0];
      IndexOfSkips(a[1..], c, b);
    }
  }

  function Split(s: string): (parts: seq<string>)
    ensures parts != []
    decreases |s|
  {
    var i := IndexOf(s, '/');
    if i == |s| then [s] else [s[..i]] + Split(s[i + 1..])
  }

  function Join(parts: seq<string>): string
    requires parts != []
  {
    if |parts| == 1 then parts[0] else parts[0] + "/" + Join(parts[1..])
  }

  lemma {:induction false} SplitJoin(parts: seq<string>)
    requires parts != [] && forall i :: 0 <= i < |parts| ==> '/' !in parts[i]
    ensures Split(Join(parts)) == parts
  {
    var s := Join(parts);
    if |parts| == 1 {
      IndexOfSkips(s, '/', "");
      assert s + "" == s;
    } else {
      IndexOfSkips(parts[0], '/', "/" + Join(parts[1..]));
      assert s == parts[0] + ("/" + Join(parts[1..]));
      var i := IndexOf(s, '/');
      assert s[..i] == parts[0] && s[i + 1..] == Join(parts[1..]);
      SplitJoin(parts[1..]);
      assert Split(s) == [parts[0]] + parts[1..];
    }
  }

  lemma {:induction false} JoinChars(parts: seq<string>, c: char)
    requires parts != [] && c in Join(parts)
    ensures c == '/' || exists i :: 0 <= i < |parts| && c in parts[i]
  {
    if |parts| > 1 && c !in parts[0] && c != '/' {
      JoinChars(parts[1..], c);
      var i :| 0 <= i < |parts[1..]| && c in parts[1..][i];
      assert parts[i + 1] == parts[1..][i];
    } else if |parts| == 1 {
      assert c in parts[0];
    }
  }

  // ---- Slugs and versions ----

  predicate SlugChar(c: char) {
    'a' <= c <= 'z' || '0' <= c <= '9'
  }

  /** The first `n` characters are runs of lower-case letters and digits, joined by single hyphens. */
  predicate SlugUpTo(s: string, n: int)
    requires n <= |s|
  {
    && 0 < n && SlugChar(s[0]) && SlugChar(s[n - 1])
    && (forall i :: 0 <= i < n ==> SlugChar(s[i]) || s[i] == '-')
    && (forall i :: 0 <= i < n - 1 ==> s[i] != '-' || s[i + 1] != '-')
  }

  predicate IsSlug(s: string) {
    SlugUpTo(s, |s|)
  }

  /** `$` of the pattern also matches before a final newline. */
  predicate SlugPattern(s: string) {
    IsSlug(s) || (s != "" && s[|s| - 1] == '\n' && SlugUpTo(s, |s| - 1))
  }

  const SLUG_MAX := 64

  predicate ValidSlug(s: string) {
    |s| <= SLUG_MAX && SlugPattern(s)
  }

  predicate Digit(c: char) {
    '0' <= c <= '9'
  }

  predicate Digits(s: string, from: nat, to: nat) {
    from < to <= |s| && forall i :: from <= i < to ==> Digit(s[i])
  }

  predicate DottedTriple(s: string, i: nat, j: nat) {
    i < j < |s| && s[i] == '.' && s[j] == '.' && Digits(s, 0, i) && Digits(s, i + 1, j) && Digits(s, j + 1, |s|)
  }

  predicate HexDigit(c: char) {
    Digit(c) || 'a' <= c <= 'f' || 'A' <= c <= 'F'
  }

  /** x.y.z, or seven hexadecimal digits; tested on the stripped string. */
  predicate MarketplaceVersion(value: string) {
    var s := Strip(value);
    || (exists i: nat, j: nat | i < j < |s| :: DottedTriple(s, i, j))
    || (|s| == 7 && forall i :: 0 <= i < 7 ==> HexDigit(s[i]))
  }

  predicate VersionChar(c: char) {
    IsSpace(c) || HexDigit(c) || c == '.'
  }

  lemma TripleChars(s: string, i: nat, j: nat, k: nat)
    requires DottedTriple(s, i, j) && k < |s|
    ensures VersionChar(s[k])
  {
  }

  lemma VersionChars(value: string, i: nat)
    requires MarketplaceVersion(value) && i < |value|
    ensures VersionChar(value[i])
  {
    StripSplits(value, i);
    var s := Strip(value);
    if !IsSpace(value[i]) {
      var k :| 0 <= k < |s| && s[k] == value[i];
      if a: nat, b: nat :| a < b < |s| && DottedTriple(s, a, b) {
        TripleChars(s, a, b, k);
      }
    }
  }
}
