/** Names for the predefined members of a swarm: cleaned, letter-initial and numbered until they are free. */
module MemberNames {

  import opened Common

  const RESERVED: set<string> := {"team_leader", "leader", "human_agent", "user"}

  predicate IsLetter(c: char) {
    'a' <= c <= 'z' || 'A' <= c <= 'Z'
  }

  predicate IsDigit(c: char) {
    '0' <= c <= '9'
  }

  predicate IsWord(c: char) {
    IsLetter(c) || IsDigit(c) || c == '_'
  }

  // ---- cleaning -------------------------------------------------------------------------------------------

  function DropOthers(s: string): (r: string)
    ensures |r| <= |s|
  {
    if s != "" && !IsWord(s[0]) then DropOthers(s[1..]) else s
  }

  /** Every run of other characters becomes one underscore. */
  function Collapse(s: string): (r: string)
    ensures forall c | c in r :: IsWord(c)
    decreases |s|
  {
    if s == "" then ""
    else if IsWord(s[0]) then [s[0]] + Collapse(s[1..])
    else "_" + Collapse(DropOthers(s[1..]))
  }

  function StripUnderscores(s: string): (r: string)
    ensures forall c | c in r :: c in s
    ensures r != "" ==> r[0] != '_' && r[|r| - 1] != '_'
    decreases |s|
  {
    if s == "" then ""
    else if s[0] == '_' then StripUnderscores(s[1..])
    else if s[|s| - 1] == '_' then StripUnderscores(s[..|s| - 1])
    else s
  }

  predicate LetterInitial(name: string) {
    name != "" && IsLetter(name[0]) && forall c | c in name :: IsWord(c)
  }

  /** The name a role asks for, before it is made free; `lowered` is the role's name stripped and lower-cased. */
  function Base(lowered: string): (name: string)
    ensures LetterInitial(name)
  {
    var cleaned := StripUnderscores(Collapse(lowered));
    assert cleaned != "" ==> cleaned[0] in cleaned;
    if cleaned == "" then "teammate"
    else if IsDigit(cleaned[0]) then "role_" + cleaned
    else cleaned
  }

  // ---- numbering ------------------------------------------------------------------------------------------

  function Decimal(n: nat): (s: string)
    ensures s != "" && forall c | c in s :: IsDigit(c)
  {
    if n < 10 then [Digit(n)] else Decimal(n / 10) + [Digit(n % 10)]
  }

  lemma {:induction false} DecimalInjective(m: nat, n: nat)
    requires Decimal(m) == Decimal(n)
    ensures m == n
  {
    var s, t := Decimal(m), Decimal(n);
    assert s[|s| - 1] == Digit(m % 10) && t[|t| - 1] == Digit(n % 10);
    if m >= 10 && n >= 10 {
      assert s[..|s| - 1] == Decimal(m / 10) && t[..|t| - 1] == Decimal(n / 10);
      DecimalInjective(m / 10, n / 10);
    } else {
      assert m >= 10 ==> |s| > 1;
      assert n >= 10 ==> |t| > 1;
    }
  }

  /** The names tried in turn: the base itself, then the base numbered from two. */
  function Candidate(base: string, k: nat): string {
    if k == 0 then base else base + "_" + Decimal(k + 1)
  }

  lemma CandidateInjective(base: string, j: nat, k: nat)
    requires Candidate(base, j) == Candidate(base, k)
    ensures j == k
  {
    var s := Candidate(base, k);
    if j > 0 && k > 0 {
      assert Decimal(j + 1) == s[|base| + 1..] == Decimal(k + 1);
      DecimalInjective(j + 1, k + 1);
    }
  }

  lemma CandidateLetterInitial(base: string, k: nat)
    requires LetterInitial(base)
    ensures LetterInitial(Candidate(base, k))
  {
    assert Candidate(base, k)[0] == base[0];
  }

  function Tried(base: string, k: nat): (names: set<string>)
    ensures forall n :: n in names <==> exists j | 0 <= j < k :: n == Candidate(base, j)
    ensures |names| == k
  {
    if k == 0 then {}
    else
      var names := Tried(base, k - 1);
      assert Candidate(base, k - 1) !in names by {
        if j :| 0 <= j < k - 1 && Candidate(base, k - 1) == Candidate(base, j) {
          CandidateInjective(base, j, k - 1);
        }
      }
      names + {Candidate(base, k - 1)}
  }

  ghost predicate AllTaken(base: string, used: set<string>, k: nat) {
    forall j: nat | j < k :: Candidate(base, j) in used
  }

  /** No more candidates can be taken than there are names in use. */
  lemma Pigeonhole(base: string, used: set<string>, k: nat)
    requires AllTaken(base, used, k)
    ensures k <= |used|
  {
    var names := Tried(base, k);
    assert names <= used;
    assert used == names + (used - names);
    assert |used| == |names| + |used - names|;
  }

  /** The first candidate nobody uses, after `k` failures. */
  ghost predicate FirstFree(base: string, used: set<string>, name: string, k: nat) {
    name == Candidate(base, k) && name !in used && AllTaken(base, used, k)
  }

  /** `_normalize_member_name`: the membership test fails at most once for each name in use. */
  method NormalizeMemberName(lowered: string, used: set<string>) returns (name: string, ghost failures: nat)
    ensures FirstFree(Base(lowered), used, name, failures) && failures <= |used|
    ensures LetterInitial(name)
  {
    name := StripUnderscores(Collapse(lowered));
    if name == "" {
      name := "teammate";
    }
    if IsDigit(name[0]) {
      name := "role_" + name;
    }
    var base := name;
    assert base == Base(lowered);
    var i := 2;
    failures := 0;
    Pigeonhole(base, used, 0);
    while name in used
      invariant i == failures + 2 && name == Candidate(base, failures)
      invariant AllTaken(base, used, failures) && failures <= |used|
      decreases |used| - failures
    {
      name := base + "_" + Decimal(i);
      i := i + 1;
      failures := failures + 1;
      Pigeonhole(base, used, failures);
    }
    CandidateLetterInitial(base, failures);
  }

  function Taken(names: seq<string>): set<string> {
    RESERVED + set n | n in names
  }

  /** The `i`-th name is the first free one for its role, after the names before it. */
  ghost predicate Fits(roles: seq<string>, names: seq<string>, i: nat)
    requires i < |roles| && i < |names|
  {
    exists k: nat :: FirstFree(Base(roles[i]), Taken(names[..i]), names[i], k)
  }

  ghost predicate Named(roles: seq<string>, names: seq<string>)
    requires |names| <= |roles|
  {
    forall i: nat | i < |names| :: Fits(roles, names, i) && LetterInitial(names[i])
  }

  lemma FitsAmongMore(roles: seq<string>, names: seq<string>, name: string, i: nat)
    requires i < |names| < |roles| && Fits(roles, names, i)
    ensures Fits(roles, names + [name], i)
  {
    var base, taken, it := Base(roles[i]), Taken(names[..i]), names[i];
    var k: nat :| FirstFree(base, taken, it, k);
    assert (names + [name])[..i] == names[..i] && (names + [name])[i] == it;
  }

  lemma FitsLast(roles: seq<string>, names: seq<string>, name: string, k: nat)
    requires |names| < |roles| && FirstFree(Base(roles[|names|]), Taken(names), name, k)
    ensures Fits(roles, names + [name], |names|)
  {
    var names' := names + [name];
    assert names'[..|names|] == names && names'[|names|] == name;
  }

  lemma NamedNext(roles: seq<string>, names: seq<string>, name: string, k: nat)
    requires |names| < |roles| && Named(roles, names) && LetterInitial(name)
    requires FirstFree(Base(roles[|names|]), Taken(names), name, k)
    ensures Named(roles, names + [name])
  {
    FitsLast(roles, names, name, k);
    forall i: nat | i < |names| ensures Fits(roles, names + [name], i) && LetterInitial(names[i]) {
      FitsAmongMore(roles, names, name, i);
    }
  }

  lemma TakenNext(names: seq<string>, name: string)
    ensures Taken(names + [name]) == Taken(names) + {name}
  {
  }

  /** Names that fit are pairwise distinct and none is reserved. */
  lemma NamedDistinct(roles: seq<string>, names: seq<string>)
    requires |names| <= |roles| && Named(roles, names)
    ensures forall i | 0 <= i < |names| :: names[i] !in RESERVED
    ensures forall i, j | 0 <= i < j < |names| :: names[i] != names[j]
  {
    forall i | 0 <= i < |names| ensures names[i] !in Taken(names[..i]) {
      assert Fits(roles, names, i);
    }
    forall i, j | 0 <= i < j < |names| ensures names[i] != names[j] {
      assert names[..j][i] in names[..j];
    }
  }

  /** `_build_predefined_team_members`, the names only. */
  method BuildMembers(roles: seq<string>) returns (names: seq<string>)
    ensures |names| == |roles| && Named(roles, names)
    ensures forall i | 0 <= i < |names| :: names[i] !in RESERVED
    ensures forall i, j | 0 <= i < j < |names| :: names[i] != names[j]
  {
    names := [];
    var used := RESERVED;
    for i := 0 to |roles|
      invariant |names| == i && used == Taken(names) && Named(roles, names)
    {
      var name, failures := NormalizeMemberName(roles[i], used);
      NamedNext(roles, names, name, failures);
      TakenNext(names, name);
      used := used + {name};
      names := names + [name];
    }
    NamedDistinct(roles, names);
  }

  // ---- what the names look like -----------------------------------------------------------------------------

  /** A letter, a digit or an underscore, in ASCII. */
  predicate WordChar(c: char) {
    'a' <= c <= 'z' || 'A' <= c <= 'Z' || '0' <= c <= '9' || c == '_'
  }

  predicate AllWords(s: string) {
    forall i :: 0 <= i < |s| ==> WordChar(s[i])
  }

  predicate NoWords(s: string) {
    forall i :: 0 <= i < |s| ==> !WordChar(s[i])
  }

  lemma {:induction false} CollapseWords(s: string, rest: string)
    requires AllWords(s)
    ensures Collapse(s + rest) == s + Collapse(rest)
  {
    if s == "" {
      assert s + rest == rest;
    } else {
      assert WordChar(s[0]) && AllWords(s[1..]);
      assert (s + rest)[0] == s[0] && (s + rest)[1..] == s[1..] + rest;
      CollapseWords(s[1..], rest);
      assert [s[0]] + (s[1..] + Collapse(rest)) == s + Collapse(rest);
    }
  }

  lemma {:induction false} DropIs(gap: string, rest: string)
    requires NoWords(gap) && (rest == "" || WordChar(rest[0]))
    ensures DropOthers(gap + rest) == rest
  {
    if gap == "" {
      assert gap + rest == rest;
    } else {
      assert !WordChar(gap[0]) && NoWords(gap[1..]);
      assert (gap + rest)[0] == gap[0] && (gap + rest)[1..] == gap[1..] + rest;
      DropIs(gap[1..], rest);
    }
  }

  lemma CollapseGap(gap: string, rest: string)
    requires gap != "" && NoWords(gap) && (rest == "" || WordChar(rest[0]))
    ensures Collapse(gap + rest) == "_" + Collapse(rest)
  {
    assert !WordChar(gap[0]) && NoWords(gap[1..]);
    DropIs(gap[1..], rest);
    assert (gap + rest)[0] == gap[0] && (gap + rest)[1..] == gap[1..] + rest;
  }

  /** Word characters stay as they are, and a run of any others between them becomes one underscore. */
  lemma CollapseIs(word: string, gap: string, rest: string)
    requires AllWords(word) && gap != "" && NoWords(gap) && (rest == "" || WordChar(rest[0]))
    ensures Collapse(word) == word && Collapse(word + gap + rest) == word + "_" + Collapse(rest)
  {
    hide AllWords, NoWords;
    assert Collapse("") == "";
    hide Collapse;
    CollapseWords(word, "");
    assert word + "" == word;
    CollapseWords(word, gap + rest);
    assert word + gap + rest == word + (gap + rest);
    CollapseGap(gap, rest);
    assert word + ("_" + Collapse(rest)) == word + "_" + Collapse(rest);
  }

  lemma {:induction false} StripUnderscoresIs(s: string) returns (a: string, b: string)
    ensures s == a + StripUnderscores(s) + b && (forall c | c in a || c in b :: c == '_')
    decreases |s|
  {
    a, b := "", "";
    if s != "" && s[0] == '_' {
      a, b := StripUnderscoresIs(s[1..]);
      assert s == ([s[0]] + a) + StripUnderscores(s) + b;
      a := [s[0]] + a;
    } else if s != "" && s[|s| - 1] == '_' {
      a, b := StripUnderscoresIs(s[..|s| - 1]);
      assert s == a + StripUnderscores(s) + (b + [s[|s| - 1]]);
      b := b + [s[|s| - 1]];
    }
  }

  /** The base is the collapsed name without underscores at its ends; a name of nothing else is a teammate's, and one
      that begins with a digit a role's. */
  lemma BaseIs(lowered: string) returns (a: string, kept: string, b: string)
    ensures Collapse(lowered) == a + kept + b && (forall c | c in a || c in b :: c == '_')
    ensures kept != "" ==> kept[0] != '_' && kept[|kept| - 1] != '_'
    ensures Base(lowered) == if kept == "" then "teammate" else if '0' <= kept[0] <= '9' then "role_" + kept else kept
  {
    kept := StripUnderscores(Collapse(lowered));
    a, b := StripUnderscoresIs(Collapse(lowered));
  }

  function Reads(s: string): int {
    if s == "" then 0 else 10 * Reads(s[..|s| - 1]) + (s[|s| - 1] as int - '0' as int)
  }

  /** The decimal text of a number says that number. */
  lemma {:induction false} DecimalReads(n: nat)
    ensures Reads(Decimal(n)) == n
  {
    var s := Decimal(n);
    if n >= 10 {
      DecimalReads(n / 10);
      assert s[..|s| - 1] == Decimal(n / 10);
    } else {
      assert s[..0] == "";
    }
  }

  /** The reserved names, and that numbering begins with two. */
  lemma FirstTries(base: string)
    ensures Candidate(base, 0) == base && Candidate(base, 1) == base + "_2" && Candidate(base, 2) == base + "_3"
    ensures forall n :: n in RESERVED <==> n in ["team_leader", "leader", "human_agent", "user"]
  {
    assert Decimal(2) == "2" && Decimal(3) == "3";
  }
}
