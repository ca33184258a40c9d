/** The list of Git sources a user sees: one per repository, the healthiest and then the latest of each. */
module GitSources {

  import opened Common

  datatype Source = Source(
    dedupKey: Option<string>, dedupKeyAlias: Option<string>, subpath: Option<string>,
    url: string, ref: string, status: Option<string>, updateTime: int, createTime: int)

  /** `fold` is trimming and lower-casing, `normalise` is `normalizeGitRepoUrlForDedup`. */
  datatype Texts = Texts(fold: string -> string, normalise: string -> string)

  function OrElse(a: Option<string>, b: string): string {
    match a case None => b case Some(s) => s
  }

  /** `gitSourceListDedupKey`. */
  function Key(x: Texts, g: Source): string {
    var dk := x.fold(OrElse(g.dedupKey, OrElse(g.dedupKeyAlias, "")));
    if dk != "" then "dk:" + dk
    else
      var ref := if g.ref != "" then g.ref else "main";
      x.normalise(g.url) + "@@" + x.fold(ref) + "@@" + x.fold(OrElse(g.subpath, ""))
  }

  /** `gitSourceSyncHealthRank`. */
  function Rank(x: Texts, g: Source): nat {
    var s := x.fold(OrElse(g.status, ""));
    if s == "success" then 3 else if s == "partial_failure" then 2 else if s == "failed" then 0 else 1
  }

  /** `pickBetterGitSourceForDisplay`. */
  function PickBetter(x: Texts, a: Source, b: Source): Source {
    var ra, rb := Rank(x, a), Rank(x, b);
    if rb != ra then (if rb > ra then b else a)
    else if b.updateTime != a.updateTime then (if b.updateTime > a.updateTime then b else a)
    else if b.createTime > a.createTime then b else a
  }

  // ---- what one group shows -------------------------------------------------------------------------------

  /** Less healthy, or as healthy and older, or as healthy and as old but created earlier. */
  predicate Worse(x: Texts, a: Source, b: Source) {
    || Rank(x, a) < Rank(x, b)
    || (Rank(x, a) == Rank(x, b)
        && (a.updateTime < b.updateTime || (a.updateTime == b.updateTime && a.createTime < b.createTime)))
  }

  /** `group[i]` is the first of the best sources of its group. */
  ghost predicate EarliestBest(x: Texts, group: seq<Source>, i: nat) {
    && i < |group|
    && (forall j | 0 <= j < i :: Worse(x, group[j], group[i]))
    && (forall j | i < j < |group| :: !Worse(x, group[i], group[j]))
  }

  lemma EarliestBestUnique(x: Texts, group: seq<Source>, i: nat, j: nat)
    requires EarliestBest(x, group, i) && EarliestBest(x, group, j)
    ensures i == j
  {
    hide Worse;
    var _, _ := Worse(x, group[i], group[j]), Worse(x, group[j], group[i]);
  }

  /** Picking the better of what was kept and the next source, from the first one on. */
  function Fold(x: Texts, group: seq<Source>): Source
    requires group != []
  {
    if |group| == 1 then group[0] else PickBetter(x, Fold(x, group[..|group| - 1]), group[|group| - 1])
  }

  lemma {:induction false} FoldIsEarliestBest(x: Texts, group: seq<Source>) returns (i: nat)
    requires group != []
    ensures EarliestBest(x, group, i) && Fold(x, group) == group[i]
  {
    i := 0;
    if |group| > 1 {
      var n, front := |group| - 1, group[..|group| - 1];
      var k := FoldIsEarliestBest(x, front);
      assert forall j | 0 <= j < n :: front[j] == group[j];
      i := if Worse(x, group[k], group[n]) then n else k;
    }
  }

  function MaxRank(x: Texts, group: seq<Source>): int {
    if group == [] then -1
    else
      var m, g := MaxRank(x, group[..|group| - 1]), group[|group| - 1];
      if Rank(x, g) > m then Rank(x, g) else m
  }

  function Tier(x: Texts, group: seq<Source>, rank: int): seq<Source> {
    if group == [] then []
    else
      var g := group[|group| - 1];
      Tier(x, group[..|group| - 1], rank) + if Rank(x, g) == rank then [g] else []
  }

  lemma {:induction false} InTier(x: Texts, group: seq<Source>, rank: int, g: Source)
    ensures g in Tier(x, group, rank) <==> g in group && Rank(x, g) == rank
  {
    hide Rank;
    if group != [] {
      InTier(x, group[..|group| - 1], rank, g);
      assert group == group[..|group| - 1] + [group[|group| - 1]];
    }
  }

  /** No source has a greater rank, and the tier of the greatest is not empty. */
  lemma {:induction false} MaxRankTaken(x: Texts, group: seq<Source>)
    ensures forall g | g in group :: Rank(x, g) <= MaxRank(x, group)
    ensures group != [] ==> Tier(x, group, MaxRank(x, group)) != []
  {
    if group != [] {
      var front, last := group[..|group| - 1], group[|group| - 1];
      assert group == front + [last];
      MaxRankTaken(x, front);
    }
  }

  lemma PickByRank(x: Texts, a: Source, b: Source)
    ensures Rank(x, a) < Rank(x, b) ==> PickBetter(x, a, b) == b
    ensures Rank(x, b) < Rank(x, a) ==> PickBetter(x, a, b) == a
    ensures PickBetter(x, a, b) == a || PickBetter(x, a, b) == b
  {
  }

  lemma FoldNext(x: Texts, group: seq<Source>, g: Source)
    ensures Fold(x, group + [g]) == if group == [] then g else PickBetter(x, Fold(x, group), g)
  {
    assert (group + [g])[..|group|] == group;
  }

  /** How the tier and the fold of a group stand to each other. */
  ghost predicate TierFolds(x: Texts, group: seq<Source>, rank: int) {
    group == [] ||
    if Tier(x, group, rank) == [] then Rank(x, Fold(x, group)) < rank
    else Fold(x, group) == Fold(x, Tier(x, group, rank)) && Rank(x, Fold(x, group)) == rank
  }

  lemma TierNext(x: Texts, front: seq<Source>, g: Source, rank: int)
    requires TierFolds(x, front, rank) && Rank(x, g) <= rank
    ensures TierFolds(x, front + [g], rank)
  {
    var group, tier := front + [g], Tier(x, front, rank);
    assert group[..|front|] == front;
    FoldNext(x, front, g);
    if Rank(x, g) == rank {
      FoldNext(x, tier, g);
      assert Tier(x, group, rank) == tier + [g];
    } else {
      assert Tier(x, group, rank) == tier + [] == tier;
    }
    if front != [] {
      PickByRank(x, Fold(x, front), g);
    }
  }

  /** Sources outside the healthiest tier never change what the fold keeps. */
  lemma {:induction false} FoldOfTier(x: Texts, group: seq<Source>, rank: int)
    requires forall g | g in group :: Rank(x, g) <= rank
    ensures TierFolds(x, group, rank)
    decreases |group|
  {
    if group != [] {
      var front, g := group[..|group| - 1], group[|group| - 1];
      assert group == front + [g];
      FoldOfTier(x, front, rank);
      TierNext(x, front, g, rank);
    }
  }

  /** What `dedupeGitSourcesByRepoRef` shows of one group. */
  function Best(x: Texts, group: seq<Source>): Source
    requires group != []
  {
    MaxRankTaken(x, group);
    Fold(x, Tier(x, group, MaxRank(x, group)))
  }

  /** Filtering by health first does not change the outcome: the earliest best source of the whole group. */
  lemma BestIsEarliestBest(x: Texts, group: seq<Source>) returns (i: nat)
    requires group != []
    ensures EarliestBest(x, group, i) && Best(x, group) == Fold(x, group) == group[i]
  {
    i := FoldIsEarliestBest(x, group);
    MaxRankTaken(x, group);
    FoldOfTier(x, group, MaxRank(x, group));
  }

  // ---- grouping -------------------------------------------------------------------------------------------

  /** The keys, each once, in the order they first occur. */
  function Keys(x: Texts, sources: seq<Source>): seq<string> {
    if sources == [] then []
    else
      var ks, k := Keys(x, sources[..|sources| - 1]), Key(x, sources[|sources| - 1]);
      if k in ks then ks else ks + [k]
  }

  function Group(x: Texts, sources: seq<Source>, k: string): seq<Source> {
    if sources == [] then []
    else
      var g := sources[|sources| - 1];
      Group(x, sources[..|sources| - 1], k) + if Key(x, g) == k then [g] else []
  }

  lemma {:induction false} KeysDistinct(x: Texts, sources: seq<Source>)
    ensures forall i, j | 0 <= i < j < |Keys(x, sources)| :: Keys(x, sources)[i] != Keys(x, sources)[j]
  {
    hide Key;
    if sources != [] {
      KeysDistinct(x, sources[..|sources| - 1]);
    }
  }

  lemma {:induction false} InGroup(x: Texts, sources: seq<Source>, k: string, g: Source)
    ensures g in Group(x, sources, k) <==> g in sources && Key(x, g) == k
  {
    hide Key;
    if sources != [] {
      InGroup(x, sources[..|sources| - 1], k, g);
      assert sources == sources[..|sources| - 1] + [sources[|sources| - 1]];
    }
  }

  /** The keys are those with a group. */
  lemma {:induction false} KeyHasGroup(x: Texts, sources: seq<Source>, k: string)
    ensures k in Keys(x, sources) <==> Group(x, sources, k) != []
  {
    hide Key;
    if sources != [] {
      KeyHasGroup(x, sources[..|sources| - 1], k);
    }
  }

  // ---- the deduplicated list ------------------------------------------------------------------------------

  function Shown(x: Texts, sources: seq<Source>, keys: seq<string>): (out: seq<Source>)
    requires forall k | k in keys :: Group(x, sources, k) != []
    ensures |out| == |keys|
  {
    if keys == [] then []
    else Shown(x, sources, keys[..|keys| - 1]) + [Best(x, Group(x, sources, keys[|keys| - 1]))]
  }

  lemma KeysHaveGroups(x: Texts, sources: seq<Source>)
    ensures forall k | k in Keys(x, sources) :: Group(x, sources, k) != []
  {
    forall k | k in Keys(x, sources) ensures Group(x, sources, k) != [] {
      KeyHasGroup(x, sources, k);
    }
  }

  /** `dedupeGitSourcesByRepoRef`. */
  function Deduped(x: Texts, sources: seq<Source>): seq<Source> {
    KeysHaveGroups(x, sources);
    Shown(x, sources, Keys(x, sources))
  }

  lemma {:induction false} ShownAt(x: Texts, sources: seq<Source>, keys: seq<string>, i: nat)
    requires (forall k | k in keys :: Group(x, sources, k) != []) && i < |keys|
    ensures Shown(x, sources, keys)[i] == Best(x, Group(x, sources, keys[i]))
    decreases |keys|
  {
    if i < |keys| - 1 {
      ShownAt(x, sources, keys[..|keys| - 1], i);
    }
  }

  lemma BestOfGroup(x: Texts, sources: seq<Source>, k: string)
    requires Group(x, sources, k) != []
    ensures Key(x, Best(x, Group(x, sources, k))) == k && Best(x, Group(x, sources, k)) in sources
  {
    var group := Group(x, sources, k);
    var i := BestIsEarliestBest(x, group);
    assert group[i] in group;
    InGroup(x, sources, k, group[i]);
  }

  /** One source for each key, in first-occurrence order of the keys, each the earliest best of its group. */
  lemma OneForEachKey(x: Texts, sources: seq<Source>, i: nat) returns (j: nat)
    requires i < |Keys(x, sources)|
    ensures |Deduped(x, sources)| == |Keys(x, sources)|
    ensures var k := Keys(x, sources)[i];
            && Key(x, Deduped(x, sources)[i]) == k
            && EarliestBest(x, Group(x, sources, k), j) && Deduped(x, sources)[i] == Group(x, sources, k)[j]
  {
    KeysHaveGroups(x, sources);
    var keys := Keys(x, sources);
    ShownAt(x, sources, keys, i);
    BestOfGroup(x, sources, keys[i]);
    j := BestIsEarliestBest(x, Group(x, sources, keys[i]));
  }

  // ---- idempotence ----------------------------------------------------------------------------------------

  ghost predicate KeyedBy(x: Texts, sources: seq<Source>, keys: seq<string>) {
    && |sources| == |keys|
    && (forall i | 0 <= i < |sources| :: Key(x, sources[i]) == keys[i])
    && (forall i, j | 0 <= i < j < |keys| :: keys[i] != keys[j])
  }

  lemma {:induction false} KeysOfKeyed(x: Texts, sources: seq<Source>, keys: seq<string>)
    requires KeyedBy(x, sources, keys)
    ensures Keys(x, sources) == keys
    decreases |sources|
  {
    hide Key;
    if sources != [] {
      var n := |sources| - 1;
      assert KeyedBy(x, sources[..n], keys[..n]);
      KeysOfKeyed(x, sources[..n], keys[..n]);
      assert keys[n] !in keys[..n];
      assert keys == keys[..n] + [keys[n]];
    }
  }

  lemma {:induction false} GroupOfKeyed(x: Texts, sources: seq<Source>, keys: seq<string>, k: string)
    requires KeyedBy(x, sources, keys)
    ensures k !in keys ==> Group(x, sources, k) == []
    ensures forall i | 0 <= i < |keys| && keys[i] == k :: Group(x, sources, k) == [sources[i]]
    decreases |sources|
  {
    if sources != [] {
      var n := |sources| - 1;
      GroupOfKeyed(x, sources[..n], keys[..n], k);
      assert keys == keys[..n] + [keys[n]];
    }
  }

  lemma BestOfOne(x: Texts, g: Source)
    ensures Best(x, [g]) == g
  {
    var i := BestIsEarliestBest(x, [g]);
  }

  lemma DedupedKeyed(x: Texts, sources: seq<Source>)
    ensures KeyedBy(x, Deduped(x, sources), Keys(x, sources))
  {
    KeysDistinct(x, sources);
    forall i | 0 <= i < |Deduped(x, sources)| ensures Key(x, Deduped(x, sources)[i]) == Keys(x, sources)[i] {
      var _ := OneForEachKey(x, sources, i);
    }
  }

  /** Deduplicating a deduplicated list changes nothing. */
  lemma DedupIdempotent(x: Texts, sources: seq<Source>)
    ensures Deduped(x, Deduped(x, sources)) == Deduped(x, sources)
  {
    var once, keys := Deduped(x, sources), Keys(x, sources);
    DedupedKeyed(x, sources);
    KeysOfKeyed(x, once, keys);
    KeysHaveGroups(x, once);
    forall i | 0 <= i < |keys| ensures Deduped(x, once)[i] == once[i] {
      ShownAt(x, once, keys, i);
      GroupOfKeyed(x, once, keys, keys[i]);
      BestOfOne(x, once[i]);
    }
  }

  // ---- the loops ------------------------------------------------------------------------------------------

  /** Two loops over one group: the greatest rank, and the sources that have it. */
  method HealthiestTier(x: Texts, group: seq<Source>) returns (tier: seq<Source>)
    ensures tier == Tier(x, group, MaxRank(x, group))
  {
    var maxRank := -1;
    for i := 0 to |group|
      invariant maxRank == MaxRank(x, group[..i])
    {
      assert group[..i + 1][..i] == group[..i];
      maxRank := if Rank(x, group[i]) > maxRank then Rank(x, group[i]) else maxRank;
    }
    tier := [];
    for i := 0 to |group|
      invariant tier == Tier(x, group[..i], maxRank)
    {
      assert group[..i + 1][..i] == group[..i];
      if Rank(x, group[i]) == maxRank {
        tier := tier + [group[i]];
      }
    }
    assert group[..|group|] == group;
  }

  /** The last loop over one group: the best of its healthiest tier. */
  method BestOf(x: Texts, group: seq<Source>) returns (best: Source)
    requires group != []
    ensures best == Best(x, group)
  {
    var tier := HealthiestTier(x, group);
    MaxRankTaken(x, group);
    best := tier[0];
    for i := 1 to |tier|
      invariant best == Fold(x, tier[..i])
    {
      assert tier[..i + 1][..i] == tier[..i];
      best := PickBetter(x, best, tier[i]);
    }
    assert tier[..|tier|] == tier;
  }

  /** The `Map` of groups: `order` is the order in which its keys were first set. */
  method Collect(x: Texts, sources: seq<Source>) returns (order: seq<string>, byKey: map<string, seq<Source>>)
    ensures order == Keys(x, sources)
    ensures byKey.Keys == (set k | k in order) && forall k | k in byKey :: byKey[k] == Group(x, sources, k)
  {
    order, byKey := [], map[];
    for i := 0 to |sources|
      invariant order == Keys(x, sources[..i])
      invariant forall k :: k in byKey <==> k in order
      invariant forall k :: Group(x, sources[..i], k) == if k in byKey then byKey[k] else []
    {
      assert sources[..i + 1][..i] == sources[..i];
      var g, k := sources[i], Key(x, sources[i]);
      if k in byKey {
        byKey := byKey[k := byKey[k] + [g]];
      } else {
        order := order + [k];
        byKey := byKey[k := [g]];
      }
    }
    assert sources[..|sources|] == sources;
  }

  method Dedupe(x: Texts, sources: seq<Source>) returns (out: seq<Source>)
    ensures out == Deduped(x, sources)
  {
    var order, byKey := Collect(x, sources);
    KeysHaveGroups(x, sources);
    out := [];
    for i := 0 to |order|
      invariant out == Shown(x, sources, order[..i])
    {
      assert order[..i + 1][..i] == order[..i];
      var best := BestOf(x, byKey[order[i]]);
      out := out + [best];
    }
    assert order[..|order|] == order;
  }

  // ---- what a user sees, in plain terms -------------------------------------------------------------------

  /** The last synchronisation as a user reads it; a source never synchronised has no such text. */
  function Health(x: Texts, g: Source): string {
    x.fold(if g.status.Some? then g.status.value else "")
  }

  /** A success is healthier than all else; a failure than nothing; a partial failure than any but a success. */
  predicate Healthier(a: string, b: string) {
    || (a == "success" && b != "success")
    || (b == "failed" && a != "failed")
    || (a == "partial_failure" && b != "partial_failure" && b != "success")
  }

  lemma RankIsHealth(x: Texts, a: Source, b: Source)
    ensures Rank(x, a) > Rank(x, b) <==> Healthier(Health(x, a), Health(x, b))
  {
  }

  /** No source of the group is healthier than the one shown, and of those not less healthy it is the latest updated
      and, among these, the latest created. */
  lemma BestBeatsAll(x: Texts, group: seq<Source>, g: Source)
    requires g in group
    ensures var best := Best(x, group);
            && best in group && !Healthier(Health(x, g), Health(x, best))
            && (!Healthier(Health(x, best), Health(x, g)) ==>
                  && g.updateTime <= best.updateTime
                  && (g.updateTime == best.updateTime ==> g.createTime <= best.createTime))
  {
    hide Rank, Health, Healthier, Best, Fold;
    var i := BestIsEarliestBest(x, group);
    var j :| 0 <= j < |group| && group[j] == g;
    var best := group[i];
    RankIsHealth(x, g, best);
    RankIsHealth(x, best, g);
    assert !Worse(x, best, g) by {
      if j < i {
        assert Worse(x, g, best);
      }
    }
  }

  // ---- which sources are one ------------------------------------------------------------------------------

  /** The key a source was given, under either of its names. */
  function GivenKey(x: Texts, g: Source): string {
    x.fold(if g.dedupKey.Some? then g.dedupKey.value else if g.dedupKeyAlias.Some? then g.dedupKeyAlias.value else "")
  }

  function RefOf(x: Texts, g: Source): string {
    x.fold(if g.ref == "" then "main" else g.ref)
  }

  function SubpathOf(x: Texts, g: Source): string {
    x.fold(if g.subpath.Some? then g.subpath.value else "")
  }

  /** Sources that were given keys are one exactly if the keys are; those that were not, if repository, ref and subpath
      are, and not if just one of the three differs. */
  lemma KeyTells(x: Texts, a: Source, b: Source)
    ensures GivenKey(x, a) != "" && GivenKey(x, b) != "" ==>
              (Key(x, a) == Key(x, b) <==> GivenKey(x, a) == GivenKey(x, b))
    ensures GivenKey(x, a) == "" && GivenKey(x, b) == "" ==>
              var url, ref, sub := x.normalise(a.url) == x.normalise(b.url), RefOf(x, a) == RefOf(x, b),
                                   SubpathOf(x, a) == SubpathOf(x, b);
              && (url && ref && sub ==> Key(x, a) == Key(x, b))
              && (url && ref && !sub ==> Key(x, a) != Key(x, b))
              && (url && !ref && sub ==> Key(x, a) != Key(x, b))
              && (!url && ref && sub ==> Key(x, a) != Key(x, b))
  {
    var da, db := GivenKey(x, a), GivenKey(x, b);
    if da != "" && db != "" {
      assert Key(x, a)[3..] == da && Key(x, b)[3..] == db;
    } else if da == "" && db == "" && Key(x, a) == Key(x, b) {
      PartsTell(x.normalise(a.url), RefOf(x, a), SubpathOf(x, a), x.normalise(b.url), RefOf(x, b), SubpathOf(x, b));
    }
  }

  lemma PartsTell(u: string, r: string, s: string, u': string, r': string, s': string)
    requires u + "@@" + r + "@@" + s == u' + "@@" + r' + "@@" + s'
    ensures u == u' && r == r' ==> s == s'
    ensures u == u' && s == s' ==> r == r'
    ensures r == r' && s == s' ==> u == u'
  {
    var k, k' := u + "@@" + r + "@@" + s, u' + "@@" + r' + "@@" + s';
    var n, n' := |u| + 2 + |r| + 2, |u'| + 2 + |r'| + 2;
    assert k[n..] == s && k'[n'..] == s';
    assert k[|u| + 2..|u| + 2 + |r|] == r && k'[|u'| + 2..|u'| + 2 + |r'|] == r';
    assert k[..|u|] == u && k'[..|u'|] == u';
  }
}
