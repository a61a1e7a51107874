/** Ranking activations, capping each kind, and the whole of Select. */
module SelectionRanking {
  import opened Refs
  import opened Ordering
  import opened Selection

  function KindOrder(k: Kind): int {
    match k
    case DispositionKind => 0
    case RecollectionKind => 1
    case UnknownKind => 2
  }

  /** The comparison of sort.Slice. */
  predicate RanksBefore(i: Ranked, j: Ranked) {
    if i.indexed != j.indexed then i.indexed
    else if i.indexed && i.rank != j.rank then i.rank < j.rank
    else if i.indexed && i.lane != j.lane then i.lane < j.lane
    else if i.support != j.support then i.support > j.support
    else if i.ownerOrder != j.ownerOrder then i.ownerOrder < j.ownerOrder
    else if i.availability != j.availability then i.availability > j.availability
    else if i.activation.kind != j.activation.kind then KindOrder(i.activation.kind) < KindOrder(j.activation.kind)
    else Less(i.activation.version, j.activation.version)
  }

  function RankKey(x: Ranked): (k: Key)
    ensures |k| == 8
  {
    [N(Flag(x.indexed)), N(if x.indexed then x.rank else 0), N(if x.indexed then x.lane else 0), R(0.0 - x.support),
     N(x.ownerOrder), N(0 - x.availability), N(KindOrder(x.activation.kind)), S(x.activation.version)]
  }

  lemma RanksBeforeIsLex(i: Ranked, j: Ranked)
    ensures RanksBefore(i, j) <==> LexLess(RankKey(i), RankKey(j))
  {
    var a, b := RankKey(i), RankKey(j);
    if a == b {
      LexOrder(a, b);
      LessIrreflexive(i.activation.version);
    } else {
      var d := FirstDifferent(a, b);
      FirstDifference(a, b, d);
      assert d > 0 ==> a[0] == b[0];
      assert d > 1 ==> a[1] == b[1];
      assert d > 2 ==> a[2] == b[2];
      assert d > 3 ==> a[3] == b[3];
      assert d > 4 ==> a[4] == b[4];
      assert d > 5 ==> a[5] == b[5];
      assert d > 6 ==> a[6] == b[6];
    }
  }

  lemma RankShapes(s: seq<Ranked>)
    ensures Shaped(s, RankKey)
  {
  }

  predicate UniqueCandidates(cs: seq<Candidate>) {
    forall i, j :: 0 <= i < j < |cs| ==> cs[i].kind != cs[j].kind || cs[i].version != cs[j].version
  }

  predicate UniqueItems(s: seq<Ranked>) {
    forall i, j :: 0 <= i < j < |s| ==> s[i].activation.kind != s[j].activation.kind || s[i].activation.version != s[j].activation.version
  }

  lemma UniqueItemsHaveDistinctKeys(s: seq<Ranked>)
    requires UniqueItems(s)
    ensures DistinctKeys(s, RankKey)
  {
    forall i, j | 0 <= i < j < |s| ensures RankKey(s[i]) != RankKey(s[j]) {
      var a, b := RankKey(s[i]), RankKey(s[j]);
      assert a[6] == N(KindOrder(s[i].activation.kind)) && b[6] == N(KindOrder(s[j].activation.kind));
      assert a[7] == S(s[i].activation.version) && b[7] == S(s[j].activation.version);
    }
  }

  /* ---- caps ---- */

  function Max(k: Kind, policy: Policy): int {
    match k
    case RecollectionKind => policy.maxRecollections
    case DispositionKind => policy.maxDispositions
    case UnknownKind => 0
  }

  function CountKind(s: seq<Ranked>, k: Kind): nat {
    if s == [] then 0 else CountKind(s[..|s| - 1], k) + if s[|s| - 1].activation.kind == k then 1 else 0
  }

  predicate Kept(s: seq<Ranked>, i: nat, policy: Policy)
    requires i < |s|
  {
    CountKind(s[..i], s[i].activation.kind) < Max(s[i].activation.kind, policy)
  }

  function Capped(s: seq<Ranked>, policy: Policy): seq<Activation> {
    if s == [] then []
    else
      var n := |s| - 1;
      Capped(s[..n], policy) + if Kept(s, n, policy) then [s[n].activation] else []
  }

  /** The items of the same kind that rank before one. */
  ghost function Ahead(s: seq<Ranked>, x: Ranked): set<Ranked> {
    set y | y in s && y.activation.kind == x.activation.kind && RanksBefore(y, x)
  }

  ghost function OfKind(s: seq<Ranked>, k: Kind): set<Ranked> {
    set y | y in s && y.activation.kind == k
  }

  lemma OfKindSnoc(s: seq<Ranked>, x: Ranked, k: Kind)
    requires x !in s
    ensures OfKind(s + [x], k) == (if x.activation.kind == k then OfKind(s, k) + {x} else OfKind(s, k)) && x !in OfKind(s, k)
  {
  }

  lemma {:induction false} CountIsSize(s: seq<Ranked>, k: Kind)
    requires forall i, j :: 0 <= i < j < |s| ==> s[i] != s[j]
    ensures |OfKind(s, k)| == CountKind(s, k)
  {
    if s != [] {
      var n := |s| - 1;
      CountIsSize(s[..n], k);
      assert s == s[..n] + [s[n]];
      assert s[n] !in s[..n];
      OfKindSnoc(s[..n], s[n], k);
    }
  }

  lemma StrictRanks(s: seq<Ranked>, a: nat, b: nat)
    requires Strict(s, RankKey) && a <= b < |s|
    ensures a < b ==> s[a] != s[b] && RanksBefore(s[a], s[b])
    ensures !RanksBefore(s[b], s[a])
  {
    LexOrder(RankKey(s[a]), RankKey(s[b]));
    RanksBeforeIsLex(s[a], s[b]);
    RanksBeforeIsLex(s[b], s[a]);
  }

  lemma BeforeMeansAhead(s: seq<Ranked>, i: nat)
    requires Strict(s, RankKey) && i < |s|
    ensures Ahead(s, s[i]) == OfKind(s[..i], s[i].activation.kind)
    ensures forall a, b :: 0 <= a < b < |s| ==> s[a] != s[b]
  {
    forall a, b | 0 <= a <= b < |s| ensures (a < b ==> s[a] != s[b] && RanksBefore(s[a], s[b])) && !RanksBefore(s[b], s[a]) {
      StrictRanks(s, a, b);
    }
    forall y | y in Ahead(s, s[i]) ensures y in s[..i] {
      var j :| 0 <= j < |s| && s[j] == y;
      assert j < i;
      assert s[..i][j] == y;
    }
    forall y | y in s[..i] ensures y in s && RanksBefore(y, s[i]) {
      var j :| 0 <= j < i && s[..i][j] == y;
      assert s[j] == y;
    }
  }

  /** Exactly the best Max items of each kind survive the cap: an item is kept if
      and only if fewer than Max items of its kind rank before it. */
  lemma KeptIsBestMax(s: seq<Ranked>, i: nat, policy: Policy)
    requires Strict(s, RankKey) && i < |s|
    ensures Kept(s, i, policy) <==> |Ahead(s, s[i])| < Max(s[i].activation.kind, policy)
  {
    BeforeMeansAhead(s, i);
    forall a, b | 0 <= a < b < i ensures s[..i][a] != s[..i][b] {
    }
    CountIsSize(s[..i], s[i].activation.kind);
  }

  /** The kept activations of the first n items. */
  ghost predicate KeptBelow(s: seq<Ranked>, n: nat, policy: Policy, x: Activation)
    requires n <= |s|
  {
    exists i :: 0 <= i < n && Kept(s, i, policy) && x == s[i].activation
  }

  lemma KeptPrefix(s: seq<Ranked>, n: nat, policy: Policy, x: Activation)
    requires n <= |s|
    ensures KeptBelow(s[..n], n, policy, x) <==> KeptBelow(s, n, policy, x)
  {
    forall i | 0 <= i < n ensures Kept(s[..n], i, policy) == Kept(s, i, policy) {
      assert s[..n][..i] == s[..i];
    }
  }

  lemma {:induction false} CappedContents(s: seq<Ranked>, policy: Policy)
    ensures forall x :: x in Capped(s, policy) <==> KeptBelow(s, |s|, policy, x)
  {
    if s != [] {
      var n := |s| - 1;
      CappedContents(s[..n], policy);
      forall x ensures x in Capped(s, policy) <==> KeptBelow(s, |s|, policy, x) {
        KeptPrefix(s, n, policy, x);
        CappedSnoc(s, policy, x);
      }
    }
  }

  lemma CappedSnoc(s: seq<Ranked>, policy: Policy, x: Activation)
    requires s != []
    ensures var n := |s| - 1;
            && (x in Capped(s, policy) <==> x in Capped(s[..n], policy) || (Kept(s, n, policy) && x == s[n].activation))
            && (KeptBelow(s, n + 1, policy, x) <==> KeptBelow(s, n, policy, x) || (Kept(s, n, policy) && x == s[n].activation))
  {
  }

  /* ---- Select ---- */

  /** The ranked items are exactly the activations of the candidates. */
  ghost predicate Ranks(queries: seq<Query>, cs: seq<Candidate>, ranker: Ranker, policy: Policy, ranked: seq<Ranked>)
    requires ValidPolicy(policy)
  {
    && Strict(ranked, RankKey)
    && forall x :: x in ranked <==> IsItem(queries, cs, ranker, policy, x)
  }

  ghost predicate IsItem(queries: seq<Query>, cs: seq<Candidate>, ranker: Ranker, policy: Policy, x: Ranked)
    requires ValidPolicy(policy)
  {
    exists c :: c in cs && Activates(queries, c, ranker, policy, x)
  }

  ghost predicate Selected(queries: seq<Query>, cs: seq<Candidate>, ranker: Ranker, policy: Policy, result: seq<Activation>)
    requires ValidPolicy(policy)
  {
    exists items, ranked :: Items(queries, cs, ranker, policy, items) && Sorted(ranked, RankKey)
                            && multiset(ranked) == multiset(items) && result == Capped(ranked, policy)
  }

  /** The activations of the candidates, one after the other. */
  ghost predicate Items(queries: seq<Query>, cs: seq<Candidate>, ranker: Ranker, policy: Policy, items: seq<Ranked>)
    requires ValidPolicy(policy)
  {
    if cs == [] then items == []
    else
      var n := |cs| - 1;
      if Inactive(queries, cs[n], ranker, policy) then Items(queries, cs[..n], ranker, policy, items)
      else
        items != [] && Activates(queries, cs[n], ranker, policy, items[|items| - 1])
        && Items(queries, cs[..n], ranker, policy, items[..|items| - 1])
  }

  ghost predicate Inactive(queries: seq<Query>, c: Candidate, ranker: Ranker, policy: Policy)
    requires ValidPolicy(policy)
  {
    forall x :: !Activates(queries, c, ranker, policy, x)
  }

  /** The item is the candidate's only activation, or there is none. */
  ghost predicate Yields(queries: seq<Query>, c: Candidate, ranker: Ranker, policy: Policy, ok: bool, item: Ranked)
    requires ValidPolicy(policy)
  {
    forall x :: Activates(queries, c, ranker, policy, x) <==> ok && x == item
  }

  lemma ItemsSnoc(queries: seq<Query>, cs: seq<Candidate>, i: nat, ranker: Ranker, policy: Policy, items: seq<Ranked>, ok: bool, item: Ranked)
    requires ValidPolicy(policy) && i < |cs| && Items(queries, cs[..i], ranker, policy, items)
    requires Yields(queries, cs[i], ranker, policy, ok, item)
    ensures Items(queries, cs[..i + 1], ranker, policy, if ok then items + [item] else items)
  {
    assert cs[..i + 1][..i] == cs[..i] && cs[..i + 1][i] == cs[i];
    if ok {
      assert (items + [item])[..|items|] == items;
      assert Activates(queries, cs[i], ranker, policy, item);
    }
  }

  predicate ItemOf(x: Ranked, c: Candidate) {
    c.kind != UnknownKind && x.activation.kind == c.kind && x.activation.version == c.version
  }

  /** Each of the items stems from one of the first n candidates. */
  predicate Stem(items: seq<Ranked>, cs: seq<Candidate>, n: nat)
    requires n <= |cs|
  {
    forall k :: 0 <= k < |items| ==> StemsFrom(items[k], cs, n)
  }

  predicate StemsFrom(x: Ranked, cs: seq<Candidate>, n: nat)
    requires n <= |cs|
  {
    exists j :: 0 <= j < n && ItemOf(x, cs[j])
  }

  /** What the last candidate adds: nothing, or one item. */
  lemma ItemsSplit(queries: seq<Query>, cs: seq<Candidate>, ranker: Ranker, policy: Policy, items: seq<Ranked>) returns (m: nat)
    requires ValidPolicy(policy) && cs != [] && Items(queries, cs, ranker, policy, items)
    ensures m <= |items| <= m + 1 && Items(queries, cs[..|cs| - 1], ranker, policy, items[..m])
    ensures m < |items| ==> ItemOf(items[m], cs[|cs| - 1])
    ensures Yields(queries, cs[|cs| - 1], ranker, policy, m < |items|, LastOf(items))
  {
    var n := |cs| - 1;
    if Inactive(queries, cs[n], ranker, policy) {
      m := |items|;
      assert items[..m] == items;
    } else {
      m := |items| - 1;
      ActivatesOnce(queries, cs[n], ranker, policy, items[m]);
      EvidenceIsOwnAnchor(queries, cs[n], ranker, policy, items[m]);
    }
  }

  lemma {:induction false} ItemsStem(queries: seq<Query>, cs: seq<Candidate>, ranker: Ranker, policy: Policy, items: seq<Ranked>)
    requires ValidPolicy(policy) && Items(queries, cs, ranker, policy, items)
    ensures Stem(items, cs, |cs|) && (UniqueCandidates(cs) ==> UniqueItems(items))
    decreases |cs|
  {
    if cs != [] {
      var m := ItemsSplit(queries, cs, ranker, policy, items);
      ItemsStem(queries, cs[..|cs| - 1], ranker, policy, items[..m]);
      StemSnoc(cs, items, m);
    }
  }

  lemma StemSnoc(cs: seq<Candidate>, items: seq<Ranked>, m: nat)
    requires cs != [] && m <= |items| <= m + 1 && Stem(items[..m], cs[..|cs| - 1], |cs| - 1)
    requires UniqueCandidates(cs[..|cs| - 1]) ==> UniqueItems(items[..m])
    requires m < |items| ==> ItemOf(items[m], cs[|cs| - 1])
    ensures Stem(items, cs, |cs|) && (UniqueCandidates(cs) ==> UniqueItems(items))
  {
    var n := |cs| - 1;
    forall k | 0 <= k < m ensures StemsFrom(items[k], cs, n) {
      assert items[..m][k] == items[k] && StemsFrom(items[..m][k], cs[..n], n);
      var j :| 0 <= j < n && ItemOf(items[..m][k], cs[..n][j]);
      assert ItemOf(items[k], cs[j]);
    }
    forall k | 0 <= k < |items| ensures StemsFrom(items[k], cs, |cs|) {
      assert k < m ==> StemsFrom(items[k], cs, n);
    }
    if UniqueCandidates(cs) {
      assert forall k :: 0 <= k < n ==> cs[..n][k] == cs[k];
      ItemsApart(cs, items, m);
    }
  }

  lemma ItemsApart(cs: seq<Candidate>, items: seq<Ranked>, m: nat)
    requires cs != [] && UniqueCandidates(cs) && m <= |items| <= m + 1 && UniqueItems(items[..m])
    requires forall k :: 0 <= k < m ==> StemsFrom(items[k], cs, |cs| - 1)
    requires m < |items| ==> ItemOf(items[m], cs[|cs| - 1])
    ensures UniqueItems(items)
  {
    forall i, j | 0 <= i < j < |items|
      ensures items[i].activation.kind != items[j].activation.kind || items[i].activation.version != items[j].activation.version
    {
      if j < m {
        assert items[..m][i] == items[i] && items[..m][j] == items[j];
      } else {
        assert StemsFrom(items[i], cs, |cs| - 1);
        var x :| 0 <= x < |cs| - 1 && ItemOf(items[i], cs[x]);
      }
    }
  }

  lemma {:induction false} ItemsAre(queries: seq<Query>, cs: seq<Candidate>, ranker: Ranker, policy: Policy, items: seq<Ranked>)
    requires ValidPolicy(policy) && Items(queries, cs, ranker, policy, items)
    ensures forall x :: x in items <==> IsItem(queries, cs, ranker, policy, x)
    decreases |cs|
  {
    if cs != [] {
      var n := |cs| - 1;
      var m := ItemsSplit(queries, cs, ranker, policy, items);
      ItemsAre(queries, cs[..n], ranker, policy, items[..m]);
      OneMore(queries, cs, n, ranker, policy, m < |items|, LastOf(items));
      assert cs[..n + 1] == cs;
      forall x ensures x in items <==> IsItem(queries, cs, ranker, policy, x) {
        LastOfSplits(items, m, x);
        assert x in items[..m] <==> IsItem(queries, cs[..n], ranker, policy, x);
      }
    }
  }

  lemma LastOfSplits(items: seq<Ranked>, m: nat, x: Ranked)
    requires m <= |items| <= m + 1
    ensures x in items <==> x in items[..m] || (m < |items| && x == LastOf(items))
  {
    assert m < |items| ==> items == items[..m] + [items[m]];
    assert m == |items| ==> items == items[..m];
  }

  function LastOf(items: seq<Ranked>): Ranked {
    if items != [] then items[|items| - 1] else Ranked(Activation(UnknownKind, "", Self, "", "", "", ""), 0.0, 0, 0, false, 0, 0)
  }

  lemma ActivatesOnce(queries: seq<Query>, c: Candidate, ranker: Ranker, policy: Policy, item: Ranked)
    requires ValidPolicy(policy) && Activates(queries, c, ranker, policy, item)
    ensures Yields(queries, c, ranker, policy, true, item)
  {
    var live, best :| IsLive(c, live) && IsBest(queries, c, live, ranker, best)
      && (best.indexed || best.score >= policy.minimumScore.value) && !Inhibited(queries, c, ranker, best.score)
      && item == MakeRanked(c, best, policy);
    ActivatesOnly(queries, c, ranker, policy, live, best);
  }

  /** For distinct candidates the ranking is strict, so there is one result. */
  lemma SelectedIsRanked(queries: seq<Query>, cs: seq<Candidate>, ranker: Ranker, policy: Policy, result: seq<Activation>) returns (ranked: seq<Ranked>)
    requires ValidPolicy(policy) && UniqueCandidates(cs) && Selected(queries, cs, ranker, policy, result)
    ensures Ranks(queries, cs, ranker, policy, ranked) && result == Capped(ranked, policy)
  {
    var items: seq<Ranked>;
    items, ranked :| Items(queries, cs, ranker, policy, items) && Sorted(ranked, RankKey)
                     && multiset(ranked) == multiset(items) && result == Capped(ranked, policy);
    ItemsStem(queries, cs, ranker, policy, items);
    ItemsAre(queries, cs, ranker, policy, items);
    StaysUnique(items, ranked);
    SameElements(items, ranked);
    UniqueItemsHaveDistinctKeys(ranked);
    RankShapes(ranked);
    StrictFromDistinct(ranked, RankKey);
  }

  ghost predicate SameCandidates(cs: seq<Candidate>, ds: seq<Candidate>) {
    Covers(cs, ds) && Covers(ds, cs)
  }

  ghost predicate HasTwin(c: Candidate, ds: seq<Candidate>) {
    exists d :: d in ds && SameCandidate(c, d)
  }

  ghost predicate Covers(cs: seq<Candidate>, ds: seq<Candidate>) {
    forall c {:trigger HasTwin(c, ds)} :: c in cs ==> HasTwin(c, ds)
  }

  lemma ItemCarries(qs: seq<Query>, qs': seq<Query>, cs: seq<Candidate>, ds: seq<Candidate>, ranker: Ranker, policy: Policy, x: Ranked)
    requires ValidPolicy(policy) && SameQueries(qs, qs') && IsItem(qs, cs, ranker, policy, x)
    requires Covers(cs, ds)
    ensures IsItem(qs', ds, ranker, policy, x)
  {
    var c :| c in cs && Activates(qs, c, ranker, policy, x);
    assert HasTwin(c, ds);
    var d :| d in ds && SameCandidate(c, d);
    ActivationCarries(qs, qs', c, d, ranker, policy, x);
  }

  lemma ItemsAgree(qs: seq<Query>, qs': seq<Query>, cs: seq<Candidate>, ds: seq<Candidate>, ranker: Ranker, policy: Policy, x: Ranked)
    requires ValidPolicy(policy) && SameQueries(qs, qs') && SameCandidates(cs, ds)
    ensures IsItem(qs, cs, ranker, policy, x) <==> IsItem(qs', ds, ranker, policy, x)
  {
    if IsItem(qs, cs, ranker, policy, x) {
      ItemCarries(qs, qs', cs, ds, ranker, policy, x);
    }
    if IsItem(qs', ds, ranker, policy, x) {
      ItemCarries(qs', qs, ds, cs, ranker, policy, x);
    }
  }

  lemma RankingsAgree(a: seq<Ranked>, b: seq<Ranked>)
    requires Strict(a, RankKey) && Strict(b, RankKey) && forall x :: x in a <==> x in b
    ensures a == b
  {
    RankShapes(a + b);
    StrictIsUnique(a, b, RankKey);
  }

  /** The result does not depend on the order of queries, candidates, anchors or
      index matches. */
  lemma SelectIgnoresOrder(qs: seq<Query>, qs': seq<Query>, cs: seq<Candidate>, ds: seq<Candidate>, ranker: Ranker, policy: Policy,
                           r: seq<Activation>, r': seq<Activation>)
    requires ValidPolicy(policy) && SameQueries(qs, qs') && SameCandidates(cs, ds)
    requires UniqueCandidates(cs) && UniqueCandidates(ds)
    requires Selected(qs, cs, ranker, policy, r) && Selected(qs', ds, ranker, policy, r')
    ensures r == r'
  {
    var a := SelectedIsRanked(qs, cs, ranker, policy, r);
    var b := SelectedIsRanked(qs', ds, ranker, policy, r');
    forall x ensures x in a <==> x in b {
      ItemsAgree(qs, qs', cs, ds, ranker, policy, x);
    }
    RankingsAgree(a, b);
  }

  /** One candidate: its activation, if it has one. */
  method Activate(queries: seq<Query>, c: Candidate, ranker: Ranker, policy: Policy) returns (ok: bool, item: Ranked)
    requires ValidPolicy(policy)
    ensures Yields(queries, c, ranker, policy, ok, item)
    ensures ok ==> c.kind != UnknownKind && item.activation.kind == c.kind && item.activation.version == c.version
  {
    ok, item := false, Ranked(Activation(c.kind, c.version, c.scope, "", "", "", ""), 0.0, 0, 0, false, 0, 0);
    var live := LiveAnchors(c.support);
    if live == [] || c.version == "" || c.text == "" || c.kind == UnknownKind {
      NoneLive(queries, c, ranker, policy, live);
      return;
    }
    var found, path := BestSupportPath(queries, c, live, ranker);
    var inhibited := false;
    if c.kind == DispositionKind {
      var exists', inhibition := BestInhibition(queries, c.inhibition, ranker);
      inhibited := exists' && path.score <= inhibition;
    }
    if found {
      InhibitedOr(queries, c, ranker, path, inhibited);
      ActivatesOnly(queries, c, ranker, policy, live, path);
    } else {
      NoPath(queries, c, ranker, policy, live);
    }
    ok := found && (path.indexed || path.score >= policy.minimumScore.value) && !inhibited;
    if ok {
      item := MakeRanked(c, path, policy);
    }
  }

  lemma InhibitedOr(queries: seq<Query>, c: Candidate, ranker: Ranker, path: Path, inhibited: bool)
    requires c.kind == DispositionKind ==>
               (inhibited <==> exists x :: IsInhibition(queries, c.inhibition, ranker, x) && path.score <= x)
    requires c.kind != DispositionKind ==> !inhibited
    ensures inhibited <==> Inhibited(queries, c, ranker, path.score)
  {
  }

  lemma NoneLive(queries: seq<Query>, c: Candidate, ranker: Ranker, policy: Policy, live: seq<Anchor>)
    requires ValidPolicy(policy) && forall a :: a in live <==> a in c.support && LiveAnchor(a)
    requires live == [] || c.version == "" || c.text == "" || c.kind == UnknownKind
    ensures forall x :: !Activates(queries, c, ranker, policy, x)
  {
    forall other | IsLive(c, other) ensures other[0] in live {
      assert other[0] in other;
    }
  }

  lemma NoPath(queries: seq<Query>, c: Candidate, ranker: Ranker, policy: Policy, live: seq<Anchor>)
    requires ValidPolicy(policy) && IsLive(c, live) && forall p :: !IsPath(queries, c, live, ranker, p)
    ensures forall x :: !Activates(queries, c, ranker, policy, x)
  {
    forall x ensures !Activates(queries, c, ranker, policy, x) {
      if Activates(queries, c, ranker, policy, x) {
        var other, best :| IsLive(c, other) && IsBest(queries, c, other, ranker, best);
        PathCarries(queries, queries, c, c, other, live, ranker, best);
      }
    }
  }

  lemma ActivatesOnly(queries: seq<Query>, c: Candidate, ranker: Ranker, policy: Policy, live: seq<Anchor>, path: Path)
    requires ValidPolicy(policy) && IsLive(c, live) && IsBest(queries, c, live, ranker, path)
    requires c.version != "" && c.text != "" && c.kind != UnknownKind
    ensures forall x :: Activates(queries, c, ranker, policy, x) <==>
              (path.indexed || path.score >= policy.minimumScore.value) && !Inhibited(queries, c, ranker, path.score)
              && x == MakeRanked(c, path, policy)
  {
    forall x | Activates(queries, c, ranker, policy, x)
      ensures (path.indexed || path.score >= policy.minimumScore.value) && !Inhibited(queries, c, ranker, path.score)
      ensures x == MakeRanked(c, path, policy)
    {
      var other, best :| IsLive(c, other) && IsBest(queries, c, other, ranker, best)
        && (best.indexed || best.score >= policy.minimumScore.value) && !Inhibited(queries, c, ranker, best.score)
        && x == MakeRanked(c, best, policy);
      BestCarries(queries, queries, c, c, other, live, ranker, best);
      BestIsUnique(queries, c, live, ranker, best, path);
    }
  }

  /** Select: an error exactly for an invalid policy; otherwise the best few. */
  method Select(queries: seq<Query>, cs: seq<Candidate>, ranker: Ranker, policy: Policy) returns (r: Option<seq<Activation>>)
    ensures r.None? <==> !ValidPolicy(policy)
    ensures r.Some? ==> Selected(queries, cs, ranker, policy, r.value)
  {
    var valid := ValidPolicy(policy);
    if !valid {
      return None;
    }
    var items: seq<Ranked> := [];
    for i := 0 to |cs|
      invariant Items(queries, cs[..i], ranker, policy, items)
    {
      var ok, item := Activate(queries, cs[i], ranker, policy);
      ItemsSnoc(queries, cs, i, ranker, policy, items, ok, item);
      if ok {
        items := items + [item];
      }
    }
    assert cs[..|cs|] == cs;
    RankShapes(items);
    ItemsStem(queries, cs, ranker, policy, items);
    var ranked := SortBy(items, RankKey);
    forall k | 0 <= k < |ranked| ensures ranked[k].activation.kind != UnknownKind {
      assert ranked[k] in items;
      var x :| 0 <= x < |items| && items[x] == ranked[k];
      assert StemsFrom(items[x], cs, |cs|);
      var j :| 0 <= j < |cs| && ItemOf(items[x], cs[j]);
    }
    var activations := CapEach(ranked, policy);
    r := Some(activations);
  }

  lemma OneMore(queries: seq<Query>, cs: seq<Candidate>, i: nat, ranker: Ranker, policy: Policy, ok: bool, item: Ranked)
    requires ValidPolicy(policy) && i < |cs| && Yields(queries, cs[i], ranker, policy, ok, item)
    ensures forall x :: IsItem(queries, cs[..i + 1], ranker, policy, x) <==> IsItem(queries, cs[..i], ranker, policy, x) || (ok && x == item)
  {
    assert cs[..i + 1] == cs[..i] + [cs[i]];
    forall x ensures IsItem(queries, cs[..i + 1], ranker, policy, x) <==> IsItem(queries, cs[..i], ranker, policy, x) || (ok && x == item) {
      if ok && x == item {
        assert cs[i] in cs[..i + 1] && Activates(queries, cs[i], ranker, policy, x);
      } else if IsItem(queries, cs[..i], ranker, policy, x) {
        var c :| c in cs[..i] && Activates(queries, c, ranker, policy, x);
        assert c in cs[..i + 1];
      }
    }
  }

  lemma StaysUnique(a: seq<Ranked>, b: seq<Ranked>)
    requires UniqueItems(a) && multiset(a) == multiset(b)
    ensures UniqueItems(b)
  {
    StaysDistinct(a, b);
    SameElements(a, b);
    forall i, j | 0 <= i < j < |b|
      ensures b[i].activation.kind != b[j].activation.kind || b[i].activation.version != b[j].activation.version
    {
      assert b[i] in a && b[j] in a;
      var x :| 0 <= x < |a| && a[x] == b[i];
      var y :| 0 <= y < |a| && a[y] == b[j];
    }
  }

  /** The last loop of Select. */
  method CapEach(ranked: seq<Ranked>, policy: Policy) returns (activations: seq<Activation>)
    requires ValidPolicy(policy) && forall i :: 0 <= i < |ranked| ==> ranked[i].activation.kind != UnknownKind
    ensures activations == Capped(ranked, policy)
  {
    activations := [];
    var recollections, dispositions := 0, 0;
    for i := 0 to |ranked|
      invariant activations == Capped(ranked[..i], policy)
      invariant recollections == Least(CountKind(ranked[..i], RecollectionKind), policy.maxRecollections)
      invariant dispositions == Least(CountKind(ranked[..i], DispositionKind), policy.maxDispositions)
    {
      assert ranked[..i + 1][..i] == ranked[..i];
      var item := ranked[i];
      if item.activation.kind == RecollectionKind {
        if recollections >= policy.maxRecollections {
          continue;
        }
        recollections := recollections + 1;
      } else {
        if dispositions >= policy.maxDispositions {
          continue;
        }
        dispositions := dispositions + 1;
      }
      activations := activations + [item.activation];
    }
    assert ranked[..|ranked|] == ranked;
  }

  function Least(a: int, b: int): int {
    if a < b then a else b
  }

  /* ---- unionSelectionCandidates ---- */

  predicate SameMemory(c: Candidate, d: Candidate) {
    c.kind == d.kind && c.version == d.version
  }

  /** `r` is the first candidate of its memory in `all`, with the index matches of
      every candidate of that memory. */
  ghost predicate Merges(all: seq<Candidate>, r: Candidate) {
    && (exists j :: 0 <= j < |all| && r == all[j].(matches := r.matches) && forall k :: 0 <= k < j ==> !SameMemory(all[k], r))
    && (forall m :: m in r.matches <==> exists j :: 0 <= j < |all| && SameMemory(all[j], r) && m in all[j].matches)
  }

  lemma MergesNew(all: seq<Candidate>, c: Candidate)
    requires forall k :: 0 <= k < |all| ==> !SameMemory(all[k], c)
    ensures Merges(all + [c], c)
  {
    var more := all + [c];
    assert more[|all|] == c && c == c.(matches := c.matches);
    assert forall k :: 0 <= k < |all| ==> more[k] == all[k];
  }

  lemma MergesOld(all: seq<Candidate>, c: Candidate, r: Candidate)
    requires Merges(all, r)
    ensures SameMemory(c, r) ==> Merges(all + [c], r.(matches := r.matches + c.matches))
    ensures !SameMemory(c, r) ==> Merges(all + [c], r)
  {
    var more := all + [c];
    var j :| 0 <= j < |all| && r == all[j].(matches := r.matches) && forall k :: 0 <= k < j ==> !SameMemory(all[k], r);
    assert more[|all|] == c && forall k :: 0 <= k < |all| ==> more[k] == all[k];
    var r' := if SameMemory(c, r) then r.(matches := r.matches + c.matches) else r;
    assert r' == more[j].(matches := r'.matches);
    forall m | m in r'.matches ensures exists i :: 0 <= i < |more| && SameMemory(more[i], r') && m in more[i].matches {
      if m in r.matches {
        var i :| 0 <= i < |all| && SameMemory(all[i], r) && m in all[i].matches;
        assert SameMemory(more[i], r') && m in more[i].matches;
      } else {
        assert SameMemory(more[|all|], r');
      }
    }
  }

  ghost predicate AllMerge(all: seq<Candidate>, r: seq<Candidate>) {
    forall i :: 0 <= i < |r| ==> Merges(all, r[i])
  }

  predicate SeenOk(all: seq<Candidate>, r: seq<Candidate>, seen: map<(Kind, Ref), nat>) {
    && (forall k :: k in seen ==> seen[k] < |r| && (r[seen[k]].kind, r[seen[k]].version) == k)
    && (forall i :: 0 <= i < |r| ==> (r[i].kind, r[i].version) in seen && seen[(r[i].kind, r[i].version)] == i)
    && (forall k :: 0 <= k < |all| ==> (all[k].kind, all[k].version) in seen)
  }

  lemma JoinMerges(all: seq<Candidate>, c: Candidate, r: seq<Candidate>, seen: map<(Kind, Ref), nat>, i: nat)
    requires AllMerge(all, r) && SeenOk(all, r, seen) && i < |r| && SameMemory(c, r[i])
    ensures AllMerge(all + [c], r[i := r[i].(matches := r[i].matches + c.matches)])
  {
    var r' := r[i := r[i].(matches := r[i].matches + c.matches)];
    forall k | 0 <= k < |r'| ensures Merges(all + [c], r'[k]) {
      MergesOld(all, c, r[k]);
      assert k != i ==> seen[(r[k].kind, r[k].version)] != seen[(r[i].kind, r[i].version)];
    }
  }

  lemma AddMerges(all: seq<Candidate>, c: Candidate, r: seq<Candidate>, seen: map<(Kind, Ref), nat>)
    requires AllMerge(all, r) && SeenOk(all, r, seen) && (c.kind, c.version) !in seen
    ensures AllMerge(all + [c], r + [c])
  {
    MergesNew(all, c);
    forall k | 0 <= k < |r| ensures Merges(all + [c], r[k]) {
      MergesOld(all, c, r[k]);
    }
  }

  lemma JoinSeen(all: seq<Candidate>, c: Candidate, r: seq<Candidate>, seen: map<(Kind, Ref), nat>, i: nat)
    requires SeenOk(all, r, seen) && i < |r| && SameMemory(c, r[i])
    ensures SeenOk(all + [c], r[i := r[i].(matches := r[i].matches + c.matches)], seen)
  {
  }

  lemma AddSeen(all: seq<Candidate>, c: Candidate, r: seq<Candidate>, seen: map<(Kind, Ref), nat>)
    requires SeenOk(all, r, seen) && (c.kind, c.version) !in seen
    ensures SeenOk(all + [c], r + [c], seen[(c.kind, c.version) := |r|])
  {
  }

  lemma SeenMeans(all: seq<Candidate>, r: seq<Candidate>, seen: map<(Kind, Ref), nat>)
    requires SeenOk(all, r, seen)
    ensures UniqueCandidates(r) && forall c :: c in all ==> exists i :: 0 <= i < |r| && SameMemory(r[i], c)
  {
    forall i, j | 0 <= i < j < |r| ensures r[i].kind != r[j].kind || r[i].version != r[j].version {
      assert seen[(r[i].kind, r[i].version)] == i && seen[(r[j].kind, r[j].version)] == j;
    }
    forall c | c in all ensures exists i :: 0 <= i < |r| && SameMemory(r[i], c) {
      var k :| 0 <= k < |all| && all[k] == c;
      assert SameMemory(r[seen[(c.kind, c.version)]], c);
    }
  }

  /** One entry per memory, canonical entries first. */
  method UnionCandidates(canonical: seq<Candidate>, indexed: seq<Candidate>) returns (r: seq<Candidate>)
    ensures UniqueCandidates(r) && AllMerge(canonical + indexed, r)
    ensures forall c :: c in canonical + indexed ==> exists i :: 0 <= i < |r| && SameMemory(r[i], c)
  {
    var all := canonical + indexed;
    r := [];
    var seen: map<(Kind, Ref), nat> := map[];
    for n := 0 to |all|
      invariant AllMerge(all[..n], r) && SeenOk(all[..n], r, seen)
    {
      var c := all[n];
      assert all[..n + 1] == all[..n] + [c];
      var key := (c.kind, c.version);
      if key in seen {
        var i := seen[key];
        JoinMerges(all[..n], c, r, seen, i);
        JoinSeen(all[..n], c, r, seen, i);
        r := r[i := r[i].(matches := r[i].matches + c.matches)];
      } else {
        AddMerges(all[..n], c, r, seen);
        AddSeen(all[..n], c, r, seen);
        seen := seen[key := |r|];
        r := r + [c];
      }
    }
    assert all[..|all|] == all;
    SeenMeans(all, r, seen);
  }
}
