/** Deterministic online selection: provenance gating, the best support path,
    inhibition, and the best few of each kind. */
module Selection {
  import opened Refs
  import opened Ordering

  datatype Kind = DispositionKind | RecollectionKind | UnknownKind
  datatype Scope = Self | Other | Relation | SituationScope
  datatype Query = Query(ref: Ref, text: string)
  datatype Anchor = Anchor(episode: Ref, source: Ref, text: string)
  /** `support` is empty unless an indexed Episode matched. */
  datatype IndexMatch = IndexMatch(query: Ref, support: Ref, rank: int, lane: int)
  datatype Candidate = Candidate(
    kind: Kind, version: Ref, text: string, scope: Scope, ownerOrder: int,
    support: seq<Anchor>, inhibition: seq<Anchor>, reenactments: int, matches: seq<IndexMatch>)
  datatype Activation = Activation(
    kind: Kind, version: Ref, scope: Scope, query: Ref, matched: Ref, evidenceEpisode: Ref, evidenceSource: Ref)
  datatype Policy = Policy(
    ref: Ref, minimumScore: Score, maxRecollections: int, maxDispositions: int, availabilityCap: int, canonicalPerOwnerKind: int)

  /** What a float64 can hold; infinities order as numbers do. */
  datatype Score = NaN | NegativeInfinity | PositiveInfinity | Finite(value: real)
  type Ranker = (string, string) -> Score

  /** normalizeScore */
  function Normalize(s: Score): (r: real)
    ensures 0.0 <= r <= 1.0
    ensures s.Finite? && 0.0 <= s.value <= 1.0 ==> r == s.value
  {
    match s
    case NaN => 0.0
    case NegativeInfinity => 0.0
    case PositiveInfinity => 1.0
    case Finite(x) => if x < 0.0 then 0.0 else if x > 1.0 then 1.0 else x
  }

  datatype Path = Path(activation: Activation, score: real, direct: bool, indexed: bool, rank: int, lane: int)
  datatype Ranked = Ranked(activation: Activation, support: real, availability: int, ownerOrder: int, indexed: bool, rank: int, lane: int)

  /* ---- betterPath ---- */

  predicate Better(l: Path, r: Path) {
    if l.indexed != r.indexed then l.indexed
    else if l.indexed && l.rank != r.rank then l.rank < r.rank
    else if l.indexed && l.lane != r.lane then l.lane < r.lane
    else if l.score != r.score then l.score > r.score
    else if l.direct != r.direct then l.direct
    else if l.activation.query != r.activation.query then Less(l.activation.query, r.activation.query)
    else if l.activation.matched != r.activation.matched then Less(l.activation.matched, r.activation.matched)
    else if l.activation.evidenceEpisode != r.activation.evidenceEpisode then Less(l.activation.evidenceEpisode, r.activation.evidenceEpisode)
    else Less(l.activation.evidenceSource, r.activation.evidenceSource)
  }

  function Flag(b: bool): int {
    if b then 0 else 1
  }

  function PathKey(p: Path): (k: Key)
    ensures |k| == 9
  {
    [N(Flag(p.indexed)), N(if p.indexed then p.rank else 0), N(if p.indexed then p.lane else 0), R(0.0 - p.score), N(Flag(p.direct)),
     S(p.activation.query), S(p.activation.matched), S(p.activation.evidenceEpisode), S(p.activation.evidenceSource)]
  }

  /** The place where two keys first differ decides. */
  lemma {:induction false} FirstDifference(a: Key, b: Key, i: nat)
    requires SameShape(a, b) && i < |a| && a[i] != b[i] && forall k :: 0 <= k < i ==> a[k] == b[k]
    ensures LexLess(a, b) <==> ElemLess(a[i], b[i])
    decreases i
  {
    if i == 0 {
      ElemOrder(a[0], b[0]);
    } else {
      ElemOrder(a[0], b[0]);
      FirstDifference(a[1..], b[1..], i - 1);
    }
  }

  /** The comparison is decided where the keys first differ. */
  lemma DecidedAt(l: Path, r: Path, i: nat)
    requires i < 9 && PathKey(l)[i] != PathKey(r)[i] && forall k :: 0 <= k < i ==> PathKey(l)[k] == PathKey(r)[k]
    ensures Better(l, r) <==> ElemLess(PathKey(l)[i], PathKey(r)[i])
  {
    var a, b := PathKey(l), PathKey(r);
    assert i > 0 ==> a[0] == b[0];
    assert i > 1 ==> a[1] == b[1];
    assert i > 2 ==> a[2] == b[2];
    assert i > 3 ==> a[3] == b[3];
    assert i > 4 ==> a[4] == b[4];
    assert i > 5 ==> a[5] == b[5];
    assert i > 6 ==> a[6] == b[6];
    assert i > 7 ==> a[7] == b[7];
  }

  lemma SameKeyNeither(l: Path, r: Path)
    requires PathKey(l) == PathKey(r)
    ensures !Better(l, r)
  {
    var a, b := PathKey(l), PathKey(r);
    assert a[0] == b[0] && a[1] == b[1] && a[2] == b[2] && a[3] == b[3] && a[4] == b[4];
    assert a[5] == b[5] && a[6] == b[6] && a[7] == b[7] && a[8] == b[8];
    LessIrreflexive(l.activation.evidenceSource);
  }

  /** betterPath is the lexicographic order of the path keys. */
  lemma BetterIsLex(l: Path, r: Path)
    ensures Better(l, r) <==> LexLess(PathKey(l), PathKey(r))
  {
    var a, b := KeysOf(l, r);
    if a == b {
      LexOrder(a, b);
      SameKeyNeither(l, r);
    } else {
      var i := FirstDifferent(a, b);
      FirstDifference(a, b, i);
      DecidedAt(l, r, i);
    }
  }

  lemma KeysOf(l: Path, r: Path) returns (a: Key, b: Key)
    ensures a == PathKey(l) && b == PathKey(r) && SameShape(a, b)
  {
    a, b := PathKey(l), PathKey(r);
  }

  lemma FirstDifferent(a: Key, b: Key) returns (i: nat)
    requires |a| == |b| && a != b
    ensures i < |a| && a[i] != b[i] && forall k :: 0 <= k < i ==> a[k] == b[k]
  {
    i := 0;
    while i < |a| && a[i] == b[i]
      invariant i <= |a| && forall k :: 0 <= k < i ==> a[k] == b[k]
    {
      i := i + 1;
    }
  }

  /* ---- anchors ---- */

  predicate LiveAnchor(a: Anchor) {
    a.episode != "" && a.source != "" && a.text != ""
  }

  predicate LiveQuery(q: Query) {
    q.ref != "" && q.text != ""
  }

  function AnchorKey(a: Anchor): Key {
    [S(a.episode), S(a.source), S(a.text)]
  }

  lemma AnchorKeyInjective(a: Anchor, b: Anchor)
    requires AnchorKey(a) == AnchorKey(b)
    ensures a == b
  {
    var x, y := AnchorKey(a), AnchorKey(b);
    assert x[0] == y[0] && x[1] == y[1] && x[2] == y[2];
  }

  /** The least anchor: the default evidence. */
  ghost predicate IsFirst(live: seq<Anchor>, a: Anchor) {
    a in live && forall b :: b in live ==> b == a || LexLess(AnchorKey(a), AnchorKey(b))
  }

  /** The least anchor of one Episode: the evidence of an indexed Episode. */
  ghost predicate IsSupport(live: seq<Anchor>, episode: Ref, a: Anchor) {
    a in live && a.episode == episode && forall b :: b in live && b.episode == episode ==> b == a || LexLess(AnchorKey(a), AnchorKey(b))
  }

  /** liveAnchors */
  method LiveAnchors(anchors: seq<Anchor>) returns (live: seq<Anchor>)
    ensures forall a :: a in live <==> a in anchors && LiveAnchor(a)
    ensures Sorted(live, AnchorKey)
  {
    var kept: seq<Anchor> := [];
    for i := 0 to |anchors|
      invariant forall a :: a in kept <==> a in anchors[..i] && LiveAnchor(a)
    {
      assert anchors[..i + 1] == anchors[..i] + [anchors[i]];
      if anchors[i].episode != "" && anchors[i].source != "" && anchors[i].text != "" {
        kept := kept + [anchors[i]];
      }
    }
    assert anchors[..|anchors|] == anchors;
    live := SortBy(kept, AnchorKey);
  }

  lemma EarlierIsLess(live: seq<Anchor>, i: nat, j: nat)
    requires Sorted(live, AnchorKey) && i <= j < |live|
    ensures live[i] == live[j] || LexLess(AnchorKey(live[i]), AnchorKey(live[j]))
  {
    LexOrder(AnchorKey(live[i]), AnchorKey(live[j]));
    if AnchorKey(live[i]) == AnchorKey(live[j]) {
      AnchorKeyInjective(live[i], live[j]);
    }
  }

  lemma HeadIsFirst(live: seq<Anchor>)
    requires Sorted(live, AnchorKey) && live != []
    ensures IsFirst(live, live[0])
  {
    forall b | b in live ensures b == live[0] || LexLess(AnchorKey(live[0]), AnchorKey(b)) {
      var j :| 0 <= j < |live| && live[j] == b;
      EarlierIsLess(live, 0, j);
    }
  }

  lemma FirstIsUnique(live: seq<Anchor>, a: Anchor, b: Anchor)
    requires IsFirst(live, a) && IsFirst(live, b)
    ensures a == b
  {
    LexOrder(AnchorKey(a), AnchorKey(b));
  }

  lemma SupportIsUnique(live: seq<Anchor>, episode: Ref, a: Anchor, b: Anchor)
    requires IsSupport(live, episode, a) && IsSupport(live, episode, b)
    ensures a == b
  {
    LexOrder(AnchorKey(a), AnchorKey(b));
  }

  method FindSupport(live: seq<Anchor>, episode: Ref) returns (found: bool, a: Anchor)
    requires Sorted(live, AnchorKey)
    ensures found <==> exists b :: b in live && b.episode == episode
    ensures found ==> IsSupport(live, episode, a)
  {
    a := Anchor("", "", "");
    for i := 0 to |live|
      invariant forall k :: 0 <= k < i ==> live[k].episode != episode
    {
      if live[i].episode == episode {
        forall b | b in live && b.episode == episode ensures b == live[i] || LexLess(AnchorKey(live[i]), AnchorKey(b)) {
          var j :| 0 <= j < |live| && live[j] == b;
          EarlierIsLess(live, i, j);
        }
        return true, live[i];
      }
    }
    found := false;
  }

  /* ---- paths ---- */

  function DirectPath(c: Candidate, evidence: Anchor, q: Query, ranker: Ranker): Path {
    Path(Activation(c.kind, c.version, c.scope, q.ref, c.version, evidence.episode, evidence.source),
         Normalize(ranker(q.text, c.text)), true, false, 0, 0)
  }

  function AnchorPath(c: Candidate, a: Anchor, q: Query, ranker: Ranker): Path {
    Path(Activation(c.kind, c.version, c.scope, q.ref, a.source, a.episode, a.source),
         Normalize(ranker(q.text, a.text)), false, false, 0, 0)
  }

  function MatchPath(c: Candidate, m: IndexMatch, evidence: Anchor, q: Query, ranker: Ranker): Path {
    var direct := m.support == "";
    Path(Activation(c.kind, c.version, c.scope, m.query, if direct then c.version else m.support, evidence.episode, evidence.source),
         Normalize(ranker(q.text, if direct then c.text else evidence.text)), direct, true, m.rank, m.lane)
  }

  predicate ValidMatch(m: IndexMatch) {
    m.query != "" && m.rank >= 0 && m.lane >= 0
  }

  ghost predicate MatchEvidence(c: Candidate, live: seq<Anchor>, m: IndexMatch, a: Anchor) {
    if m.support == "" then IsFirst(live, a) else c.kind == DispositionKind && IsSupport(live, m.support, a)
  }

  /** The query a ref stands for: of several live queries with one ref, the last. */
  ghost predicate Resolves(queries: seq<Query>, ref: Ref, q: Query) {
    exists i :: 0 <= i < |queries| && queries[i] == q && LiveQuery(q) && q.ref == ref
                && forall j :: i < j < |queries| && LiveQuery(queries[j]) ==> queries[j].ref != ref
  }

  ghost predicate FromMatch(queries: seq<Query>, c: Candidate, live: seq<Anchor>, m: IndexMatch, ranker: Ranker, p: Path) {
    && c.kind != UnknownKind && ValidMatch(m)
    && exists q, a :: Resolves(queries, m.query, q) && MatchEvidence(c, live, m, a) && p == MatchPath(c, m, a, q, ranker)
  }

  ghost predicate FromQuery(c: Candidate, live: seq<Anchor>, q: Query, ranker: Ranker, p: Path) {
    LiveQuery(q) &&
    (|| (exists a :: IsFirst(live, a) && p == DirectPath(c, a, q, ranker))
     || (c.kind != RecollectionKind && exists a :: a in live && p == AnchorPath(c, a, q, ranker)))
  }

  /** Every way the candidate can be reached, whatever the order of the inputs. */
  ghost predicate IsPath(queries: seq<Query>, c: Candidate, live: seq<Anchor>, ranker: Ranker, p: Path) {
    || (exists m :: m in c.matches && FromMatch(queries, c, live, m, ranker, p))
    || (exists q :: q in queries && FromQuery(c, live, q, ranker, p))
  }

  ghost predicate IsBest(queries: seq<Query>, c: Candidate, live: seq<Anchor>, ranker: Ranker, best: Path) {
    && IsPath(queries, c, live, ranker, best)
    && forall p :: IsPath(queries, c, live, ranker, p) ==> p == best || Better(best, p)
  }

  predicate UniqueRefs(queries: seq<Query>) {
    forall i, j :: 0 <= i < j < |queries| ==> queries[i].ref != queries[j].ref
  }

  /* ---- one candidate's paths are totally ordered ---- */

  predicate Of(c: Candidate, p: Path) {
    && p.activation.kind == c.kind && p.activation.version == c.version && p.activation.scope == c.scope
    && (p.indexed || (p.rank == 0 && p.lane == 0))
  }

  lemma BetterTotal(c: Candidate, l: Path, r: Path)
    requires Of(c, l) && Of(c, r)
    ensures l == r || Better(l, r) || Better(r, l)
    ensures !(Better(l, r) && Better(r, l))
  {
    var a, b := KeysDecide(c, l, r);
    LexOrder(a, b);
  }

  lemma KeysDecide(c: Candidate, l: Path, r: Path) returns (a: Key, b: Key)
    requires Of(c, l) && Of(c, r)
    ensures SameShape(a, b) && (Better(l, r) <==> LexLess(a, b)) && (Better(r, l) <==> LexLess(b, a)) && (a == b ==> l == r)
  {
    a, b := KeysOf(l, r);
    BetterIsLex(l, r);
    BetterIsLex(r, l);
    if a == b {
      PathKeyInjective(c, l, r);
    }
  }

  lemma PathKeyInjective(c: Candidate, l: Path, r: Path)
    requires Of(c, l) && Of(c, r) && PathKey(l) == PathKey(r)
    ensures l == r
  {
    var a, b := PathKey(l), PathKey(r);
    assert a[0] == b[0] && a[1] == b[1] && a[2] == b[2] && a[3] == b[3] && a[4] == b[4];
    assert a[5] == b[5] && a[6] == b[6] && a[7] == b[7] && a[8] == b[8];
  }

  lemma PathShapes(l: Path, r: Path)
    ensures SameShape(PathKey(l), PathKey(r))
  {
  }

  lemma KeysTransitive(l: Path, m: Path, r: Path)
    requires LexLess(PathKey(l), PathKey(m)) && LexLess(PathKey(m), PathKey(r))
    ensures LexLess(PathKey(l), PathKey(r))
  {
    PathShapes(l, m);
    PathShapes(m, r);
    LexTransitive(PathKey(l), PathKey(m), PathKey(r));
  }

  lemma BetterTransitive(l: Path, m: Path, r: Path)
    requires Better(l, m) && Better(m, r)
    ensures Better(l, r)
  {
    BetterIsLex(l, m);
    BetterIsLex(m, r);
    KeysTransitive(l, m, r);
    BetterIsLex(l, r);
  }

  ghost predicate Top(c: Candidate, seen: set<Path>, found: bool, best: Path) {
    && (found <==> seen != {}) && (forall p :: p in seen ==> Of(c, p))
    && (found ==> best in seen && forall p :: p in seen ==> p == best || Better(best, p))
  }

  /** Considering one more path keeps the best of all seen. */
  lemma Consider(c: Candidate, seen: set<Path>, found: bool, best: Path, p: Path)
    requires Top(c, seen, found, best) && Of(c, p)
    ensures Top(c, seen + {p}, true, if !found || Better(p, best) then p else best)
  {
    if found {
      BetterTotal(c, p, best);
      if Better(p, best) {
        forall x | x in seen ensures x == p || Better(p, x) {
          if x != best {
            BetterTransitive(p, best, x);
          }
        }
      }
    }
  }

  /* ---- bestSupportPath ---- */

  ghost predicate IsIndex(queries: seq<Query>, refs: map<Ref, Query>) {
    forall r, q :: Resolves(queries, r, q) <==> r in refs && refs[r] == q
  }

  lemma ResolvesSnoc(queries: seq<Query>, x: Query, r: Ref, q: Query)
    ensures Resolves(queries + [x], r, q) <==> if LiveQuery(x) && x.ref == r then q == x else Resolves(queries, r, q)
  {
    var more, n := queries + [x], |queries|;
    assert more[n] == x && forall k :: 0 <= k < n ==> more[k] == queries[k];
    if LiveQuery(x) && x.ref == r {
      if Resolves(more, r, q) {
        var i :| 0 <= i < |more| && more[i] == q && forall j :: i < j < |more| && LiveQuery(more[j]) ==> more[j].ref != r;
        assert i == n;
      }
    } else if Resolves(queries, r, q) {
      var i :| 0 <= i < n && queries[i] == q && LiveQuery(q) && q.ref == r
               && forall j :: i < j < n && LiveQuery(queries[j]) ==> queries[j].ref != r;
      assert more[i] == q;
    }
  }

  lemma IndexSnoc(queries: seq<Query>, x: Query, refs: map<Ref, Query>)
    requires IsIndex(queries, refs)
    ensures IsIndex(queries + [x], if LiveQuery(x) then refs[x.ref := x] else refs)
  {
    forall r, q ensures Resolves(queries + [x], r, q) <==> if LiveQuery(x) && x.ref == r then q == x else Resolves(queries, r, q) {
      ResolvesSnoc(queries, x, r, q);
    }
  }

  method IndexQueries(queries: seq<Query>) returns (refs: map<Ref, Query>)
    ensures IsIndex(queries, refs)
  {
    refs := map[];
    for i := 0 to |queries|
      invariant IsIndex(queries[..i], refs)
    {
      IndexSnoc(queries[..i], queries[i], refs);
      assert queries[..i + 1] == queries[..i] + [queries[i]];
      if queries[i].ref != "" && queries[i].text != "" {
        refs := refs[queries[i].ref := queries[i]];
      }
    }
    assert queries[..|queries|] == queries;
  }

  /** The path of one index match, if its query and its evidence exist. */
  method MatchOne(queries: seq<Query>, refs: map<Ref, Query>, c: Candidate, live: seq<Anchor>, m: IndexMatch, ranker: Ranker)
    returns (ok: bool, p: Path)
    requires IsIndex(queries, refs) && Sorted(live, AnchorKey) && live != []
    ensures ok ==> Of(c, p)
    ensures forall x :: FromMatch(queries, c, live, m, ranker, x) <==> ok && x == p
  {
    p := Path(Activation(c.kind, c.version, c.scope, "", "", "", ""), 0.0, false, true, 0, 0);
    ok := false;
    if c.kind == UnknownKind || m.query == "" || m.rank < 0 || m.lane < 0 || m.query !in refs {
      return;
    }
    var evidence := live[0];
    HeadIsFirst(live);
    if m.support != "" {
      if c.kind != DispositionKind {
        return;
      }
      var found, a := FindSupport(live, m.support);
      if !found {
        return;
      }
      evidence := a;
    }
    ok, p := true, MatchPath(c, m, evidence, refs[m.query], ranker);
    assert MatchEvidence(c, live, m, evidence);
    EvidenceIsUnique(c, live, m, evidence);
  }

  lemma EvidenceIsUnique(c: Candidate, live: seq<Anchor>, m: IndexMatch, a: Anchor)
    requires MatchEvidence(c, live, m, a)
    ensures forall b :: MatchEvidence(c, live, m, b) ==> b == a
  {
    forall b | MatchEvidence(c, live, m, b) ensures b == a {
      if m.support == "" {
        FirstIsUnique(live, a, b);
      } else {
        SupportIsUnique(live, m.support, a, b);
      }
    }
  }

  method QueryPaths(c: Candidate, live: seq<Anchor>, q: Query, ranker: Ranker, found: bool, best: Path, ghost seen: set<Path>)
    returns (found': bool, best': Path, ghost seen': set<Path>)
    requires Sorted(live, AnchorKey) && live != [] && Top(c, seen, found, best)
    ensures Top(c, seen', found', best')
    ensures forall p :: p in seen' <==> p in seen || FromQuery(c, live, q, ranker, p)
  {
    found', best', seen' := found, best, seen;
    if q.ref == "" || q.text == "" {
      return;
    }
    HeadIsFirst(live);
    FirstOnly(live);
    var direct := DirectPath(c, live[0], q, ranker);
    Consider(c, seen', found', best', direct);
    if !found' || Better(direct, best') {
      best' := direct;
    }
    found', seen' := true, seen' + {direct};
    if c.kind == RecollectionKind {
      return;
    }
    for i := 0 to |live|
      invariant Top(c, seen', found', best') && found'
      invariant forall p :: p in seen' <==> p in seen || p == direct || exists k :: 0 <= k < i && p == AnchorPath(c, live[k], q, ranker)
    {
      var path := AnchorPath(c, live[i], q, ranker);
      Consider(c, seen', found', best', path);
      if Better(path, best') {
        best' := path;
      }
      seen' := seen' + {path};
    }
  }

  lemma FirstOnly(live: seq<Anchor>)
    requires Sorted(live, AnchorKey) && live != []
    ensures forall a :: IsFirst(live, a) <==> a == live[0]
  {
    HeadIsFirst(live);
    forall a | IsFirst(live, a) ensures a == live[0] {
      FirstIsUnique(live, a, live[0]);
    }
  }

  /** The indexed paths come first. */
  method BestMatch(queries: seq<Query>, c: Candidate, live: seq<Anchor>, ranker: Ranker)
    returns (found: bool, best: Path, ghost seen: set<Path>)
    requires Sorted(live, AnchorKey) && live != []
    ensures Top(c, seen, found, best)
    ensures forall p :: p in seen <==> exists k :: 0 <= k < |c.matches| && FromMatch(queries, c, live, c.matches[k], ranker, p)
  {
    found, best, seen := false, Path(Activation(c.kind, c.version, c.scope, "", "", "", ""), 0.0, false, true, 0, 0), {};
    var refs := IndexQueries(queries);
    for i := 0 to |c.matches|
      invariant Top(c, seen, found, best)
      invariant forall p :: p in seen <==> exists k :: 0 <= k < i && FromMatch(queries, c, live, c.matches[k], ranker, p)
    {
      var ok, path := MatchOne(queries, refs, c, live, c.matches[i], ranker);
      if ok {
        Consider(c, seen, found, best, path);
        if !found || Better(path, best) {
          best := path;
        }
        found, seen := true, seen + {path};
      }
    }
  }

  /** bestSupportPath: the one best path among all, or none. */
  method BestSupportPath(queries: seq<Query>, c: Candidate, live: seq<Anchor>, ranker: Ranker) returns (found: bool, best: Path)
    requires Sorted(live, AnchorKey) && live != []
    ensures found <==> exists p :: IsPath(queries, c, live, ranker, p)
    ensures found ==> IsBest(queries, c, live, ranker, best) && Of(c, best)
  {
    ghost var matched: set<Path>;
    found, best, matched := BestMatch(queries, c, live, ranker);
    ghost var seen := matched;
    for i := 0 to |queries|
      invariant Top(c, seen, found, best)
      invariant forall p :: p in seen <==> p in matched || exists k :: 0 <= k < i && FromQuery(c, live, queries[k], ranker, p)
    {
      found, best, seen := QueryPaths(c, live, queries[i], ranker, found, best, seen);
    }
    SeenIsAll(queries, c, live, ranker, matched, seen);
  }

  lemma SeenIsAll(queries: seq<Query>, c: Candidate, live: seq<Anchor>, ranker: Ranker, matched: set<Path>, seen: set<Path>)
    requires forall p :: p in matched <==> exists k :: 0 <= k < |c.matches| && FromMatch(queries, c, live, c.matches[k], ranker, p)
    requires forall p :: p in seen <==> p in matched || exists k :: 0 <= k < |queries| && FromQuery(c, live, queries[k], ranker, p)
    ensures forall p :: p in seen <==> IsPath(queries, c, live, ranker, p)
  {
    forall p | IsPath(queries, c, live, ranker, p) ensures p in seen {
      if m :| m in c.matches && FromMatch(queries, c, live, m, ranker, p) {
        var k :| 0 <= k < |c.matches| && c.matches[k] == m;
      } else {
        var q :| q in queries && FromQuery(c, live, q, ranker, p);
        var k :| 0 <= k < |queries| && queries[k] == q;
      }
    }
    forall p | p in seen ensures IsPath(queries, c, live, ranker, p) {
      if p in matched {
        var k :| 0 <= k < |c.matches| && FromMatch(queries, c, live, c.matches[k], ranker, p);
        assert c.matches[k] in c.matches;
      } else {
        var k :| 0 <= k < |queries| && FromQuery(c, live, queries[k], ranker, p);
        assert queries[k] in queries;
      }
    }
  }

  /* ---- bestInhibition ---- */

  function Association(ranker: Ranker, q: Query, a: Anchor): real {
    Normalize(ranker(q.text, a.text))
  }

  ghost predicate IsInhibition(queries: seq<Query>, anchors: seq<Anchor>, ranker: Ranker, x: real) {
    exists q, a :: q in queries && LiveQuery(q) && a in anchors && LiveAnchor(a) && x == Association(ranker, q, a)
  }

  /** One query against the live anchors, raising the best score so far. */
  method RaiseInhibition(q: Query, live: seq<Anchor>, ranker: Ranker, found: bool, best: real) returns (found': bool, best': real)
    ensures Below(ranker, q, live, |live|, found', best') && (found ==> found' && best <= best')
    ensures found' ==> (found && best' == best) || exists j :: 0 <= j < |live| && best' == Association(ranker, q, live[j])
  {
    found', best' := found, best;
    for j := 0 to |live|
      invariant Below(ranker, q, live, j, found', best') && (found ==> found' && best <= best')
      invariant found' ==> (found && best' == best) || exists x :: 0 <= x < j && best' == Association(ranker, q, live[x])
    {
      var score := Association(ranker, q, live[j]);
      if !found' || score > best' {
        best', found' := score, true;
      }
    }
  }

  /** bestInhibition: the strongest live inhibiting association. */
  method BestInhibition(queries: seq<Query>, anchors: seq<Anchor>, ranker: Ranker) returns (found: bool, best: real)
    ensures found <==> exists x :: IsInhibition(queries, anchors, ranker, x)
    ensures found ==> IsInhibition(queries, anchors, ranker, best) && forall x :: IsInhibition(queries, anchors, ranker, x) ==> x <= best
  {
    found, best := false, 0.0;
    var live := LiveAnchors(anchors);
    for i := 0 to |queries|
      invariant found ==> IsInhibition(queries, anchors, ranker, best)
      invariant forall k :: 0 <= k < i && LiveQuery(queries[k]) ==> Below(ranker, queries[k], live, |live|, found, best)
    {
      if queries[i].ref != "" && queries[i].text != "" {
        ghost var before, was := best, found;
        found, best := RaiseInhibition(queries[i], live, ranker, found, best);
        if found && !(was && best == before) {
          ghost var j :| 0 <= j < |live| && best == Association(ranker, queries[i], live[j]);
          assert live[j] in live && queries[i] in queries;
        }
        forall k | 0 <= k < i && LiveQuery(queries[k]) ensures Below(ranker, queries[k], live, |live|, found, best) {
          BelowGrows(ranker, queries[k], live, was, before, found, best);
        }
      }
    }
    forall x | IsInhibition(queries, anchors, ranker, x) ensures found && x <= best {
      var q, a :| q in queries && LiveQuery(q) && a in anchors && LiveAnchor(a) && x == Association(ranker, q, a);
      var k :| 0 <= k < |queries| && queries[k] == q;
      assert a in live;
      var j :| 0 <= j < |live| && live[j] == a;
      assert Below(ranker, queries[k], live, |live|, found, best);
    }
  }

  lemma BelowGrows(ranker: Ranker, q: Query, live: seq<Anchor>, found: bool, best: real, found': bool, best': real)
    requires Below(ranker, q, live, |live|, found, best) && (found ==> found' && best <= best')
    ensures Below(ranker, q, live, |live|, found', best')
  {
  }

  ghost predicate Below(ranker: Ranker, q: Query, live: seq<Anchor>, n: nat, found: bool, best: real)
    requires n <= |live|
  {
    (n > 0 ==> found) && forall x :: 0 <= x < n ==> Association(ranker, q, live[x]) <= best
  }

  /* ---- one candidate's activation ---- */

  predicate ValidPolicy(p: Policy) {
    && p.ref != "" && p.minimumScore.Finite? && 0.0 <= p.minimumScore.value <= 1.0
    && p.maxRecollections > 0 && p.maxDispositions > 0 && p.availabilityCap >= 0 && p.canonicalPerOwnerKind > 0
  }

  function Availability(c: Candidate, policy: Policy): int {
    if c.kind != DispositionKind then 0
    else if c.reenactments < 0 then 0
    else if c.reenactments > policy.availabilityCap then policy.availabilityCap else c.reenactments
  }

  function MakeRanked(c: Candidate, p: Path, policy: Policy): Ranked {
    Ranked(p.activation, p.score, Availability(c, policy), c.ownerOrder, p.indexed, p.rank, p.lane)
  }

  ghost predicate IsLive(c: Candidate, live: seq<Anchor>) {
    live != [] && forall a :: a in live <==> a in c.support && LiveAnchor(a)
  }

  ghost predicate Inhibited(queries: seq<Query>, c: Candidate, ranker: Ranker, score: real) {
    c.kind == DispositionKind && exists x :: IsInhibition(queries, c.inhibition, ranker, x) && score <= x
  }

  /** The candidate is activated by its best path: over the threshold or indexed,
      and stronger than every live inhibition. */
  ghost predicate Activates(queries: seq<Query>, c: Candidate, ranker: Ranker, policy: Policy, item: Ranked)
    requires ValidPolicy(policy)
  {
    c.version != "" && c.text != "" && c.kind != UnknownKind &&
    exists live, best :: IsLive(c, live) && IsBest(queries, c, live, ranker, best)
      && (best.indexed || best.score >= policy.minimumScore.value) && !Inhibited(queries, c, ranker, best.score)
      && item == MakeRanked(c, best, policy)
  }

  lemma BestIsUnique(queries: seq<Query>, c: Candidate, live: seq<Anchor>, ranker: Ranker, x: Path, y: Path)
    requires IsBest(queries, c, live, ranker, x) && IsBest(queries, c, live, ranker, y)
    ensures x == y
  {
    PathsAreOf(queries, c, live, ranker, x);
    PathsAreOf(queries, c, live, ranker, y);
    BetterTotal(c, x, y);
  }

  lemma PathsAreOf(queries: seq<Query>, c: Candidate, live: seq<Anchor>, ranker: Ranker, p: Path)
    requires IsPath(queries, c, live, ranker, p)
    ensures Of(c, p)
    ensures exists a :: a in live && p.activation.evidenceEpisode == a.episode && p.activation.evidenceSource == a.source
  {
    if m :| m in c.matches && FromMatch(queries, c, live, m, ranker, p) {
      var q, a :| Resolves(queries, m.query, q) && MatchEvidence(c, live, m, a) && p == MatchPath(c, m, a, q, ranker);
      assert a in live;
    } else {
      var q :| q in queries && FromQuery(c, live, q, ranker, p);
      if a :| IsFirst(live, a) && p == DirectPath(c, a, q, ranker) {
        assert a in live;
      } else {
        var a :| a in live && p == AnchorPath(c, a, q, ranker);
      }
    }
  }

  /** Each activation cites one of that candidate's own live support anchors. */
  lemma EvidenceIsOwnAnchor(queries: seq<Query>, c: Candidate, ranker: Ranker, policy: Policy, item: Ranked)
    requires ValidPolicy(policy) && Activates(queries, c, ranker, policy, item)
    ensures item.activation.kind == c.kind && item.activation.version == c.version && item.activation.scope == c.scope
    ensures exists a :: a in c.support && LiveAnchor(a) && item.activation.evidenceEpisode == a.episode && item.activation.evidenceSource == a.source
  {
    var live, best :| IsLive(c, live) && IsBest(queries, c, live, ranker, best) && item == MakeRanked(c, best, policy);
    PathsAreOf(queries, c, live, ranker, best);
  }

  /* ---- order of the inputs does not matter ---- */

  ghost predicate SameMembers<T(!new)>(a: seq<T>, b: seq<T>) {
    forall x :: x in a <==> x in b
  }

  /** The same queries, every ref standing for the same one. */
  ghost predicate SameQueries(qs: seq<Query>, qs': seq<Query>) {
    SameMembers(qs, qs') && forall r, q :: Resolves(qs, r, q) <==> Resolves(qs', r, q)
  }

  lemma ResolvesUnique(qs: seq<Query>, r: Ref, q: Query)
    requires UniqueRefs(qs)
    ensures Resolves(qs, r, q) <==> q in qs && LiveQuery(q) && q.ref == r
  {
    if q in qs && LiveQuery(q) && q.ref == r {
      var i :| 0 <= i < |qs| && qs[i] == q;
      assert forall j :: i < j < |qs| ==> qs[j].ref != qs[i].ref;
    }
  }

  /** With distinct refs the order of the queries does not matter. */
  lemma DistinctRefsResolveAlike(qs: seq<Query>, qs': seq<Query>)
    requires UniqueRefs(qs) && UniqueRefs(qs') && SameMembers(qs, qs')
    ensures SameQueries(qs, qs')
  {
    forall r, q ensures Resolves(qs, r, q) <==> Resolves(qs', r, q) {
      ResolvesUnique(qs, r, q);
      ResolvesUnique(qs', r, q);
    }
  }

  /** Equal up to the order of anchors and index matches. */
  ghost predicate SameCandidate(c: Candidate, d: Candidate) {
    && d == c.(support := d.support, inhibition := d.inhibition, matches := d.matches)
    && SameMembers(c.support, d.support) && SameMembers(c.inhibition, d.inhibition) && SameMembers(c.matches, d.matches)
  }

  lemma EvidenceCarries(c: Candidate, d: Candidate, live: seq<Anchor>, live': seq<Anchor>, m: IndexMatch, a: Anchor)
    requires SameCandidate(c, d) && SameMembers(live, live') && MatchEvidence(c, live, m, a)
    ensures MatchEvidence(d, live', m, a)
  {
  }

  lemma PathCarries(qs: seq<Query>, qs': seq<Query>, c: Candidate, d: Candidate, live: seq<Anchor>, live': seq<Anchor>, ranker: Ranker, p: Path)
    requires SameQueries(qs, qs') && SameCandidate(c, d) && SameMembers(live, live') && IsPath(qs, c, live, ranker, p)
    ensures IsPath(qs', d, live', ranker, p)
  {
    if m :| m in c.matches && FromMatch(qs, c, live, m, ranker, p) {
      var q, a :| Resolves(qs, m.query, q) && MatchEvidence(c, live, m, a) && p == MatchPath(c, m, a, q, ranker);
      EvidenceCarries(c, d, live, live', m, a);
      assert p == MatchPath(d, m, a, q, ranker);
      assert FromMatch(qs', d, live', m, ranker, p);
    } else {
      var q :| q in qs && FromQuery(c, live, q, ranker, p);
      QueryCarries(c, d, live, live', q, ranker, p);
    }
  }

  lemma QueryCarries(c: Candidate, d: Candidate, live: seq<Anchor>, live': seq<Anchor>, q: Query, ranker: Ranker, p: Path)
    requires SameCandidate(c, d) && SameMembers(live, live') && FromQuery(c, live, q, ranker, p)
    ensures FromQuery(d, live', q, ranker, p)
  {
    if a :| IsFirst(live, a) && p == DirectPath(c, a, q, ranker) {
      assert IsFirst(live', a) && p == DirectPath(d, a, q, ranker);
    } else {
      var a :| a in live && p == AnchorPath(c, a, q, ranker);
      assert a in live' && p == AnchorPath(d, a, q, ranker);
    }
  }

  lemma BestCarries(qs: seq<Query>, qs': seq<Query>, c: Candidate, d: Candidate, live: seq<Anchor>, live': seq<Anchor>, ranker: Ranker, best: Path)
    requires SameQueries(qs, qs') && SameCandidate(c, d) && SameMembers(live, live') && IsBest(qs, c, live, ranker, best)
    ensures IsBest(qs', d, live', ranker, best)
  {
    PathCarries(qs, qs', c, d, live, live', ranker, best);
    forall p | IsPath(qs', d, live', ranker, p) ensures p == best || Better(best, p) {
      PathCarries(qs', qs, d, c, live', live, ranker, p);
    }
  }

  lemma InhibitedCarries(qs: seq<Query>, qs': seq<Query>, c: Candidate, d: Candidate, ranker: Ranker, score: real)
    requires SameQueries(qs, qs') && SameCandidate(c, d) && Inhibited(qs', d, ranker, score)
    ensures Inhibited(qs, c, ranker, score)
  {
    var x :| IsInhibition(qs', d.inhibition, ranker, x) && score <= x;
    assert IsInhibition(qs, c.inhibition, ranker, x);
  }

  lemma ActivationCarries(qs: seq<Query>, qs': seq<Query>, c: Candidate, d: Candidate, ranker: Ranker, policy: Policy, item: Ranked)
    requires ValidPolicy(policy) && SameQueries(qs, qs') && SameCandidate(c, d) && Activates(qs, c, ranker, policy, item)
    ensures Activates(qs', d, ranker, policy, item)
  {
    var live, best :| IsLive(c, live) && IsBest(qs, c, live, ranker, best)
      && (best.indexed || best.score >= policy.minimumScore.value) && !Inhibited(qs, c, ranker, best.score)
      && item == MakeRanked(c, best, policy);
    BestCarries(qs, qs', c, d, live, live, ranker, best);
    if Inhibited(qs', d, ranker, best.score) {
      InhibitedCarries(qs, qs', c, d, ranker, best.score);
    }
    assert IsLive(d, live) && item == MakeRanked(d, best, policy);
  }
}
